/**
 JavaScript values and runtime facilities that the server relies on.

 The library behaviour that is out of scope (percent-encoding, JSON text,
 rendering of non-integral numbers, `String(error)`) is not defined here: it is
 carried by a `Builtins` value whose fields are uninterpreted functions, and
 every operation that needs one of them takes the `Builtins` as a parameter.
 */
module Js {

  datatype Option<+T> = None | Some(value: T)

  /** A parsed JSON document. Objects are maps: `JSON.parse` keeps the last of
      duplicate keys, and key order only matters to `JSON.stringify`, which is
      abstract here. */
  datatype Json =
    | JNull
    | JBool(b: bool)
    | JNum(n: real)
    | JStr(s: string)
    | JArr(items: seq<Json>)
    | JObj(fields: map<string, Json>)

  /** JavaScript truthiness of a JSON value (NaN is not representable). */
  predicate Truthy(j: Json)
  {
    match j
    case JNull => false
    case JBool(b) => b
    case JNum(n) => n != 0.0
    case JStr(s) => s != ""
    case JArr(_) => true
    case JObj(_) => true
  }

  /** Property access `j.key` on a JSON value: only objects have own
      properties with these names; on anything else the result is undefined. */
  function Prop(j: Json, key: string): (r: Option<Json>)
    ensures r.Some? <==> j.JObj? && key in j.fields
    ensures r.Some? ==> r.value == j.fields[key]
  {
    if j.JObj? && key in j.fields then Some(j.fields[key]) else None
  }

  /** A tool or helper argument: a property of a typed parameter object. A
      JavaScript number is `Int` or `Num`; an integral number may be written
      either way and prints the same in both. */
  datatype ParamValue =
    | Undef
    | Null
    | Str(s: string)
    | Int(i: int)
    | Bool(b: bool)
    | Num(x: real)

  /** JavaScript truthiness of a parameter value. */
  predicate ParamTruthy(v: ParamValue)
  {
    match v
    case Undef => false
    case Null => false
    case Str(s) => s != ""
    case Int(i) => i != 0
    case Bool(b) => b
    case Num(x) => x != 0.0
  }

  /** What a `catch` clause receives: an `Error` object carrying a message, or
      any other thrown value. */
  datatype Exception = Error(message: string) | NonError

  /** `e instanceof Error ? e.message : fallback`. */
  function MessageOr(e: Exception, fallback: string): (m: string)
    ensures e.Error? ==> m == e.message
    ensures e.NonError? ==> m == fallback
  {
    match e
    case Error(message) => message
    case NonError => fallback
  }

  /** How a promise settles. */
  datatype Settled<+T> = Fulfilled(value: T) | Rejected(reason: Exception)

  /** Outcome of `JSON.parse` (and of `Response.json()`): a value, or a
      `SyntaxError` with its message. */
  datatype ParseResult = Parsed(json: Json) | SyntaxError(message: string)

  /** Library functions the model leaves uninterpreted. */
  datatype Builtins = Builtins(
    formEscape: string -> string,      // application/x-www-form-urlencoded byte serializer
    formUnescape: string -> string,    // its decoder
    numberText: real -> string,        // Number.prototype.toString for non-integral numbers
    jsonText: Json -> string,          // JSON.stringify(x)
    prettyJson: Json -> string,        // JSON.stringify(x, null, 2)
    parseJson: string -> ParseResult,  // JSON.parse
    errorText: Exception -> string     // String(error)
  )

  /** Decimal digit `d` as a character. */
  function DigitChar(d: int): (c: char)
    requires 0 <= d < 10
    ensures '0' <= c <= '9' && c as int - '0' as int == d
  {
    (d + '0' as int) as char
  }

  predicate AllDigits(s: string)
  {
    forall i :: 0 <= i < |s| ==> '0' <= s[i] <= '9'
  }

  /** Decimal text of a natural number, most significant digit first. */
  function NatText(n: nat): (s: string)
    ensures |s| > 0 && AllDigits(s)
    ensures s[0] == '0' ==> n == 0
  {
    if n < 10 then [DigitChar(n)] else NatText(n / 10) + [DigitChar(n % 10)]
  }

  /** Value of a string of decimal digits. */
  function DigitsValue(s: string): nat
    requires AllDigits(s)
  {
    if s == [] then 0 else DigitsValue(s[..|s| - 1]) * 10 + (s[|s| - 1] as int - '0' as int)
  }

  /** `${i}` / `i.toString()` for an integral number of magnitude at most 2^53,
      the range in which a JavaScript number holds the integer exactly and
      prints it in plain decimal. */
  function IntText(i: int): string
  {
    if i < 0 then "-" + NatText(-i) else NatText(i)
  }

  /** Reads back what `IntText` printed. */
  function IntValue(s: string): Option<int>
  {
    if |s| > 0 && s[0] == '-' && AllDigits(s[1..]) && |s| > 1 then Some(-(DigitsValue(s[1..]) as int))
    else if |s| > 0 && AllDigits(s) then Some(DigitsValue(s))
    else None
  }

  lemma {:induction false} NatTextRoundTrip(n: nat)
    ensures DigitsValue(NatText(n)) == n
  {
    if n >= 10 {
      var s := NatText(n / 10) + [DigitChar(n % 10)];
      assert s[..|s| - 1] == NatText(n / 10);
      NatTextRoundTrip(n / 10);
    }
  }

  /** The decimal text of an integer determines it: printing loses nothing. */
  lemma IntTextRoundTrip(i: int)
    ensures IntValue(IntText(i)) == Some(i)
  {
    if i < 0 {
      var s := "-" + NatText(-i);
      assert s[1..] == NatText(-i);
      NatTextRoundTrip(-i);
    } else {
      NatTextRoundTrip(i);
    }
  }

  /** `process.env`: a process-wide, mutable string dictionary. */
  class ProcessEnv {
    var vars: map<string, string>

    constructor (vars: map<string, string>)
      ensures this.vars == vars
    {
      this.vars := vars;
    }
  }

  /** `process.env[name]`, undefined when absent. */
  function EnvGet(vars: map<string, string>, name: string): (r: Option<string>)
    ensures r.Some? <==> name in vars
    ensures r.Some? ==> r.value == vars[name]
  {
    if name in vars then Some(vars[name]) else None
  }
}
