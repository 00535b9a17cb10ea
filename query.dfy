/**
 The parameter-to-query rule shared by both tool handlers and both helpers:
 walk the entries of the parameter object in order and append
 `(key, value.toString())` to a `URLSearchParams` accumulator for every value
 that is not `undefined`, not `null` and not the empty string. Then the
 accumulator's text form, built from an abstract form-urlencoded escape.
 */
module QueryParams {
  import opened Js

  /** One `[key, value]` of `Object.entries(params)`. */
  type Entry = (string, ParamValue)

  /** One name-value pair held by a `URLSearchParams`. */
  type Pair = (string, string)

  /** The filter's test: `value !== undefined && value !== null && value !== ''`. */
  predicate Kept(v: ParamValue)
  {
    !v.Undef? && !v.Null? && v != Str("")
  }

  /** `value.toString()` for a value the filter keeps. */
  function ValueText(v: ParamValue, js: Builtins): string
    requires Kept(v)
  {
    match v
    case Str(s) => s
    case Int(i) => IntText(i)
    case Bool(b) => if b then "true" else "false"
    case Num(x) => if x == x.Floor as real then IntText(x.Floor) else js.numberText(x)
    case _ => ""
  }

  /** A number prints the same whether it is held as `Int` or as an integral `Num`. */
  lemma NumberTextIgnoresForm(i: int, js: Builtins)
    ensures ValueText(Num(i as real), js) == ValueText(Int(i), js)
  {
  }

  /** What the accumulator holds after the walk over `entries`. */
  function Filter(entries: seq<Entry>, js: Builtins): seq<Pair>
  {
    if entries == [] then []
    else
      var last := entries[|entries| - 1];
      Filter(entries[..|entries| - 1], js) +
        (if Kept(last.1) then [(last.0, ValueText(last.1, js))] else [])
  }

  /** The positions of `entries` whose values the filter keeps, ascending. */
  function KeptIndices(entries: seq<Entry>): seq<nat>
  {
    if entries == [] then []
    else KeptIndices(entries[..|entries| - 1]) + (if Kept(entries[|entries| - 1].1) then [|entries| - 1] else [])
  }

  /** The `forEach` loop with its `append`: builds exactly `Filter(entries)`. */
  method AppendEntries(entries: seq<Entry>, js: Builtins) returns (query: seq<Pair>)
    ensures query == Filter(entries, js)
  {
    query := [];
    var i := 0;
    while i < |entries|
      invariant 0 <= i <= |entries|
      invariant query == Filter(entries[..i], js)
    {
      var (key, value) := entries[i];
      if Kept(value) {
        query := query + [(key, ValueText(value, js))];
      }
      assert entries[..i + 1][..i] == entries[..i];
      i := i + 1;
    }
    assert entries[..|entries|] == entries;
  }

  /** The filter keeps exactly the entries whose value is not undefined, null
      or '', in their input order, each key paired with its value's text. */
  lemma {:induction false} FilterSelects(entries: seq<Entry>, js: Builtins)
    ensures |Filter(entries, js)| == |KeptIndices(entries)|
    ensures forall j :: 0 <= j < |KeptIndices(entries)| ==>
              KeptIndices(entries)[j] < |entries| && Kept(entries[KeptIndices(entries)[j]].1)
    ensures forall j :: 0 <= j < |KeptIndices(entries)| ==>
              Filter(entries, js)[j] ==
                (entries[KeptIndices(entries)[j]].0, ValueText(entries[KeptIndices(entries)[j]].1, js))
    ensures forall j, j' :: 0 <= j < j' < |KeptIndices(entries)| ==>
              KeptIndices(entries)[j] < KeptIndices(entries)[j']
    ensures forall i :: 0 <= i < |entries| && Kept(entries[i].1) ==> i in KeptIndices(entries)
  {
    if entries != [] {
      var n := |entries| - 1;
      var p := entries[..n];
      FilterSelects(p, js);
      assert forall i :: 0 <= i < n ==> entries[i] == p[i];
    }
  }

  /** Every pair the filter emits comes from a kept entry, and every kept entry
      gives one. */
  lemma FilterMembership(entries: seq<Entry>, js: Builtins, key: string, text: string)
    ensures (key, text) in Filter(entries, js) <==>
              exists i :: 0 <= i < |entries| && entries[i].0 == key && Kept(entries[i].1) &&
                          ValueText(entries[i].1, js) == text
  {
    FilterSelects(entries, js);
    var q, ks := Filter(entries, js), KeptIndices(entries);
    if (key, text) in q {
      var j :| 0 <= j < |q| && q[j] == (key, text);
      assert entries[ks[j]].0 == key;
    }
    if exists i :: 0 <= i < |entries| && entries[i].0 == key && Kept(entries[i].1) &&
                   ValueText(entries[i].1, js) == text {
      var i :| 0 <= i < |entries| && entries[i].0 == key && Kept(entries[i].1) &&
               ValueText(entries[i].1, js) == text;
      var j :| 0 <= j < |ks| && ks[j] == i;
      assert q[j] == (key, text);
    }
  }

  /** `name=value` for one pair. */
  function PairText(p: Pair, escape: string -> string): string
  {
    escape(p.0) + "=" + escape(p.1)
  }

  /** `URLSearchParams.prototype.toString`: the pairs joined by `&`. */
  function Serialize(query: seq<Pair>, escape: string -> string): string
  {
    if query == [] then ""
    else if |query| == 1 then PairText(query[0], escape)
    else PairText(query[0], escape) + "&" + Serialize(query[1..], escape)
  }

  /** What the form-urlencoded byte serializer promises: it never emits the
      two separators, and its decoder undoes it. */
  ghost predicate EscapeLaws(js: Builtins)
  {
    forall s :: '&' !in js.formEscape(s) && '=' !in js.formEscape(s) && js.formUnescape(js.formEscape(s)) == s
  }

  /** `s` split at every occurrence of `c`. */
  function Split(s: string, c: char): (parts: seq<string>)
    ensures |parts| > 0
  {
    if s == [] then [""]
    else if s[0] == c then [""] + Split(s[1..], c)
    else
      var rest := Split(s[1..], c);
      [[s[0]] + rest[0]] + rest[1..]
  }

  /** Position of the first `c` in `s`. */
  function FirstIndex(s: string, c: char): (i: nat)
    requires c in s
    ensures i < |s| && s[i] == c && c !in s[..i]
  {
    if s[0] == c then 0
    else
      var i := FirstIndex(s[1..], c);
      assert s[1..][..i] == s[1..i + 1];
      i + 1
  }

  /** One `&`-separated sequence of the form-urlencoded parser. */
  function ParseSegment(seg: string, unescape: string -> string): Pair
  {
    if '=' in seg then
      var i := FirstIndex(seg, '=');
      (unescape(seg[..i]), unescape(seg[i + 1..]))
    else (unescape(seg), "")
  }

  function ParseSegments(segs: seq<string>, unescape: string -> string): seq<Pair>
  {
    if segs == [] then []
    else (if segs[0] == "" then [] else [ParseSegment(segs[0], unescape)]) + ParseSegments(segs[1..], unescape)
  }

  /** The application/x-www-form-urlencoded parser: split at `&`, skip empty
      sequences, split each at its first `=`. */
  function Parse(s: string, unescape: string -> string): seq<Pair>
  {
    ParseSegments(Split(s, '&'), unescape)
  }

  lemma {:induction false} SplitFree(a: string, c: char)
    requires c !in a
    ensures Split(a, c) == [a]
  {
    if a != [] {
      SplitFree(a[1..], c);
      assert [a[0]] + a[1..] == a;
    }
  }

  lemma {:induction false} SplitJoin(a: string, b: string, c: char)
    requires c !in a
    ensures Split(a + [c] + b, c) == [a] + Split(b, c)
  {
    if a == [] {
      assert a + [c] + b == [c] + b;
      assert ([c] + b)[1..] == b;
    } else {
      var s := a + [c] + b;
      assert s[0] == a[0];
      assert s[1..] == a[1..] + [c] + b;
      SplitJoin(a[1..], b, c);
      assert [a[0]] + a[1..] == a;
    }
  }

  lemma ParsePairText(p: Pair, js: Builtins)
    requires EscapeLaws(js)
    ensures '&' !in PairText(p, js.formEscape)
    ensures PairText(p, js.formEscape) != ""
    ensures ParseSegment(PairText(p, js.formEscape), js.formUnescape) == p
  {
    var k, v := js.formEscape(p.0), js.formEscape(p.1);
    var seg := k + "=" + v;
    assert seg[|k|] == '=';
    var i := FirstIndex(seg, '=');
    assert seg[..i] == k;
    assert seg[i + 1..] == v;
  }

  /** Parsing `head&tail` parses `head`, then `tail`. */
  lemma ParseCons(head: string, tail: string, unescape: string -> string)
    requires '&' !in head && head != ""
    ensures Parse(head + "&" + tail, unescape) == [ParseSegment(head, unescape)] + Parse(tail, unescape)
  {
    assert head + "&" + tail == head + ['&'] + tail;
    SplitJoin(head, tail, '&');
  }

  /** Parsing the serialized accumulator gives back the pairs it held: the
      query string carries exactly the filtered pairs, in order. */
  lemma {:induction false} SerializeRoundTrip(query: seq<Pair>, js: Builtins)
    requires EscapeLaws(js)
    ensures Parse(Serialize(query, js.formEscape), js.formUnescape) == query
  {
    if query == [] {
    } else {
      var head := PairText(query[0], js.formEscape);
      ParsePairText(query[0], js);
      if |query| == 1 {
        SplitFree(head, '&');
        assert ParseSegments([head], js.formUnescape) == [query[0]] + ParseSegments([], js.formUnescape);
      } else {
        ParseCons(head, Serialize(query[1..], js.formEscape), js.formUnescape);
        SerializeRoundTrip(query[1..], js);
        assert [query[0]] + query[1..] == query;
      }
    }
  }
}
