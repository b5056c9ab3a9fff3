/**
 The parameter list of a WWW-Authenticate challenge: comma-separated key="value" pairs
 (sections 11.2 and 11.6.1 of RFC 9110). Lower-casing is a parameter.
 */
module AuthParams {

  type Params = map<string, string>

  predicate Space(c: char) {
    c == ' ' || c == '\t' || c == '\n' || c == '\r' || c == '\U{0B}' || c == '\U{0C}' || c == '\U{85}' || c == '\U{A0}'
  }

  function TrimLeft(s: string): (r: string)
    ensures |r| <= |s|
  {
    if s != "" && Space(s[0]) then TrimLeft(s[1..]) else s
  }

  function TrimRight(s: string): (r: string)
    ensures |r| <= |s|
  {
    if s != "" && Space(s[|s| - 1]) then TrimRight(s[..|s| - 1]) else s
  }

  function Trim(s: string): (r: string)
    ensures |r| <= |s|
  {
    TrimRight(TrimLeft(s))
  }

  function TrimPrefix(s: string, c: char): (r: string)
    ensures |r| <= |s|
  {
    if s != "" && s[0] == c then s[1..] else s
  }

  /** Where c first occurs, or the length. */
  function Index(s: string, c: char): (i: nat)
    ensures i <= |s| && (i < |s| ==> s[i] == c)
    ensures forall j :: 0 <= j < i ==> s[j] != c
  {
    if s == "" || s[0] == c then 0 else 1 + Index(s[1..], c)
  }

  // ------------------------------------------------------------------ one pair

  /** The value after an equals sign, and what follows it. */
  function Value(rest: string): (r: (string, string))
    ensures |r.1| <= |rest| + 1 && (rest != "" ==> |r.1| <= |rest|)
  {
    if rest != "" && rest[0] == '"' then
      var body := rest[1..];
      var end := Index(body, '"');
      if end == |body| then (body, "") else (body[..end], body[end + 1..])
    else
      var comma := Index(rest, ',');
      (rest[..comma], "," + (if comma < |rest| then rest[comma + 1..] else ""))
  }

  function Next(rest: string): (s: string)
    ensures |s| <= |rest|
    ensures rest != "" && rest[0] == ',' ==> |s| < |rest|
  {
    TrimmedComma(rest);
    Trim(TrimPrefix(Trim(rest), ','))
  }

  lemma {:induction false} TrimmedComma(rest: string)
    ensures rest != "" && rest[0] == ',' ==> Trim(rest) != "" && Trim(rest)[0] == ','
  {
    if rest != "" && rest[0] == ',' { RightKeepsFirst(rest); }
  }

  lemma {:induction false} RightKeepsFirst(s: string)
    requires s != "" && !Space(s[0])
    ensures TrimRight(s) != "" && TrimRight(s)[0] == s[0]
  {
    if Space(s[|s| - 1]) { RightKeepsFirst(s[..|s| - 1]); }
  }

  /** The key, the value and what is left to read. */
  function Head(s: string): (r: (string, string, string))
    requires Index(s, '=') < |s|
    ensures |r.2| < |s|
  {
    var eq := Index(s, '=');
    var (val, rest) := Value(s[eq + 1..]);
    (Trim(s[..eq]), val, Next(rest))
  }

  /** The loop of parseAuthParams on a trimmed rest. */
  function ParseFrom(s: string, out: Params, lower: string -> string): (r: Params)
    decreases |s|
  {
    if s == "" || Index(s, '=') == |s| then out
    else
      var (key, val, next) := Head(s);
      ParseFrom(next, out[lower(key) := val], lower)
  }

  function Parse(s: string, lower: string -> string): (r: Params) { ParseFrom(Trim(s), map[], lower) }

  // ------------------------------------------------------------------ printing

  type Pair = (string, string)

  function PrintOne(p: Pair): (r: string) { p.0 + ['=', '"'] + p.1 + ['"'] }

  /** The pairs with a comma and `gap` between them. */
  function Print(ps: seq<Pair>, gap: string): (r: string) {
    if ps == [] then ""
    else PrintOne(ps[0]) + if |ps| == 1 then "" else [','] + gap + Print(ps[1..], gap)
  }

  predicate AllSpace(s: string) { forall i :: 0 <= i < |s| ==> Space(s[i]) }

  /** A key the parser gives back as it is, and a value without a quote. */
  predicate Printable(p: Pair, lower: string -> string) {
    && p.0 != "" && !Space(p.0[0]) && !Space(p.0[|p.0| - 1]) && '=' !in p.0 && lower(p.0) == p.0
    && '"' !in p.1
  }

  predicate AllPrintable(ps: seq<Pair>, lower: string -> string) {
    forall i :: 0 <= i < |ps| ==> Printable(ps[i], lower)
  }

  /** Later pairs win. */
  function Into(out: Params, ps: seq<Pair>): (r: Params)
    decreases |ps|
  {
    if ps == [] then out else Into(out[ps[0].0 := ps[0].1], ps[1..])
  }

  // -------------------------------------------------------------------- lemmas

  lemma {:induction false} TrimTight(s: string)
    requires s == "" || (!Space(s[0]) && !Space(s[|s| - 1]))
    ensures Trim(s) == s
  {
  }

  lemma {:induction false} TrimGap(gap: string, s: string)
    requires AllSpace(gap) && (s == "" || (!Space(s[0]) && !Space(s[|s| - 1])))
    ensures Trim(gap + s) == s
  {
    if gap == "" {
      assert gap + s == s;
    } else {
      assert (gap + s)[1..] == gap[1..] + s;
      TrimGap(gap[1..], s);
    }
  }

  lemma {:induction false} IndexAfter(a: string, c: char, rest: string)
    requires c !in a && rest != "" && rest[0] == c
    ensures Index(a + rest, c) == |a|
  {
    if a == "" {
      assert a + rest == rest;
    } else {
      assert (a + rest)[1..] == a[1..] + rest;
      assert c !in a[1..] && a[0] != c;
      IndexAfter(a[1..], c, rest);
    }
  }

  /** Printed pairs start with a key and end with a quote. */
  lemma {:induction false} PrintTight(ps: seq<Pair>, gap: string, lower: string -> string)
    requires ps != [] && AllPrintable(ps, lower)
    ensures var s := Print(ps, gap); s != "" && !Space(s[0]) && !Space(s[|s| - 1])
  {
    assert Printable(ps[0], lower);
    if |ps| > 1 { PrintTight(ps[1..], gap, lower); }
  }

  function Tail(ps: seq<Pair>, gap: string): (r: string)
    requires ps != []
  {
    if |ps| == 1 then "" else [','] + gap + Print(ps[1..], gap)
  }

  lemma {:induction false} TailNext(ps: seq<Pair>, gap: string, lower: string -> string)
    requires ps != [] && AllPrintable(ps, lower) && AllSpace(gap)
    ensures Next(Tail(ps, gap)) == Print(ps[1..], gap)
  {
    if |ps| > 1 {
      var s := Print(ps[1..], gap);
      PrintTight(ps[1..], gap, lower);
      var tail := [','] + gap + s;
      assert tail[0] == ',' && tail[|tail| - 1] == s[|s| - 1];
      TrimTight(tail);
      assert TrimPrefix(tail, ',') == gap + s;
      TrimGap(gap, s);
    }
  }

  lemma {:induction false} PairValue(p: Pair, tail: string)
    requires '"' !in p.1
    ensures Value(['"'] + p.1 + ['"'] + tail) == (p.1, tail)
  {
    var rest := ['"'] + p.1 + ['"'] + tail;
    var body := rest[1..];
    assert body == p.1 + (['"'] + tail);
    IndexAfter(p.1, '"', ['"'] + tail);
    assert body[..|p.1|] == p.1 && body[|p.1| + 1..] == tail;
  }

  /** Reading one printed pair leaves the rest of the list. */
  lemma {:induction false} ParsePair(ps: seq<Pair>, gap: string, out: Params, lower: string -> string)
    requires ps != [] && AllPrintable(ps, lower) && AllSpace(gap)
    ensures ParseFrom(Print(ps, gap), out, lower) == ParseFrom(Print(ps[1..], gap), out[ps[0].0 := ps[0].1], lower)
  {
    var p, tail := ps[0], Tail(ps, gap);
    var s := Print(ps, gap);
    var after := ['"'] + p.1 + ['"'] + tail;
    assert Printable(p, lower);
    assert s == p.0 + (['='] + after);
    IndexAfter(p.0, '=', ['='] + after);
    assert s[..|p.0|] == p.0 && s[|p.0| + 1..] == after;
    TrimTight(p.0);
    PairValue(p, tail);
    TailNext(ps, gap, lower);
  }

  lemma {:induction false} ParsePrinted(ps: seq<Pair>, gap: string, out: Params, lower: string -> string)
    requires AllPrintable(ps, lower) && AllSpace(gap)
    ensures ParseFrom(Print(ps, gap), out, lower) == Into(out, ps)
  {
    if ps != [] {
      ParsePair(ps, gap, out, lower);
      ParsePrinted(ps[1..], gap, out[ps[0].0 := ps[0].1], lower);
    }
  }

  predicate DistinctKeys(ps: seq<Pair>) { forall i, j :: 0 <= i < j < |ps| ==> ps[i].0 != ps[j].0 }

  lemma {:induction false} IntoKeeps(out: Params, ps: seq<Pair>, k: string)
    requires forall i :: 0 <= i < |ps| ==> ps[i].0 != k
    ensures k in Into(out, ps) <==> k in out
    ensures k in out ==> Into(out, ps)[k] == out[k]
    decreases |ps|
  {
    if ps != [] { IntoKeeps(out[ps[0].0 := ps[0].1], ps[1..], k); }
  }

  lemma {:induction false} IntoHolds(out: Params, ps: seq<Pair>, i: nat)
    requires DistinctKeys(ps) && i < |ps|
    ensures ps[i].0 in Into(out, ps) && Into(out, ps)[ps[i].0] == ps[i].1
    decreases |ps|
  {
    var next := out[ps[0].0 := ps[0].1];
    if i == 0 {
      IntoKeeps(next, ps[1..], ps[0].0);
    } else {
      IntoHolds(next, ps[1..], i - 1);
    }
  }

  /** Parsing a printed list of pairs with distinct keys gives every pair back and nothing
      else, for any amount of white space after the commas. */
  lemma {:induction false} ParseInvertsPrint(ps: seq<Pair>, gap: string, lower: string -> string)
    requires AllPrintable(ps, lower) && AllSpace(gap) && DistinctKeys(ps)
    ensures var m := Parse(Print(ps, gap), lower);
            && (forall i :: 0 <= i < |ps| ==> ps[i].0 in m && m[ps[i].0] == ps[i].1)
            && (forall k :: k in m ==> exists i :: 0 <= i < |ps| && ps[i].0 == k)
  {
    var s := Print(ps, gap);
    if ps != [] { PrintTight(ps, gap, lower); }
    TrimTight(s);
    ParsePrinted(ps, gap, map[], lower);
    var m := Into(map[], ps);
    forall i | 0 <= i < |ps| ensures ps[i].0 in m && m[ps[i].0] == ps[i].1 {
      IntoHolds(map[], ps, i);
    }
    forall k | k in m ensures exists i :: 0 <= i < |ps| && ps[i].0 == k {
      if forall i :: 0 <= i < |ps| ==> ps[i].0 != k { IntoKeeps(map[], ps, k); }
    }
  }

  /** `after` is a value and what follows it: in quotes, up to the closing one or to the end
      of the text; or bare, up to the next comma, which is added where there is none. */
  predicate Splits(after: string, val: string, rest: string) {
    if after != "" && after[0] == '"' then
      && '"' !in val
      && (after == ['"'] + val + ['"'] + rest || (after == ['"'] + val && rest == ""))
    else
      && ',' !in val && rest != "" && rest[0] == ','
      && (after == val + rest || (after == val && rest == ","))
  }

  lemma {:induction false} IndexAbsent(s: string, c: char)
    ensures Index(s, c) == |s| <==> c !in s
  {
    if c in s {
      var k :| 0 <= k < |s| && s[k] == c;
    }
  }

  /** There is exactly one such split, and it is the one that is read. */
  lemma {:induction false} ValueSplits(after: string, val: string, rest: string)
    ensures (val, rest) == Value(after) <==> Splits(after, val, rest)
  {
    if (val, rest) == Value(after) {
      if after != "" && after[0] == '"' { QuotedRead(after); } else { BareRead(after); }
    }
    if Splits(after, val, rest) {
      if after != "" && after[0] == '"' {
        if after == ['"'] + val + ['"'] + rest { PairValue(("", val), rest); } else { OpenValue(val); }
      } else {
        BareOnly(after, val, rest);
      }
    }
  }

  lemma {:induction false} QuotedRead(after: string)
    requires after != "" && after[0] == '"'
    ensures Splits(after, Value(after).0, Value(after).1)
  {
    var body := after[1..];
    var end := Index(body, '"');
    assert after == ['"'] + body;
    if end < |body| {
      Rejoined(after, end);
    } else {
      IndexAbsent(body, '"');
    }
  }

  lemma {:induction false} Rejoined(after: string, end: nat)
    requires end + 1 < |after| && after[0] == '"' && after[end + 1] == '"'
    ensures after == ['"'] + after[1..][..end] + ['"'] + after[1..][end + 1..]
  {
    var body := after[1..];
    assert body == body[..end] + [body[end]] + body[end + 1..];
    assert after == ['"'] + body;
  }

  lemma {:induction false} OpenValue(val: string)
    requires '"' !in val
    ensures Value(['"'] + val) == (val, "")
  {
    assert (['"'] + val)[1..] == val;
    IndexAbsent(val, '"');
  }

  lemma {:induction false} BareRead(after: string)
    requires after == "" || after[0] != '"'
    ensures Splits(after, Value(after).0, Value(after).1)
  {
    var comma := Index(after, ',');
    if comma < |after| {
      assert after == after[..comma] + ("," + after[comma + 1..]);
    } else {
      assert after[..comma] == after;
    }
  }

  lemma {:induction false} BareOnly(after: string, val: string, rest: string)
    requires after == "" || after[0] != '"'
    requires Splits(after, val, rest)
    ensures (val, rest) == Value(after)
  {
    if after == val + rest {
      IndexAfter(val, ',', rest);
      assert after[..|val|] == val && after[|val| + 1..] == rest[1..];
      assert rest == "," + rest[1..];
    } else {
      IndexAbsent(after, ',');
      assert after[..|after|] == after;
      assert "," + "" == ",";
    }
  }

  /** Splits a value off, quoted or up to the next comma. */
  method CutValue(after: string) returns (val: string, rest: string)
    ensures (val, rest) == Value(after)
  {
    if after != "" && after[0] == '"' {
      var body := after[1..];
      var end := Index(body, '"');
      if end == |body| {
        val, rest := body, "";
      } else {
        val, rest := body[..end], body[end + 1..];
      }
    } else {
      var comma := Index(after, ',');
      val, rest := after[..comma], "," + (if comma < |after| then after[comma + 1..] else "");
    }
  }

  lemma {:induction false} ParseFromStep(s: string, out: Params, lower: string -> string)
    requires s != "" && Index(s, '=') < |s|
    ensures ParseFrom(s, out, lower) == ParseFrom(Head(s).2, out[lower(Head(s).0) := Head(s).1], lower)
  {
  }

  lemma {:induction false} ParseFromEnd(s: string, out: Params, lower: string -> string)
    requires s == "" || Index(s, '=') == |s|
    ensures ParseFrom(s, out, lower) == out
  {
  }

  /** The pair in front and the rest, for a text with an equals sign. */
  method CutPair(s: string) returns (key: string, val: string, next: string)
    requires Index(s, '=') < |s|
    ensures (key, val, next) == Head(s)
  {
    var eq := Index(s, '=');
    var rest;
    val, rest := CutValue(s[eq + 1..]);
    key, next := Trim(s[..eq]), Next(rest);
  }

  /** parseAuthParams, which ends on every input. */
  method ParseAuthParams(header: string, lower: string -> string) returns (out: Params)
    ensures out == Parse(header, lower)
  {
    out := map[];
    var s := Trim(header);
    while s != "" && Index(s, '=') < |s|
      invariant ParseFrom(s, out, lower) == Parse(header, lower)
      decreases |s|
    {
      ParseFromStep(s, out, lower);
      var key, val, next := CutPair(s);
      out, s := out[lower(key) := val], next;
    }
    ParseFromEnd(s, out, lower);
  }
}
