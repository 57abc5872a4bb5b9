/**
 * The numbered-part pattern `/\((\d+)\)\s*([^(]*?)(?=\(\d+\)|$)/g` that the
 * fill-in extractors run over a question's text with `exec` until it stops
 * matching: a part is `(N)`, optional whitespace, and the text up to the next
 * `(` — which must open another `(N)` label, or the text must end there.
 */
module PartPattern {
  import opened Wrappers
  import opened JsText
  import opened HtmlText

  /** One successful `exec`: the digits, the lazy capture and where the match ends. */
  datatype PartMatch = PartMatch(number: String, capture: String, end: nat)

  /** A kept part: its label digits, its trimmed text and its points. */
  datatype Part = Part(number: String, text: String, points: nat)

  /** `\(\d+\)` at `e`. */
  predicate LabelAt(s: String, e: nat) {
    e < |s| && s[e] == '(' &&
    var d := SkipDigits(s, e + 1);
    d > e + 1 && d < |s| && s[d] == ')'
  }

  /** The match of the pattern that starts exactly at `p`, if any. */
  function PartMatchAt(s: String, p: nat): (r: Option<PartMatch>)
    requires p <= |s|
    ensures r.Some? ==> p < r.value.end <= |s|
    ensures r.Some? ==> |r.value.number| > 0 && AllDigits(r.value.number)
    ensures r.Some? ==> '(' !in r.value.capture
    ensures r.Some? ==> r.value.end == |s| || LabelAt(s, r.value.end)
  {
    if !LabelAt(s, p) then None
    else
      var d := SkipDigits(s, p + 1);
      var w := SkipSpaces(s, d + 1);
      var e := FindChar(s, '(', w);
      if e == |s| || LabelAt(s, e) then
        assert forall k :: 0 <= k < e - w ==> s[w..e][k] == s[w + k];
        Some(PartMatch(s[p + 1..d], s[w..e], e))
      else None
  }

  /** Where `exec` finds its next match when `lastIndex` is `from`. */
  function NextPartMatch(s: String, from: nat): (r: Option<PartMatch>)
    requires from <= |s|
    ensures r.Some? ==> from < r.value.end <= |s|
    ensures r.Some? ==> |r.value.number| > 0 && AllDigits(r.value.number)
    ensures r.Some? ==> '(' !in r.value.capture
    decreases |s| - from
  {
    match PartMatchAt(s, from)
    case Some(m) => Some(m)
    case None => if from == |s| then None else NextPartMatch(s, from + 1)
  }

  /** Every match `exec` returns, in order, starting with `lastIndex == from`. */
  function PartMatches(s: String, from: nat): seq<PartMatch>
    requires from <= |s|
    decreases |s| - from
  {
    match NextPartMatch(s, from)
    case None => []
    case Some(m) => [m] + PartMatches(s, m.end)
  }

  /** The parts kept from a list of matches: trimmed text longer than five, five points each. */
  function KeptParts(ms: seq<PartMatch>): seq<Part>
  {
    if ms == [] then []
    else
      var t := Trim(ms[0].capture);
      (if JsLength(t) > 5 then [Part(ms[0].number, t, 5)] else []) + KeptParts(ms[1..])
  }

  lemma {:induction false} KeptPartsAppend(a: seq<PartMatch>, b: seq<PartMatch>)
    ensures KeptParts(a + b) == KeptParts(a) + KeptParts(b)
    decreases |a|
  {
    if a == [] {
      assert a + b == b;
    } else {
      assert (a + b)[0] == a[0];
      assert (a + b)[1..] == a[1..] + b;
      KeptPartsAppend(a[1..], b);
    }
  }

  /** One turn of the `exec` loop: the match found first contributes its part, if kept, before the rest. */
  lemma ExecStep(s: String, last: nat)
    requires last <= |s| && NextPartMatch(s, last).Some?
    ensures var m := NextPartMatch(s, last).value;
      KeptParts(PartMatches(s, last)) == KeptParts([m]) + KeptParts(PartMatches(s, m.end))
  {
    var m := NextPartMatch(s, last).value;
    assert PartMatches(s, last) == [m] + PartMatches(s, m.end);
    KeptPartsAppend([m], PartMatches(s, m.end));
  }

  /** The `exec` loop and the filter that follows it, over one question's text. */
  method ExtractParts(text: String) returns (parts: seq<Part>)
    ensures parts == KeptParts(PartMatches(text, 0))
  {
    parts := [];
    var last := 0;
    var m := NextPartMatch(text, last);
    while m.Some?
      invariant last <= |text| && m == NextPartMatch(text, last)
      invariant parts + KeptParts(PartMatches(text, last)) == KeptParts(PartMatches(text, 0))
      decreases |text| - last
    {
      ExecStep(text, last);
      var kept := KeptParts([m.value]);
      AppendAssoc(parts, kept, KeptParts(PartMatches(text, m.value.end)));
      parts := parts + kept;
      last := m.value.end;
      m := NextPartMatch(text, last);
    }
    assert PartMatches(text, last) == [];
  }

  /**
   * Every kept part has a non-empty numeric label, a trimmed text longer
   * than five code units that contains no `(`, and five points.
   */
  lemma {:induction false} KeptPartsShape(s: String, from: nat)
    requires from <= |s|
    ensures forall q :: q in KeptParts(PartMatches(s, from)) ==>
      |q.number| > 0 && AllDigits(q.number) && JsLength(q.text) > 5 && NoOuterSpace(q.text)
      && '(' !in q.text && q.points == 5
    decreases |s| - from
  {
    match NextPartMatch(s, from)
    case None =>
    case Some(m) =>
      KeptPartsShape(s, m.end);
      var t := Trim(m.capture);
      assert '(' !in t by {
        TrimDropsOnlySpaces(m.capture);
      }
      assert PartMatches(s, from) == [m] + PartMatches(s, m.end);
      KeptPartsAppend([m], PartMatches(s, m.end));
      assert KeptParts([m]) == (if JsLength(t) > 5 then [Part(m.number, t, 5)] else []);
  }

  /** The points of a list of parts, added up. */
  function TotalPoints(parts: seq<Part>): nat
  {
    if parts == [] then 0 else parts[0].points + TotalPoints(parts[1..])
  }

  /** A record worth `5 × parts.length` is worth exactly the sum of its parts. */
  lemma {:induction false} FivePerPart(s: String, from: nat)
    requires from <= |s|
    ensures TotalPoints(KeptParts(PartMatches(s, from))) == 5 * |KeptParts(PartMatches(s, from))|
    decreases |s| - from
  {
    KeptPartsShape(s, from);
    FivePointsEach(KeptParts(PartMatches(s, from)));
  }

  lemma {:induction false} FivePointsEach(parts: seq<Part>)
    requires forall q :: q in parts ==> q.points == 5
    ensures TotalPoints(parts) == 5 * |parts|
    decreases |parts|
  {
    if parts != [] {
      assert parts[0] in parts;
      assert forall q :: q in parts[1..] ==> q in parts;
      FivePointsEach(parts[1..]);
    }
  }
}
