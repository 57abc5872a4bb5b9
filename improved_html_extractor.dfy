/**
 * `ImprovedHTMLExtractor` (improved_html_extractor.js): instead of scanning
 * tokens, it searches the raw HTML once per identifier — `1.` to `40.`, then
 * `А.`, `Б.`, `В.` — and takes the lazy text after the first occurrence up to
 * the next boundary. Options `а.`–`д.` are searched for inside the question
 * text, parts `(N)` inside the fill-in text.
 */
module ImprovedHtmlExtractor {
  import opened Wrappers
  import opened JsText
  import opened HtmlText
  import opened PartPattern
  import WordSegments

  type Choice = WordSegments.Choice

  /** A record pushed onto `this.questions`; the HTML fragments it also carries are not modelled. */
  datatype Record =
    | MultipleChoice(number: nat, text: String, options: seq<Choice>, points: nat)
    | FillIn(letter: char, text: String, parts: seq<Part>, points: nat)

  /** The record's `id`: `mc_N` or `fill_in_L`. */
  function RecordId(r: Record): String {
    match r
    case MultipleChoice(n, _, _, _) => "mc_" + NatToString(n)
    case FillIn(l, _, _, _) => "fill_in_" + [l]
  }

  // ---------------------------------------------------------------------
  // `/N\.\s*([\s\S]*?)(?=\d+\.\s|А\.\s|Хоёрдугаар хэсэг|$)/g`, first `exec`

  /** The look-ahead that ends a question's text. */
  predicate McStop(s: String, e: nat)
    requires e <= |s|
  {
    e == |s| || NumberAhead(s, e) || (OccursAt(s, "А.", e) && e + 2 < |s| && IsSpace(s[e + 2]))
    || OccursAt(s, SectionTwo, e)
  }

  /** Where the lazy capture that starts at `e` ends. */
  function McStopFrom(s: String, e: nat): (r: nat)
    requires e <= |s|
    ensures e <= r <= |s| && McStop(s, r)
    ensures forall k :: e <= k < r ==> !McStop(s, k)
    decreases |s| - e
  {
    if McStop(s, e) then e else McStopFrom(s, e + 1)
  }

  function McMarker(n: nat): String { NatToString(n) + "." }

  /**
   * The capture for question `n`: after the first `N.` anywhere in the
   * page (also inside a longer number such as `1N.`) and its whitespace.
   */
  function McCapture(s: String, n: nat): Option<String>
  {
    match Find(s, McMarker(n), 0)
    case None => None
    case Some(p) =>
      var w := SkipSpaces(s, p + |McMarker(n)|);
      Some(s[w..McStopFrom(s, w)])
  }

  // ---------------------------------------------------------------------
  // `/L\.\s*([^а-д\.]*?)(?=[а-д]\.|$)/g`, first `exec`

  predicate IsOptionLetter(c: char) { 'а' <= c <= 'д' }

  /** What the option class `[^а-д\.]` refuses. */
  predicate NoOptionChar(s: String) {
    forall i :: 0 <= i < |s| ==> s[i] != '.' && !IsOptionLetter(s[i])
  }

  /** The first position at or after `e` that the option capture cannot pass. */
  function OptionScanEnd(t: String, e: nat): (r: nat)
    requires e <= |t|
    ensures e <= r <= |t|
    ensures forall k :: e <= k < r ==> t[k] != '.' && !IsOptionLetter(t[k])
    ensures r < |t| ==> t[r] == '.' || IsOptionLetter(t[r])
    decreases |t| - e
  {
    if e == |t| || t[e] == '.' || IsOptionLetter(t[e]) then e else OptionScanEnd(t, e + 1)
  }

  /** The match of option `letter` starting exactly at `p`. */
  function OptionAt(t: String, letter: char, p: nat): (r: Option<String>)
    requires p <= |t|
    ensures r.Some? ==> NoOptionChar(r.value)
  {
    if p + 1 < |t| && t[p] == letter && t[p + 1] == '.' then
      var w := SkipSpaces(t, p + 2);
      var e := OptionScanEnd(t, w);
      if e == |t| || (IsOptionLetter(t[e]) && e + 1 < |t| && t[e + 1] == '.') then
        assert forall k :: 0 <= k < e - w ==> t[w..e][k] == t[w + k];
        Some(t[w..e])
      else None
    else None
  }

  /** The leftmost match at or after `from`. */
  function FirstOption(t: String, letter: char, from: nat): (r: Option<String>)
    requires from <= |t|
    ensures r.Some? ==> NoOptionChar(r.value)
    decreases |t| - from
  {
    if from == |t| then None
    else match OptionAt(t, letter, from)
      case Some(c) => Some(c)
      case None => FirstOption(t, letter, from + 1)
  }

  const OptionLetters: String := "абвгд"

  /** The options of the `for … of optionLetters` loop, letters taken in order. */
  function OptionsFor(t: String, letters: String): seq<Choice>
  {
    if letters == [] then []
    else
      var first := match FirstOption(t, letters[0], 0)
        case None => []
        case Some(c) => [WordSegments.Choice(letters[0], Trim(c))];
      first + OptionsFor(t, letters[1..])
  }

  /** What `trim` keeps is a piece of its input, so a property of every character carries over. */
  lemma TrimNoOptionChar(s: String)
    requires NoOptionChar(s)
    ensures NoOptionChar(Trim(s))
  {
    TrimDropsOnlySpaces(s);
    var a, b :| 0 <= a <= b <= |s| && Trim(s) == s[a..b];
    assert forall i :: 0 <= i < b - a ==> s[a..b][i] == s[a + i];
  }

  /**
   * At most one option per letter, in the order of the letters, each text
   * trimmed and free of `.` and of `а`–`д`.
   */
  lemma {:induction false} OptionsForShape(t: String, letters: String)
    requires WordSegments.Increasing(letters)
    ensures |OptionsFor(t, letters)| <= |letters|
    ensures WordSegments.LettersIncrease(OptionsFor(t, letters))
    ensures forall c :: c in OptionsFor(t, letters) ==> c.letter in letters && NoOptionChar(c.text) && NoOuterSpace(c.text)
    decreases |letters|
  {
    if letters != [] {
      var rest := OptionsFor(t, letters[1..]);
      assert WordSegments.Increasing(letters[1..]);
      OptionsForShape(t, letters[1..]);
      var first: seq<Choice> := match FirstOption(t, letters[0], 0)
        case None => []
        case Some(c) => [WordSegments.Choice(letters[0], Trim(c))];
      assert OptionsFor(t, letters) == first + rest;
      if first != [] {
        TrimNoOptionChar(FirstOption(t, letters[0], 0).value);
      }
      PrependChoice(first, rest, letters);
    }
  }

  /** The option of the first letter, if any, goes before those of the later letters. */
  lemma PrependChoice(first: seq<Choice>, rest: seq<Choice>, letters: String)
    requires letters != [] && WordSegments.Increasing(letters) && |first| <= 1
    requires forall c :: c in first ==> c.letter == letters[0] && NoOptionChar(c.text) && NoOuterSpace(c.text)
    requires |rest| <= |letters| - 1 && WordSegments.LettersIncrease(rest)
    requires forall c :: c in rest ==> c.letter in letters[1..] && NoOptionChar(c.text) && NoOuterSpace(c.text)
    ensures |first + rest| <= |letters| && WordSegments.LettersIncrease(first + rest)
    ensures forall c :: c in first + rest ==> c.letter in letters && NoOptionChar(c.text) && NoOuterSpace(c.text)
  {
    var all := first + rest;
    forall c | c in rest
      ensures letters[0] < c.letter && c.letter in letters
    {
      var k :| 0 <= k < |letters[1..]| && letters[1..][k] == c.letter;
      assert letters[k + 1] == c.letter;
    }
    forall a, b | 0 <= a < b < |all|
      ensures all[a].letter < all[b].letter
    {
      if a < |first| {
        assert all[a] in first && all[b] in rest;
      } else {
        assert all[a] == rest[a - |first|] && all[b] == rest[b - |first|];
      }
    }
  }

  /** The `for … of optionLetters` loop. */
  method CollectOptions(t: String) returns (options: seq<Choice>)
    ensures options == OptionsFor(t, OptionLetters)
  {
    var letters := OptionLetters;
    options := [];
    var k := 0;
    while k < |letters|
      invariant k <= |letters|
      invariant options + OptionsFor(t, letters[k..]) == OptionsFor(t, letters)
    {
      var m := FirstOption(t, letters[k], 0);
      var found: seq<Choice> := [];
      if m.Some? {
        found := [WordSegments.Choice(letters[k], Trim(m.value))];
      }
      assert letters[k..][1..] == letters[k + 1..];
      assert OptionsFor(t, letters[k..]) == found + OptionsFor(t, letters[k + 1..]);
      AppendAssoc(options, found, OptionsFor(t, letters[k + 1..]));
      options := options + found;
      k := k + 1;
    }
    assert letters[k..] == [];
  }

  // ---------------------------------------------------------------------
  // Multiple-choice records

  /** The record pushed for question `n`, if any. */
  function McRecord(html: String, n: nat): (r: Option<Record>)
    ensures r.Some? ==> r.value.MultipleChoice? && r.value.number == n && r.value.points == 1
  {
    match McCapture(html, n)
    case None => None
    case Some(c) =>
      var questionText := Trim(c);
      if JsLength(questionText) > 10 then
        Some(MultipleChoice(n, StripTags(questionText), OptionsFor(questionText, OptionLetters), 1))
      else None
  }

  /** The records pushed for questions `1 .. n`. */
  function McUpTo(html: String, n: nat): seq<Record>
  {
    if n == 0 then [] else McUpTo(html, n - 1) + ToSeq(McRecord(html, n))
  }

  /**
   * One record at most per number: the records of questions `1 .. n` have
   * numbers in `1 .. n`, strictly increasing, so their `mc_N` ids are distinct.
   */
  lemma {:induction false} McUpToIncreasing(html: String, n: nat)
    ensures |McUpTo(html, n)| <= n
    ensures forall r :: r in McUpTo(html, n) ==> r.MultipleChoice? && 1 <= r.number <= n && r.points == 1
    ensures NumbersIncrease(McUpTo(html, n))
  {
    if n > 0 {
      McUpToIncreasing(html, n - 1);
      AppendNumbered(McUpTo(html, n - 1), McRecord(html, n), n);
    }
  }

  predicate NumbersIncrease(rs: seq<Record>) {
    forall a, b :: 0 <= a < b < |rs| && rs[a].MultipleChoice? && rs[b].MultipleChoice? ==> rs[a].number < rs[b].number
  }

  /** Appending the record of question `n` after those of questions below `n`. */
  lemma AppendNumbered(prev: seq<Record>, r: Option<Record>, n: nat)
    requires n >= 1 && |prev| <= n - 1 && NumbersIncrease(prev)
    requires forall q :: q in prev ==> q.MultipleChoice? && 1 <= q.number <= n - 1 && q.points == 1
    requires r.Some? ==> r.value.MultipleChoice? && r.value.number == n && r.value.points == 1
    ensures var all := prev + ToSeq(r);
      |all| <= n && NumbersIncrease(all)
      && forall q :: q in all ==> q.MultipleChoice? && 1 <= q.number <= n && q.points == 1
  {
    var all := prev + ToSeq(r);
    forall a, b | 0 <= a < b < |all|
      ensures all[a].MultipleChoice? && all[b].MultipleChoice? && all[a].number < all[b].number
    {
      if b >= |prev| {
        assert all[a] in prev;
      } else {
        assert all[a] == prev[a] && all[b] == prev[b];
      }
    }
  }

  /** Distinct numbers give distinct search markers and distinct ids. */
  lemma McIdsDistinct(n: nat, m: nat)
    requires n != m
    ensures McMarker(n) != McMarker(m)
    ensures "mc_" + NatToString(n) != "mc_" + NatToString(m)
  {
    ParsePrinted(n);
    ParsePrinted(m);
    var a := "mc_" + NatToString(n);
    var b := "mc_" + NatToString(m);
    assert a[3..] == NatToString(n) && b[3..] == NatToString(m);
    assert McMarker(n)[..|McMarker(n)| - 1] == NatToString(n);
    assert McMarker(m)[..|McMarker(m)| - 1] == NatToString(m);
  }

  // ---------------------------------------------------------------------
  // `/L\.\s*([\s\S]*?)(?=[АБВ]\.|$)/g`, first `exec`

  const FillInLetters: String := "АБВ"

  /** The look-ahead that ends a fill-in text. */
  predicate FillStop(s: String, e: nat)
    requires e <= |s|
  {
    e == |s| || (e + 1 < |s| && s[e] in FillInLetters && s[e + 1] == '.')
  }

  function FillStopFrom(s: String, e: nat): (r: nat)
    requires e <= |s|
    ensures e <= r <= |s| && FillStop(s, r)
    ensures forall k :: e <= k < r ==> !FillStop(s, k)
    decreases |s| - e
  {
    if FillStop(s, e) then e else FillStopFrom(s, e + 1)
  }

  function FillCapture(s: String, letter: char): Option<String>
  {
    match Find(s, [letter, '.'], 0)
    case None => None
    case Some(p) =>
      var w := SkipSpaces(s, p + 2);
      Some(s[w..FillStopFrom(s, w)])
  }

  /** The record pushed for fill-in letter `letter`, if any. */
  function FillRecord(html: String, letter: char): (r: Option<Record>)
    ensures r.Some? ==> r.value.FillIn? && r.value.letter == letter
  {
    match FillCapture(html, letter)
    case None => None
    case Some(c) =>
      var content := Trim(c);
      if JsLength(content) > 10 then
        var parts := KeptParts(PartMatches(content, 0));
        Some(FillIn(letter, StripTags(content), parts, |parts| * 5))
      else None
  }

  /** A pushed fill-in record: its points are five per part, which is the sum of its parts' points. */
  predicate FillShaped(r: Record) {
    r.FillIn? && r.points == 5 * |r.parts| == TotalPoints(r.parts)
    && forall q :: q in r.parts ==> JsLength(q.text) > 5 && '(' !in q.text && q.points == 5
  }

  lemma FillRecordShape(html: String, letter: char)
    ensures FillRecord(html, letter).Some? ==> FillShaped(FillRecord(html, letter).value)
  {
    match FillCapture(html, letter)
    case None =>
    case Some(c) =>
      var content := Trim(c);
      KeptPartsShape(content, 0);
      FivePerPart(content, 0);
  }

  /** The records pushed for the letters taken in order. */
  function FillUpTo(html: String, letters: String): seq<Record>
  {
    if letters == [] then [] else FillUpTo(html, letters[..|letters| - 1]) + ToSeq(FillRecord(html, letters[|letters| - 1]))
  }

  lemma FillUpToStep(html: String, letters: String, k: nat)
    requires k < |letters|
    ensures FillUpTo(html, letters[..k + 1]) == FillUpTo(html, letters[..k]) + ToSeq(FillRecord(html, letters[k]))
  {
    assert letters[..k + 1][..k] == letters[..k];
  }

  predicate FillLettersIncrease(rs: seq<Record>) {
    forall a, b :: 0 <= a < b < |rs| && rs[a].FillIn? && rs[b].FillIn? ==> rs[a].letter < rs[b].letter
  }

  /** One record at most per letter, in the order of the letters, each worth five per part. */
  lemma {:induction false} FillUpToShape(html: String, letters: String)
    requires WordSegments.Increasing(letters)
    ensures |FillUpTo(html, letters)| <= |letters|
    ensures forall r :: r in FillUpTo(html, letters) ==> FillShaped(r) && r.letter in letters
    ensures FillLettersIncrease(FillUpTo(html, letters))
    decreases |letters|
  {
    if letters != [] {
      var init := letters[..|letters| - 1];
      var last := letters[|letters| - 1];
      assert WordSegments.Increasing(init);
      FillUpToShape(html, init);
      FillRecordShape(html, last);
      AppendLettered(FillUpTo(html, init), FillRecord(html, last), letters);
    }
  }

  /** Appending the record of the last letter after those of the earlier letters. */
  lemma AppendLettered(prev: seq<Record>, r: Option<Record>, letters: String)
    requires letters != [] && WordSegments.Increasing(letters)
    requires |prev| <= |letters| - 1 && FillLettersIncrease(prev)
    requires forall q :: q in prev ==> FillShaped(q) && q.letter in letters[..|letters| - 1]
    requires r.Some? ==> FillShaped(r.value) && r.value.letter == letters[|letters| - 1]
    ensures var all := prev + ToSeq(r);
      |all| <= |letters| && FillLettersIncrease(all)
      && forall q :: q in all ==> FillShaped(q) && q.letter in letters
  {
    var all := prev + ToSeq(r);
    forall q | q in all
      ensures FillShaped(q) && q.letter in letters
    {
      if q in prev {
        var k :| 0 <= k < |letters| - 1 && letters[..|letters| - 1][k] == q.letter;
        assert letters[k] == q.letter;
      }
    }
    forall a, b | 0 <= a < b < |all|
      ensures all[a].FillIn? && all[b].FillIn? && all[a].letter < all[b].letter
    {
      if b >= |prev| {
        assert all[a] in prev;
        var k :| 0 <= k < |letters| - 1 && letters[..|letters| - 1][k] == all[a].letter;
        assert letters[k] == all[a].letter;
      } else {
        assert all[a] == prev[a] && all[b] == prev[b];
      }
    }
  }

  // ---------------------------------------------------------------------
  // Counters

  function CountMultipleChoice(qs: seq<Record>): (n: nat)
    ensures n <= |qs|
  {
    if qs == [] then 0 else CountMultipleChoice(qs[..|qs| - 1]) + (if qs[|qs| - 1].MultipleChoice? then 1 else 0)
  }

  function CountFillIn(qs: seq<Record>): (n: nat)
    ensures n <= |qs|
  {
    if qs == [] then 0 else CountFillIn(qs[..|qs| - 1]) + (if qs[|qs| - 1].FillIn? then 1 else 0)
  }

  /** Every record is of one kind or the other, so the two counts add up to the number of records. */
  lemma {:induction false} CountsAddUp(qs: seq<Record>)
    ensures CountMultipleChoice(qs) + CountFillIn(qs) == |qs|
    decreases |qs|
  {
    if qs != [] {
      CountsAddUp(qs[..|qs| - 1]);
    }
  }

  lemma CountsPush(qs: seq<Record>, q: Record)
    ensures CountMultipleChoice(qs + [q]) == CountMultipleChoice(qs) + (if q.MultipleChoice? then 1 else 0)
    ensures CountFillIn(qs + [q]) == CountFillIn(qs) + (if q.FillIn? then 1 else 0)
  {
    assert (qs + [q])[..|qs|] == qs;
  }

  /** The body of the loop of `extractMultipleChoiceHTML`, up to the push. */
  method QuestionFor(html: String, n: nat) returns (r: Option<Record>)
    ensures r == McRecord(html, n)
  {
    r := None;
    var m := McCapture(html, n);
    if m.Some? {
      var questionText := Trim(m.value);
      var options := CollectOptions(questionText);
      if JsLength(questionText) > 10 {
        r := Some(MultipleChoice(n, StripTags(questionText), options, 1));
      }
    }
  }

  /** The body of the loop of `extractFillInHTML`, up to the push, with the `exec` loop over the parts. */
  method FillInFor(html: String, letter: char) returns (r: Option<Record>)
    ensures r == FillRecord(html, letter)
  {
    r := None;
    var m := FillCapture(html, letter);
    if m.Some? {
      var content := Trim(m.value);
      var parts := ExtractParts(content);
      if JsLength(content) > 10 {
        r := Some(FillIn(letter, StripTags(content), parts, |parts| * 5));
      }
    }
  }

  class Extractor {
    var questions: seq<Record>
    var multipleChoiceCount: nat
    var fillInCount: nat

    /** The two counters count the pushed records of their kind. */
    predicate Valid()
      reads this
    {
      multipleChoiceCount == CountMultipleChoice(questions) && fillInCount == CountFillIn(questions)
    }

    constructor()
      ensures Valid() && questions == []
    {
      questions := [];
      multipleChoiceCount := 0;
      fillInCount := 0;
    }

    /** `this.questions.push(q)` together with the `++` on the counter of its kind. */
    method Push(q: Record)
      requires Valid()
      modifies this
      ensures Valid() && questions == old(questions) + [q]
    {
      CountsPush(questions, q);
      questions := questions + [q];
      if q.MultipleChoice? {
        multipleChoiceCount := multipleChoiceCount + 1;
      } else {
        fillInCount := fillInCount + 1;
      }
    }

    /** One turn of the loop of `extractMultipleChoiceHTML`, for question `n`. */
    method VisitNumber(html: String, n: nat, ghost base: seq<Record>)
      requires Valid() && n >= 1 && questions == base + McUpTo(html, n - 1)
      modifies this
      ensures Valid() && questions == base + McUpTo(html, n)
    {
      var r := QuestionFor(html, n);
      assert McUpTo(html, n) == McUpTo(html, n - 1) + ToSeq(McRecord(html, n));
      if r.Some? {
        Push(r.value);
      }
    }

    /** `extractMultipleChoiceHTML`: questions 1 to 40, each looked for on its own. */
    method ExtractMultipleChoiceHtml(html: String)
      requires Valid()
      modifies this
      ensures Valid() && questions == old(questions) + McUpTo(html, 40)
    {
      ghost var base := questions;
      var n := 1;
      while n <= 40
        invariant 1 <= n <= 41 && Valid()
        invariant questions == base + McUpTo(html, n - 1)
      {
        VisitNumber(html, n, base);
        n := n + 1;
      }
      assert n - 1 == 40;
    }

    /** One turn of the loop of `extractFillInHTML`, for `letter`. */
    method VisitLetter(html: String, letter: char)
      requires Valid()
      modifies this
      ensures Valid() && questions == old(questions) + ToSeq(FillRecord(html, letter))
    {
      var r := FillInFor(html, letter);
      if r.Some? {
        Push(r.value);
      }
    }

    /** `extractFillInHTML`: А, Б and В, each looked for on its own. */
    method ExtractFillInHtml(html: String)
      requires Valid()
      modifies this
      ensures Valid() && questions == old(questions) + FillUpTo(html, FillInLetters)
    {
      ghost var base := questions;
      var letters := FillInLetters;
      var k := 0;
      while k < |letters|
        invariant k <= |letters| && Valid()
        invariant questions == base + FillUpTo(html, letters[..k])
      {
        VisitLetter(html, letters[k]);
        FillUpToStep(html, letters, k);
        AppendAssoc(base, FillUpTo(html, letters[..k]), ToSeq(FillRecord(html, letters[k])));
        k := k + 1;
      }
      assert letters[..k] == letters;
    }

    /** The extraction half of `extractAndUpload`. */
    method ExtractQuestions(html: String)
      requires Valid()
      modifies this
      ensures Valid() && multipleChoiceCount + fillInCount == |questions|
      ensures questions == old(questions) + McUpTo(html, 40) + FillUpTo(html, FillInLetters)
    {
      ExtractMultipleChoiceHtml(html);
      ExtractFillInHtml(html);
      CountsAddUp(questions);
    }
  }
}
