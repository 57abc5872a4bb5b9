/**
 * `HTMLToFirebaseExtractor` (html_to_firebase.js): the page's text is split
 * into whitespace-free chunks; a chunk `N.` with 1 <= N <= 36 opens a
 * multiple-choice record, a chunk `2.N.text` a fill-in record whose parts are
 * the `(k) text` chunks of the next fifteen, each worth 2 points unless its
 * text says `(p оноо)`.
 */
module HtmlToFirebase {
  import opened Wrappers
  import opened JsText
  import WordSegments
  import opened Points

  // ---------------------------------------------------------------------
  // `splitIntoChunks`

  /** `text.split(/\s+/).filter(chunk => chunk && chunk.length > 0).map(chunk => chunk.trim())` */
  function SplitIntoChunks(text: String): seq<String>
  {
    TrimAll(NonEmpty(SplitOnSpaceRuns(text)))
  }

  lemma NoSpaceTrimmed(w: String)
    requires NoSpace(w)
    ensures Trim(w) == w
  {
    TrimKeeps(w);
  }

  /** Every chunk is a non-empty word without whitespace; the final `trim` changes none of them. */
  lemma ChunksAreWords(text: String)
    ensures forall i :: 0 <= i < |SplitIntoChunks(text)| ==>
      |SplitIntoChunks(text)[i]| > 0 && NoSpace(SplitIntoChunks(text)[i])
    ensures SplitIntoChunks(text) == NonEmpty(SplitOnSpaceRuns(text))
  {
    var ws := SplitOnSpaceRuns(text);
    var kept := NonEmpty(ws);
    forall i | 0 <= i < |kept|
      ensures NoSpace(kept[i]) && Trim(kept[i]) == kept[i]
    {
      assert kept[i] in kept;
      var j :| 0 <= j < |ws| && ws[j] == kept[i];
      NoSpaceTrimmed(kept[i]);
    }
    assert TrimAll(kept) == kept;
  }

  // ---------------------------------------------------------------------
  // Records

  type Choice = WordSegments.Choice

  /** What the multiple-choice scan expects back from its text collector. */
  datatype QuestionData = QuestionData(questionText: String, options: seq<Choice>)

  /**
   * `collectQuestionText(chunks, i, n)`: the class calls it, but it defines
   * no such method, so the model takes it as a parameter.
   */
  type Collector = (seq<String>, nat, nat) -> QuestionData

  /** A numbered part of a fill-in record. */
  datatype FillPart = FillPart(number: nat, text: String, points: nat)

  /** A record pushed onto `this.questions`. */
  datatype Record =
    | MultipleChoice(number: nat, text: String, options: seq<Choice>, points: nat, section: nat)
    | FillIn(sub: nat, text: String, parts: seq<FillPart>, points: nat, section: nat)

  /** The record's `id`: `mc_N` or `fill_2_N`. */
  function RecordId(r: Record): String {
    match r
    case MultipleChoice(n, _, _, _, _) => "mc_" + NatToString(n)
    case FillIn(n, _, _, _, _) => "fill_2_" + NatToString(n)
  }

  // ---------------------------------------------------------------------
  // `extractMultipleChoiceQuestions`

  /** The record pushed for chunk `i`, if any. */
  function McAt(chunks: seq<String>, i: nat, collect: Collector): (r: Option<Record>)
    requires i < |chunks|
    ensures r.Some? ==> r.value.MultipleChoice?
  {
    var chunk := chunks[i];
    if IsNumberToken(chunk) && 1 <= NumberTokenValue(chunk) <= 36 then
      var n := NumberTokenValue(chunk);
      var data := collect(chunks, i, n);
      if JsLength(data.questionText) > 10 then Some(MultipleChoice(n, data.questionText, data.options, TablePoints(n), 1))
      else None
    else None
  }

  /** The records pushed while the loop visits chunks `0 .. i-1`. */
  function McUpTo(chunks: seq<String>, i: nat, collect: Collector): seq<Record>
    requires i <= |chunks|
  {
    if i == 0 then [] else McUpTo(chunks, i - 1, collect) + ToSeq(McAt(chunks, i - 1, collect))
  }

  lemma McUpToStep(chunks: seq<String>, i: nat, collect: Collector)
    requires i < |chunks|
    ensures McUpTo(chunks, i + 1, collect) == McUpTo(chunks, i, collect) + ToSeq(McAt(chunks, i, collect))
  {
  }

  /** A pushed multiple-choice record: number 1..36, the 1/2/3 points of its number, text longer than ten. */
  predicate McShaped(r: Record) {
    r.MultipleChoice? && 1 <= r.number <= 36 && r.points == TablePoints(r.number) && r.section == 1
    && JsLength(r.text) > 10
  }

  /** Each record comes from a chunk `N.` and carries that N. */
  lemma McAtShape(chunks: seq<String>, i: nat, collect: Collector)
    requires i < |chunks|
    ensures McAt(chunks, i, collect).Some? ==>
      IsNumberToken(chunks[i]) && McAt(chunks, i, collect).value.number == NumberTokenValue(chunks[i])
      && McShaped(McAt(chunks, i, collect).value)
  {
  }

  lemma {:induction false} McUpToShape(chunks: seq<String>, i: nat, collect: Collector)
    requires i <= |chunks|
    ensures forall r :: r in McUpTo(chunks, i, collect) ==> McShaped(r)
    ensures |McUpTo(chunks, i, collect)| <= i
  {
    if i > 0 {
      McUpToShape(chunks, i - 1, collect);
      McAtShape(chunks, i - 1, collect);
      var prev := McUpTo(chunks, i - 1, collect);
      var r := McAt(chunks, i - 1, collect);
      assert McUpTo(chunks, i, collect) == prev + ToSeq(r);
      forall q | q in prev + ToSeq(r)
        ensures McShaped(q)
      {
        if q !in prev {
          assert r == Some(q);
        }
      }
    }
  }

  // ---------------------------------------------------------------------
  // `extractOptions`

  /** `/^\d+\./` */
  predicate StartsWithNumber(line: String) {
    var d := SkipDigits(line, 0);
    0 < d < |line| && line[d] == '.'
  }

  /** The class `[.)\s]`. */
  predicate IsOptionGap(c: char) { c == '.' || c == ')' || IsSpace(c) }

  /** End of the greedy `[.)\s]*` run that starts at `i`. */
  function SkipOptionGap(s: String, i: nat): (j: nat)
    requires i <= |s|
    ensures i <= j <= |s|
    ensures forall k :: i <= k < j ==> IsOptionGap(s[k])
    ensures j == |s| || !IsOptionGap(s[j])
    decreases |s| - i
  {
    if i < |s| && IsOptionGap(s[i]) then SkipOptionGap(s, i + 1) else i
  }

  /** The trimmed capture of `new RegExp('^' + letter + '[.)\\s]+(.+)', 'i')` on `line`. */
  function OptionCapture(line: String, letter: char): Option<String>
  {
    if |line| == 0 || !SameLetter(line[0], letter) then None
    else
      var w := SkipOptionGap(line, 1);
      if w < 2 then None
      else match DotPlusStart(line, 2, w)
        case None => None
        case Some(c) => Some(Trim(line[c..LineEnd(line, c)]))
  }

  const OptionLetters: String := "ABCDE"

  /** The inner `for … of optionLetters` loop: the first letter whose pattern matches, with its text. */
  function LineOption(line: String, letters: String): (r: Option<Choice>)
    ensures r.Some? ==> r.value.letter in letters && OptionCapture(line, r.value.letter) == Some(r.value.text)
    ensures r.None? ==> forall l :: l in letters ==> OptionCapture(line, l).None?
  {
    if letters == [] then None
    else match OptionCapture(line, letters[0])
      case Some(t) => Some(WordSegments.Choice(letters[0], t))
      case None => LineOption(line, letters[1..])
  }

  /** The outer loop of `extractOptions` from line `i`, with the options found so far. */
  function OptionsFrom(lines: seq<String>, i: nat, limit: nat, options: seq<Choice>): seq<Choice>
    requires i <= limit <= |lines|
    decreases limit - i
  {
    if i == limit then options
    else
      var options' := options + ToSeq(LineOption(lines[i], OptionLetters));
      if |options'| >= 5 || StartsWithNumber(lines[i]) then options'
      else OptionsFrom(lines, i + 1, limit, options')
  }

  /** `extractOptions(lines, startIndex)`: ten lines at most. */
  function ExtractOptionsSpec(lines: seq<String>, start: nat): seq<Choice>
  {
    if start <= |lines| then OptionsFrom(lines, start, Min(start + 10, |lines|), []) else []
  }

  function Min(a: nat, b: nat): nat { if a <= b then a else b }

  /**
   * At most one option per line examined and never more than five, each
   * with a letter from A to E and a trimmed text.
   */
  lemma {:induction false} OptionsFromBounds(lines: seq<String>, i: nat, limit: nat, options: seq<Choice>)
    requires i <= limit <= |lines| && |options| < 5
    requires forall c :: c in options ==> c.letter in OptionLetters && NoOuterSpace(c.text)
    ensures var r := OptionsFrom(lines, i, limit, options);
      |r| <= 5 && |r| <= |options| + (limit - i)
      && forall c :: c in r ==> c.letter in OptionLetters && NoOuterSpace(c.text)
    decreases limit - i
  {
    if i < limit {
      var found := LineOption(lines[i], OptionLetters);
      var options' := options + ToSeq(found);
      forall c | c in options'
        ensures c.letter in OptionLetters && NoOuterSpace(c.text)
      {
        if c !in options {
          assert found == Some(c);
          OptionCaptureTrimmed(lines[i], c.letter);
        }
      }
      if !(|options'| >= 5 || StartsWithNumber(lines[i])) {
        OptionsFromBounds(lines, i + 1, limit, options');
      }
    }
  }

  lemma OptionCaptureTrimmed(line: String, letter: char)
    ensures OptionCapture(line, letter).Some? ==> NoOuterSpace(OptionCapture(line, letter).value)
  {
  }

  lemma ExtractOptionsBounds(lines: seq<String>, start: nat)
    ensures |ExtractOptionsSpec(lines, start)| <= 5
    ensures start <= |lines| ==> |ExtractOptionsSpec(lines, start)| <= Min(start + 10, |lines|) - start
    ensures forall c :: c in ExtractOptionsSpec(lines, start) ==> c.letter in OptionLetters && NoOuterSpace(c.text)
  {
    if start <= |lines| {
      OptionsFromBounds(lines, start, Min(start + 10, |lines|), []);
    }
  }

  /** A line starting with `N.` ends the scan, after it has been searched for an option itself. */
  lemma OptionsStopAtNumber(lines: seq<String>, i: nat, limit: nat, options: seq<Choice>)
    requires i < limit <= |lines| && StartsWithNumber(lines[i])
    ensures OptionsFrom(lines, i, limit, options) == options + ToSeq(LineOption(lines[i], OptionLetters))
  {
  }

  /** The `for … of optionLetters` loop with its `break`. */
  method MatchOptionLine(line: String) returns (found: Option<Choice>)
    ensures found == LineOption(line, OptionLetters)
  {
    var letters := OptionLetters;
    var k := 0;
    found := None;
    while k < |letters|
      invariant k <= |letters|
      invariant LineOption(line, letters[k..]) == LineOption(line, letters)
    {
      var m := OptionCapture(line, letters[k]);
      if m.Some? {
        found := Some(WordSegments.Choice(letters[k], m.value));
        return;
      }
      assert letters[k..][1..] == letters[k + 1..];
      k := k + 1;
    }
  }

  /** `extractOptions`. */
  method ExtractOptions(lines: seq<String>, start: nat) returns (options: seq<Choice>)
    ensures options == ExtractOptionsSpec(lines, start)
  {
    options := [];
    if start > |lines| {
      return;
    }
    var limit := Min(start + 10, |lines|);
    var i := start;
    while i < limit
      invariant start <= i <= limit
      invariant OptionsFrom(lines, i, limit, options) == OptionsFrom(lines, start, limit, [])
      decreases limit - i
    {
      var line := lines[i];
      var found := MatchOptionLine(line);
      ghost var before := options;
      options := options + ToSeq(found);
      assert OptionsFrom(lines, i, limit, before)
        == if |options| >= 5 || StartsWithNumber(line) then options else OptionsFrom(lines, i + 1, limit, options);
      if |options| >= 5 || StartsWithNumber(line) {
        return;
      }
      i := i + 1;
    }
  }

  // ---------------------------------------------------------------------
  // `extractFillInQuestions` and `extractFillInParts`

  /** `/^2\.(\d+)\.\s*(.+)/`: the sub-number and the text. */
  function FillHeader(line: String): (r: Option<(nat, String)>)
    ensures r.Some? ==> |r.value.1| > 0
  {
    if |line| < 2 || line[0] != '2' || line[1] != '.' then None
    else
      var d := SkipDigits(line, 2);
      if d == 2 || d == |line| || line[d] != '.' then None
      else match SpacesThenRest(line, d + 1, false)
        case None => None
        case Some(t) => Some((DigitsValue(line[2..d]), t))
  }

  /** `/^\((\d+)\)\s*(.+)/`: the part number and the text. */
  function PartHeader(line: String): (r: Option<(nat, String)>)
    ensures r.Some? ==> |r.value.1| > 0
  {
    if |line| == 0 || line[0] != '(' then None
    else
      var d := SkipDigits(line, 1);
      if d == 1 || d == |line| || line[d] != ')' then None
      else match SpacesThenRest(line, d + 1, false)
        case None => None
        case Some(t) => Some((DigitsValue(line[1..d]), t))
  }

  const Onoo: String := "оноо)"

  /** `/\((\d+)\s*оноо\)/` matching at `p`: the points it states. */
  function MentionAt(s: String, p: nat): Option<nat>
    requires p <= |s|
  {
    if p == |s| || s[p] != '(' then None
    else
      var d := SkipDigits(s, p + 1);
      if d > p + 1 && OccursAt(s, Onoo, SkipSpaces(s, d)) then Some(DigitsValue(s[p + 1..d])) else None
  }

  /** The leftmost match at or after `from`. */
  function FirstMention(s: String, from: nat): Option<nat>
    requires from <= |s|
    decreases |s| - from
  {
    if MentionAt(s, from).Some? then MentionAt(s, from)
    else if from == |s| then None
    else FirstMention(s, from + 1)
  }

  /** A part's points: the first `(N оноо)` in its text, else 2. */
  function PartPoints(text: String): nat
  {
    match FirstMention(text, 0)
    case Some(n) => n
    case None => 2
  }

  /** The points are 2 exactly when the text says nothing else first. */
  lemma PartPointsMeaning(text: String, p: nat, n: nat)
    requires p <= |text| && MentionAt(text, p) == Some(n)
    requires forall q :: 0 <= q < p ==> MentionAt(text, q).None?
    ensures PartPoints(text) == n
  {
    FirstMentionLeftmost(text, 0, p);
  }

  lemma {:induction false} FirstMentionLeftmost(s: String, from: nat, p: nat)
    requires from <= p <= |s| && MentionAt(s, p).Some?
    requires forall q :: from <= q < p ==> MentionAt(s, q).None?
    ensures FirstMention(s, from) == MentionAt(s, p)
    decreases p - from
  {
    if from < p {
      assert MentionAt(s, from).None?;
      FirstMentionLeftmost(s, from + 1, p);
    }
  }

  lemma PartPointsDefault(text: String)
    requires forall p :: 0 <= p <= |text| ==> MentionAt(text, p).None?
    ensures PartPoints(text) == 2
  {
    NoMention(text, 0);
  }

  lemma {:induction false} NoMention(s: String, from: nat)
    requires from <= |s|
    requires forall p :: from <= p <= |s| ==> MentionAt(s, p).None?
    ensures FirstMention(s, from).None?
    decreases |s| - from
  {
    if from < |s| {
      NoMention(s, from + 1);
    }
  }

  /** Points other than what some `(N оноо)` states are the default 2. */
  lemma {:induction false} MentionFound(s: String, from: nat)
    requires from <= |s| && FirstMention(s, from).Some?
    ensures exists p :: from <= p <= |s| && MentionAt(s, p) == FirstMention(s, from)
    decreases |s| - from
  {
    if MentionAt(s, from).None? {
      MentionFound(s, from + 1);
    }
  }

  /** `/^2\.\d+\./` */
  predicate StartsWithSubNumber(line: String) {
    |line| >= 2 && line[0] == '2' && line[1] == '.' &&
    var d := SkipDigits(line, 2);
    2 < d < |line| && line[d] == '.'
  }

  /** The first of the two stop tests adds nothing: a line `2.N.` also starts with `2.`. */
  lemma SubNumberIsNumber(line: String)
    ensures StartsWithSubNumber(line) ==> StartsWithNumber(line)
  {
    if StartsWithSubNumber(line) {
      assert SkipDigits(line, 1) == 1;
      assert SkipDigits(line, 0) == 1;
    }
  }

  function PartOf(line: String): seq<FillPart> {
    match PartHeader(line)
    case None => []
    case Some((n, t)) => [FillPart(n, t, PartPoints(t))]
  }

  /** The loop of `extractFillInParts` from line `i`. */
  function PartsFrom(lines: seq<String>, i: nat, limit: nat): seq<FillPart>
    requires i <= limit <= |lines|
    decreases limit - i
  {
    if i == limit then []
    else if StartsWithSubNumber(lines[i]) || StartsWithNumber(lines[i]) then PartOf(lines[i])
    else PartOf(lines[i]) + PartsFrom(lines, i + 1, limit)
  }

  /** `extractFillInParts(lines, startIndex)`: fifteen lines at most. */
  function FillInParts(lines: seq<String>, start: nat): seq<FillPart>
  {
    if start <= |lines| then PartsFrom(lines, start, Min(start + 15, |lines|)) else []
  }

  /** At most one part per line examined, each with a non-empty text and the points its text states. */
  lemma {:induction false} PartsFromShape(lines: seq<String>, i: nat, limit: nat)
    requires i <= limit <= |lines|
    ensures |PartsFrom(lines, i, limit)| <= limit - i
    ensures forall p :: p in PartsFrom(lines, i, limit) ==> |p.text| > 0 && p.points == PartPoints(p.text)
    decreases limit - i
  {
    if i < limit && !(StartsWithSubNumber(lines[i]) || StartsWithNumber(lines[i])) {
      PartsFromShape(lines, i + 1, limit);
    }
  }

  lemma FillInPartsShape(lines: seq<String>, start: nat)
    ensures |FillInParts(lines, start)| <= 15
    ensures forall p :: p in FillInParts(lines, start) ==> |p.text| > 0 && p.points == PartPoints(p.text)
  {
    if start <= |lines| {
      PartsFromShape(lines, start, Min(start + 15, |lines|));
    }
  }

  /** The record pushed for line `i`, if it opens one. */
  function FillInAt(lines: seq<String>, i: nat): (r: Option<Record>)
    requires i < |lines|
  {
    match FillHeader(lines[i])
    case None => None
    case Some((n, t)) => Some(FillIn(n, t, FillInParts(lines, i + 1), 7, 2))
  }

  /** A fill-in record is worth 7 whatever its parts say, and is numbered by the digits after `2.`. */
  lemma FillInAtShape(lines: seq<String>, i: nat)
    requires i < |lines|
    ensures FillInAt(lines, i).Some? <==> FillHeader(lines[i]).Some?
    ensures FillInAt(lines, i).Some? ==>
      var r := FillInAt(lines, i).value;
      r.FillIn? && r.points == 7 && r.section == 2 && r.sub == FillHeader(lines[i]).value.0
      && |r.text| > 0 && |r.parts| <= 15
  {
    FillInPartsShape(lines, i + 1);
  }

  function FillInUpTo(lines: seq<String>, i: nat): seq<Record>
    requires i <= |lines|
  {
    if i == 0 then [] else FillInUpTo(lines, i - 1) + ToSeq(FillInAt(lines, i - 1))
  }

  /** One line of `extractFillInParts`: its part, if it is one, with the points its text states. */
  method PartFromLine(line: String) returns (ps: seq<FillPart>)
    ensures ps == PartOf(line)
  {
    ps := [];
    var header := PartHeader(line);
    if header.Some? {
      var partText := header.value.1;
      var points := 2;
      var mention := FirstMention(partText, 0);
      if mention.Some? {
        points := mention.value;
      }
      ps := [FillPart(header.value.0, partText, points)];
    }
  }

  lemma PartsFromStep(lines: seq<String>, i: nat, limit: nat)
    requires i < limit <= |lines|
    ensures PartsFrom(lines, i, limit) == PartOf(lines[i]) +
      (if StartsWithSubNumber(lines[i]) || StartsWithNumber(lines[i]) then [] else PartsFrom(lines, i + 1, limit))
  {
  }

  lemma FillInUpToStep(lines: seq<String>, i: nat)
    requires i < |lines|
    ensures FillInUpTo(lines, i + 1) == FillInUpTo(lines, i) + ToSeq(FillInAt(lines, i))
  {
  }

  /** The loop of `extractFillInParts`. */
  method ExtractFillInParts(lines: seq<String>, start: nat) returns (parts: seq<FillPart>)
    ensures parts == FillInParts(lines, start)
  {
    parts := [];
    if start > |lines| {
      return;
    }
    var limit := Min(start + 15, |lines|);
    var i := start;
    while i < limit
      invariant start <= i <= limit
      invariant parts + PartsFrom(lines, i, limit) == PartsFrom(lines, start, limit)
      decreases limit - i
    {
      var line := lines[i];
      var p := PartFromLine(line);
      PartsFromStep(lines, i, limit);
      if StartsWithSubNumber(line) || StartsWithNumber(line) {
        assert PartsFrom(lines, i, limit) == p + [];
        parts := parts + p;
        return;
      }
      var rest := PartsFrom(lines, i + 1, limit);
      AppendAssoc(parts, p, rest);
      parts := parts + p;
      i := i + 1;
    }
  }

  /** One turn of the loop of `extractFillInQuestions`, at line `i`. */
  method FillInFromLine(lines: seq<String>, i: nat) returns (r: Option<Record>)
    requires i < |lines|
    ensures r == FillInAt(lines, i)
  {
    r := None;
    var header := FillHeader(lines[i]);
    if header.Some? {
      var parts := ExtractFillInParts(lines, i + 1);
      r := Some(Record.FillIn(header.value.0, header.value.1, parts, 7, 2));
    }
  }

  class Extractor {
    var questions: seq<Record>

    constructor()
      ensures questions == []
    {
      questions := [];
    }

    /** One turn of the loop of `extractMultipleChoiceQuestions`, at chunk `i`. */
    method VisitChunk(chunks: seq<String>, i: nat, collect: Collector)
      requires i < |chunks|
      modifies this
      ensures questions == old(questions) + ToSeq(McAt(chunks, i, collect))
    {
      var chunk := chunks[i];
      if IsNumberToken(chunk) {
        var n := NumberTokenValue(chunk);
        if 1 <= n <= 36 {
          var data := collect(chunks, i, n);
          if JsLength(data.questionText) > 10 {
            questions := questions + [Record.MultipleChoice(n, data.questionText, data.options, TablePoints(n), 1)];
          }
        }
      }
    }

    /** `extractMultipleChoiceQuestions(chunks)`. */
    method ExtractMultipleChoiceQuestions(chunks: seq<String>, collect: Collector)
      modifies this
      ensures questions == old(questions) + McUpTo(chunks, |chunks|, collect)
    {
      ghost var base := questions;
      var i := 0;
      while i < |chunks|
        invariant i <= |chunks|
        invariant questions == base + McUpTo(chunks, i, collect)
      {
        VisitChunk(chunks, i, collect);
        McUpToStep(chunks, i, collect);
        AppendAssoc(base, McUpTo(chunks, i, collect), ToSeq(McAt(chunks, i, collect)));
        i := i + 1;
      }
    }

    /** One turn of the loop of `extractFillInQuestions`, at line `i`. */
    method VisitLine(lines: seq<String>, i: nat, ghost base: seq<Record>)
      requires i < |lines| && questions == base + FillInUpTo(lines, i)
      modifies this
      ensures questions == base + FillInUpTo(lines, i + 1)
    {
      var r := FillInFromLine(lines, i);
      FillInUpToStep(lines, i);
      if r.Some? {
        questions := questions + [r.value];
      }
    }

    /** `extractFillInQuestions(lines)`. */
    method ExtractFillInQuestions(lines: seq<String>)
      modifies this
      ensures questions == old(questions) + FillInUpTo(lines, |lines|)
    {
      ghost var base := questions;
      var i := 0;
      while i < |lines|
        invariant i <= |lines|
        invariant questions == base + FillInUpTo(lines, i)
        decreases |lines| - i
      {
        VisitLine(lines, i, base);
        i := i + 1;
      }
    }

    /** The scans of `extractQuestionsFromHTML`, given the page's text. */
    method ExtractQuestionsFromText(allText: String, collect: Collector)
      modifies this
      ensures var chunks := SplitIntoChunks(allText);
        questions == old(questions) + McUpTo(chunks, |chunks|, collect) + FillInUpTo(chunks, |chunks|)
    {
      var chunks := SplitIntoChunks(allText);
      ExtractMultipleChoiceQuestions(chunks, collect);
      ExtractFillInQuestions(chunks);
    }
  }
}
