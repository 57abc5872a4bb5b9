/**
 * `SimpleHTMLExtractor` (simple_html_extractor.js): tags and entities become
 * spaces, the text is split on single spaces, and a question `N.` with
 * 1 <= N <= 36 collects the words after it inside a look-ahead window of
 * 99 words; Latin `A.`–`E.` tokens switch it to collecting options. The
 * fill-in section is only located: each `2.1.`/`2.2.`/`2.3.` occurrence yields
 * a placeholder record.
 */
module SimpleHtmlExtractor {
  import opened Wrappers
  import opened JsText
  import opened HtmlText
  import opened WordSegments
  import opened Points

  /** `/^[A-E]\.$/` */
  predicate IsLatinOptionMarker(w: String) { |w| == 2 && 'A' <= w[0] <= 'E' && w[1] == '.' }

  /** The tokens that stop both look-ahead loops. */
  predicate Stops(w: String) { IsNumberToken(w) || IsLatinOptionMarker(w) }

  function Min(a: nat, b: nat): nat { if a <= b then a else b }

  /** Where the words of a run starting at `k` stop: at a stopping token or at `limit`. */
  function RunEnd(words: seq<String>, k: nat, limit: nat): (e: nat)
    requires k <= limit <= |words|
    ensures k <= e <= limit
    ensures e < limit ==> Stops(words[e])
    ensures forall m :: k <= m < e ==> !Stops(words[m])
    decreases limit - k
  {
    if k == limit || Stops(words[k]) then k else RunEnd(words, k + 1, limit)
  }

  /** `collectOptionText(words, p)`: the words after `p`, at most 19, up to the next stopping token, trimmed. */
  function OptionTextAt(words: seq<String>, p: nat): String
    requires p < |words|
  {
    Trim(Spaced(words[p + 1..RunEnd(words, p + 1, Min(p + 20, |words|))]))
  }

  /** A non-empty option text has a first word right after its letter, and that word does not stop. */
  lemma OptionTextNonEmpty(words: seq<String>, p: nat)
    requires p < |words|
    ensures |OptionTextAt(words, p)| > 0 ==> p + 1 < |words| && !Stops(words[p + 1])
  {
    if RunEnd(words, p + 1, Min(p + 20, |words|)) == p + 1 {
      assert words[p + 1..p + 1] == [];
    }
  }

  /** The `for` loop of `collectOptionText`. */
  method CollectOptionText(words: seq<String>, p: nat) returns (t: String)
    requires p < |words|
    ensures t == OptionTextAt(words, p)
  {
    var limit := Min(p + 20, |words|);
    var optionText: String := [];
    var i := p + 1;
    while i < limit && !Stops(words[i])
      invariant p + 1 <= i <= limit
      invariant RunEnd(words, i, limit) == RunEnd(words, p + 1, limit)
      invariant optionText == Spaced(words[p + 1..i])
      decreases limit - i
    {
      assert words[p + 1..i + 1][..i - p - 1] == words[p + 1..i];
      optionText := optionText + words[i] + " ";
      i := i + 1;
    }
    t := Trim(optionText);
  }

  /** `currentMode`. */
  datatype Mode = InQuestion | InOptions

  /** The variables of the look-ahead loop, and whether it has stopped. */
  datatype ScanState = ScanState(mode: Mode, text: String, options: seq<Choice>, done: bool)

  /** What `collectQuestionFromWords` returns: the trimmed text and the options. */
  datatype Collected = Collected(text: String, options: seq<Choice>)

  const Start := ScanState(InQuestion, [], [], false)

  /**
   * One turn of the look-ahead loop at word `i`. A number token stops it; an
   * option letter switches to options and `continue`s, so the five-option
   * check only runs after a word that is neither.
   */
  function Step(words: seq<String>, i: nat, st: ScanState): ScanState
    requires i < |words|
  {
    var w := words[i];
    if IsNumberToken(w) then st.(done := true)
    else if IsLatinOptionMarker(w) then
      var t := OptionTextAt(words, i);
      st.(mode := InOptions, options := if |t| > 0 then st.options + [Choice(w[0], t)] else st.options)
    else
      st.(text := if st.mode == InQuestion then st.text + w + " " else st.text, done := |st.options| >= 5)
  }

  /** The loop from word `i` up to `limit`. */
  function Scan(words: seq<String>, i: nat, limit: nat, st: ScanState): ScanState
    requires i <= limit <= |words|
    decreases limit - i
  {
    if i == limit || st.done then st else Scan(words, i + 1, limit, Step(words, i, st))
  }

  /** `collectQuestionFromWords(words, s, …)`: the window is the 99 words after `s`. */
  function Collect(words: seq<String>, s: nat): Collected
    requires s < |words|
  {
    var st := Scan(words, s + 1, Min(s + 100, |words|), Start);
    Collected(Trim(st.text), st.options)
  }

  /** The loop from `i` takes one step and goes on from `i + 1`. */
  lemma ScanStep(words: seq<String>, i: nat, limit: nat, st: ScanState)
    requires i < limit <= |words| && !st.done
    ensures Scan(words, i, limit, st) == Scan(words, i + 1, limit, Step(words, i, st))
  {
  }

  /**
   * The body of the loop of `collectQuestionFromWords` at word `i`: `stop`
   * tells whether it `break`s.
   */
  method VisitWord(words: seq<String>, i: nat, mode: Mode, questionText: String, options: seq<Choice>)
    returns (mode': Mode, questionText': String, options': seq<Choice>, stop: bool)
    requires i < |words|
    ensures ScanState(mode', questionText', options', stop) == Step(words, i, ScanState(mode, questionText, options, false))
  {
    mode', questionText', options', stop := mode, questionText, options, false;
    var word := words[i];
    if IsNumberToken(word) {
      stop := true;
      return;
    }
    if IsLatinOptionMarker(word) {
      mode' := InOptions;
      var optionText := CollectOptionText(words, i);
      if JsLength(optionText) > 0 {
        options' := options + [Choice(word[0], optionText)];
      }
      return;
    }
    if mode == InQuestion {
      questionText' := questionText + word + " ";
    }
    if |options| >= 5 {
      stop := true;
    }
  }

  /** The loop of `collectQuestionFromWords`. */
  method CollectQuestionFromWords(words: seq<String>, s: nat) returns (c: Collected)
    requires s < |words|
    ensures c == Collect(words, s)
  {
    var limit := Min(s + 100, |words|);
    var questionText: String := [];
    var options: seq<Choice> := [];
    var mode := InQuestion;
    var i := s + 1;
    while i < limit
      invariant s + 1 <= i <= limit
      invariant Scan(words, i, limit, ScanState(mode, questionText, options, false)) == Scan(words, s + 1, limit, Start)
      decreases limit - i
    {
      ScanStep(words, i, limit, ScanState(mode, questionText, options, false));
      var stop;
      mode, questionText, options, stop := VisitWord(words, i, mode, questionText, options);
      if stop {
        break;
      }
      i := i + 1;
    }
    c := Collected(Trim(questionText), options);
  }

  // ---------------------------------------------------------------------
  // What the look-ahead collects

  /** Between the fifth option and a further option letter there is always a word that stops the loop. */
  predicate RoomForOptions(words: seq<String>, i: nat, limit: nat, options: seq<Choice>)
    requires i <= limit <= |words|
  {
    |options| < 5 || (|options| == 5 && (i == limit || !Stops(words[i])))
  }

  predicate GoodOptions(options: seq<Choice>) {
    forall c :: c in options ==> 'A' <= c.letter <= 'E' && |c.text| > 0
  }

  /**
   * At most five options are collected, each with a letter from A to E and a
   * non-empty text, even though an option letter skips the five-option check.
   */
  lemma {:induction false} ScanOptions(words: seq<String>, i: nat, limit: nat, st: ScanState)
    requires i <= limit <= |words|
    requires |st.options| <= 5 && (st.done || RoomForOptions(words, i, limit, st.options))
    requires GoodOptions(st.options)
    ensures |Scan(words, i, limit, st).options| <= 5 && GoodOptions(Scan(words, i, limit, st).options)
    decreases limit - i
  {
    if i < limit && !st.done {
      var st' := Step(words, i, st);
      if IsLatinOptionMarker(words[i]) {
        OptionTextNonEmpty(words, i);
        assert forall c :: c in st'.options ==> c in st.options || c == Choice(words[i][0], OptionTextAt(words, i));
      }
      ScanOptions(words, i + 1, limit, st');
    }
  }

  /** Once an option letter has been seen, the question text no longer grows. */
  lemma {:induction false} ScanAfterOptions(words: seq<String>, i: nat, limit: nat, st: ScanState)
    requires i <= limit <= |words| && st.mode == InOptions
    ensures Scan(words, i, limit, st).text == st.text
    decreases limit - i
  {
    if i < limit && !st.done {
      ScanAfterOptions(words, i + 1, limit, Step(words, i, st));
    }
  }

  /**
   * The question text is exactly the words from `i` up to the first number
   * token, option letter or the end of the window.
   */
  lemma {:induction false} ScanQuestionText(words: seq<String>, i: nat, limit: nat, text: String)
    requires i <= limit <= |words|
    ensures Scan(words, i, limit, ScanState(InQuestion, text, [], false)).text == text + Spaced(words[i..RunEnd(words, i, limit)])
    decreases limit - i
  {
    if i == limit || Stops(words[i]) {
      ScanQuestionTextStops(words, i, limit, text);
    } else {
      var e := RunEnd(words, i, limit);
      var st := ScanState(InQuestion, text, [], false);
      assert Step(words, i, st) == ScanState(InQuestion, text + words[i] + " ", [], false);
      ScanQuestionText(words, i + 1, limit, text + words[i] + " ");
      SpacedStep(words, i, e, text);
    }
  }

  /** At a stopping word the question text is complete. */
  lemma ScanQuestionTextStops(words: seq<String>, i: nat, limit: nat, text: String)
    requires i <= limit <= |words| && (i == limit || Stops(words[i]))
    ensures Scan(words, i, limit, ScanState(InQuestion, text, [], false)).text == text + Spaced(words[i..RunEnd(words, i, limit)])
  {
    var st := ScanState(InQuestion, text, [], false);
    assert words[i..RunEnd(words, i, limit)] == [];
    assert text + [] == text;
    if i < limit {
      if IsNumberToken(words[i]) {
        assert Scan(words, i + 1, limit, Step(words, i, st)) == Step(words, i, st);
      } else {
        ScanAfterOptions(words, i + 1, limit, Step(words, i, st));
      }
    }
  }

  lemma SpacedStep(words: seq<String>, i: nat, e: nat, text: String)
    requires i < e <= |words|
    ensures text + words[i] + " " + Spaced(words[i + 1..e]) == text + Spaced(words[i..e])
  {
    SpacedFront(words[i..e]);
    assert words[i..e][1..] == words[i + 1..e];
  }

  /** From the initial state, the question text is the words up to the first stopping token. */
  lemma ScanFromStart(words: seq<String>, i: nat, limit: nat)
    requires i <= limit <= |words|
    ensures Scan(words, i, limit, Start).text == Spaced(words[i..RunEnd(words, i, limit)])
  {
    ScanQuestionText(words, i, limit, []);
    assert [] + Spaced(words[i..RunEnd(words, i, limit)]) == Spaced(words[i..RunEnd(words, i, limit)]);
  }

  lemma ScanOptionsFromStart(words: seq<String>, i: nat, limit: nat)
    requires i <= limit <= |words|
    ensures |Scan(words, i, limit, Start).options| <= 5 && GoodOptions(Scan(words, i, limit, Start).options)
  {
    ScanOptions(words, i, limit, Start);
  }

  /** What `collectQuestionFromWords` returns, in terms of its input. */
  lemma CollectShape(words: seq<String>, s: nat)
    requires s < |words|
    ensures Collect(words, s).text == Trim(Spaced(words[s + 1..RunEnd(words, s + 1, Min(s + 100, |words|))]))
    ensures |Collect(words, s).options| <= 5 && GoodOptions(Collect(words, s).options)
  {
    CollectText(words, s);
    CollectOptions(words, s);
  }

  lemma CollectText(words: seq<String>, s: nat)
    requires s < |words|
    ensures Collect(words, s).text == Trim(Spaced(words[s + 1..RunEnd(words, s + 1, Min(s + 100, |words|))]))
  {
    ScanFromStart(words, s + 1, Min(s + 100, |words|));
  }

  lemma CollectOptions(words: seq<String>, s: nat)
    requires s < |words|
    ensures |Collect(words, s).options| <= 5 && GoodOptions(Collect(words, s).options)
  {
    ScanOptionsFromStart(words, s + 1, Min(s + 100, |words|));
  }

  // ---------------------------------------------------------------------
  // Records

  /** One of the three placeholder parts of a fill-in record. */
  datatype PlaceholderPart = PlaceholderPart(number: nat, text: String, points: nat)

  /** A record pushed onto `this.questions`. */
  datatype Record =
    | MultipleChoice(number: nat, text: String, options: seq<Choice>, points: nat, section: nat)
    | FillInPlaceholder(sub: char, text: String, parts: seq<PlaceholderPart>, points: nat, section: nat)

  /** The record's `id`: `mc_N` or `fill_2_D`. */
  function RecordId(r: Record): String {
    match r
    case MultipleChoice(n, _, _, _, _) => "mc_" + NatToString(n)
    case FillInPlaceholder(d, _, _, _, _) => "fill_2_" + [d]
  }

  /** The record pushed for index `i` of `extractMultipleChoiceWithRegex`, if any. */
  function McAt(words: seq<String>, i: nat): (r: Option<Record>)
    requires i < |words|
    ensures r.Some? ==> r.value.MultipleChoice?
  {
    var w := Trim(words[i]);
    if IsNumberToken(w) && 1 <= NumberTokenValue(w) <= 36 then
      var c := Collect(words, i);
      if JsLength(c.text) > 5 then Some(Record.MultipleChoice(NumberTokenValue(w), c.text, c.options, TablePoints(NumberTokenValue(w)), 1))
      else None
    else None
  }

  /** The records pushed while the loop visits indices `0 .. i-1`. */
  function RegexMcUpTo(words: seq<String>, i: nat): seq<Record>
    requires i <= |words|
  {
    if i == 0 then [] else RegexMcUpTo(words, i - 1) + ToSeq(McAt(words, i - 1))
  }

  /** A pushed multiple-choice record. */
  predicate SimpleMcShaped(r: Record) {
    && r.MultipleChoice? && 1 <= r.number <= 36 && r.points == TablePoints(r.number) && r.section == 1
    && JsLength(r.text) > 5 && |r.options| <= 5 && GoodOptions(r.options)
  }

  /** Each pushed record has a number from 1 to 36, the 1/2/3 points of its number and at most five options. */
  lemma McAtShape(words: seq<String>, i: nat)
    requires i < |words|
    ensures McAt(words, i).Some? ==> SimpleMcShaped(McAt(words, i).value)
  {
    CollectShape(words, i);
  }

  lemma RegexMcUpToStep(words: seq<String>, i: nat)
    requires i < |words|
    ensures RegexMcUpTo(words, i + 1) == RegexMcUpTo(words, i) + ToSeq(McAt(words, i))
  {
  }

  lemma {:induction false} RegexMcUpToShape(words: seq<String>, i: nat)
    requires i <= |words|
    ensures forall r :: r in RegexMcUpTo(words, i) ==> SimpleMcShaped(r)
  {
    if i > 0 {
      RegexMcUpToShape(words, i - 1);
      McAtShape(words, i - 1);
      var prev := RegexMcUpTo(words, i - 1);
      var r := McAt(words, i - 1);
      assert RegexMcUpTo(words, i) == prev + ToSeq(r);
      forall q | q in prev + ToSeq(r)
        ensures SimpleMcShaped(q)
      {
        if q !in prev {
          assert r == Some(q);
        }
      }
    }
  }

  // ---------------------------------------------------------------------
  // `text.match(/2\.([123])\./g)`

  /** `2.D.` with D in 1..3 at `p`. */
  predicate FillMarkerAt(s: String, p: nat) {
    p + 4 <= |s| && s[p] == '2' && s[p + 1] == '.' && '1' <= s[p + 2] <= '3' && s[p + 3] == '.'
  }

  /** The digit of every match, left to right, matches not overlapping. */
  function FillSubs(s: String, from: nat): (r: seq<char>)
    requires from <= |s|
    ensures forall d :: d in r ==> '1' <= d <= '3'
    decreases |s| - from
  {
    if from == |s| then []
    else if FillMarkerAt(s, from) then [s[from + 2]] + FillSubs(s, from + 4)
    else FillSubs(s, from + 1)
  }

  const PartTexts: seq<String> := ["[Эхний хэсэг]", "[Хоёрдугаар хэсэг]", "[Гуравдугаар хэсэг]"]

  /** The record pushed for the match with digit `d`. */
  function Placeholder(d: char): Record {
    FillInPlaceholder(
      d,
      "[Нөхөх асуулт 2." + [d] + " - HTML-аас бодит текст салгах шаардлагатай]",
      [PlaceholderPart(1, PartTexts[0], 3), PlaceholderPart(2, PartTexts[1], 2), PlaceholderPart(3, PartTexts[2], 2)],
      7,
      2)
  }

  function PartPoints(parts: seq<PlaceholderPart>): nat {
    if parts == [] then 0 else parts[0].points + PartPoints(parts[1..])
  }

  /** A placeholder's parts are worth 3 + 2 + 2, exactly its total of 7. */
  lemma PlaceholderPointsAddUp(d: char)
    ensures PartPoints(Placeholder(d).parts) == Placeholder(d).points == 7
  {
    var parts := Placeholder(d).parts;
    assert PartPoints(parts[1..][1..][1..]) == 0;
    assert PartPoints(parts[1..][1..]) == 2;
    assert PartPoints(parts[1..]) == 4;
  }

  function Placeholders(ds: seq<char>): (r: seq<Record>)
    ensures |r| == |ds|
    ensures forall k :: 0 <= k < |ds| ==> r[k] == Placeholder(ds[k])
  {
    if ds == [] then [] else [Placeholder(ds[0])] + Placeholders(ds[1..])
  }

  lemma PlaceholdersAppend(ds: seq<char>, d: char)
    ensures Placeholders(ds + [d]) == Placeholders(ds) + [Placeholder(d)]
  {
  }

  // ---------------------------------------------------------------------
  // The normalised text

  /** The three replacements at the head of `extractWithRegex`. */
  function RegexText(html: String): (r: String)
    ensures Collapsed(r) && NoOuterSpace(r)
  {
    Normalize(ReplaceEntities(ReplaceTags(html, " ", true)))
  }

  /** Text with neither `<` nor `&` is only normalised. */
  lemma RegexTextOfPlainText(html: String)
    requires '<' !in html && '&' !in html
    ensures RegexText(html) == Normalize(html)
  {
    ReplaceTagsKeeps(html, " ", true);
    ReplaceEntitiesKeeps(html);
  }

  class Extractor {
    var questions: seq<Record>

    constructor()
      ensures questions == []
    {
      questions := [];
    }

    /** One turn of the loop of `extractMultipleChoiceWithRegex`, at index `i`. */
    method VisitIndex(words: seq<String>, i: nat)
      requires i < |words|
      modifies this
      ensures questions == old(questions) + ToSeq(McAt(words, i))
    {
      var word := Trim(words[i]);
      if IsNumberToken(word) {
        var n := NumberTokenValue(word);
        if 1 <= n <= 36 {
          var data := CollectQuestionFromWords(words, i);
          if JsLength(data.text) > 5 {
            questions := questions + [Record.MultipleChoice(n, data.text, data.options, TablePoints(n), 1)];
          }
        }
      }
    }

    /** `extractMultipleChoiceWithRegex`. */
    method ExtractMultipleChoice(text: String)
      modifies this
      ensures questions == old(questions) + RegexMcUpTo(Split(text, ' '), |Split(text, ' ')|)
    {
      var words := Split(text, ' ');
      var i := 0;
      while i < |words|
        invariant i <= |words|
        invariant questions == old(questions) + RegexMcUpTo(words, i)
      {
        VisitIndex(words, i);
        RegexMcUpToStep(words, i);
        i := i + 1;
      }
    }

    /** `extractFillInWithRegex`: one placeholder per match, in order. */
    method ExtractFillIn(text: String)
      modifies this
      ensures questions == old(questions) + Placeholders(FillSubs(text, 0))
    {
      var subs := FillSubs(text, 0);
      ghost var base := questions;
      var k := 0;
      while k < |subs|
        invariant k <= |subs|
        invariant questions == base + Placeholders(subs[..k])
      {
        PlaceholdersAppend(subs[..k], subs[k]);
        assert subs[..k + 1] == subs[..k] + [subs[k]];
        AppendAssoc(base, Placeholders(subs[..k]), [Placeholder(subs[k])]);
        questions := questions + [Placeholder(subs[k])];
        k := k + 1;
      }
      assert subs[..k] == subs;
    }

    /** `extractWithRegex`: normalise, then the two scans. */
    method ExtractWithRegex(html: String)
      modifies this
      ensures var text := RegexText(html); var words := Split(text, ' ');
        questions == old(questions) + RegexMcUpTo(words, |words|) + Placeholders(FillSubs(text, 0))
    {
      var text := RegexText(html);
      ExtractMultipleChoice(text);
      ExtractFillIn(text);
    }
  }
}
