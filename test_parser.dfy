/**
 * `TestParser` of test_parser.js: the fallback section-one scan that
 * gathers a question's options one line at a time and saves the previous
 * question at each new question line and at the end; `saveQuestion`,
 * which writes into the section object; and `hasPlaceholderContent`.
 */
module TestParser {
  import opened Wrappers
  import opened JsText
  import opened LineQuestions
  import Points

  // ---------------------------------------------------------------------
  // `saveQuestion`

  /** The record `saveQuestion(section, questionNum, text, options)` stores. */
  function Saved(questionNum: String, text: String, options: map<String, String>): (c: Choice)
    ensures NoOuterSpace(c.text) && c.options == options
    ensures 1 <= c.points <= 3
  {
    Choice(Trim(text), Points.TablePoints(ParseInt(questionNum)), options)
  }

  /** The section object whose `questions` dictionary the scan fills. */
  class Section {
    var questions: map<String, Choice>

    constructor ()
      ensures questions == map[]
    {
      questions := map[];
    }

    /**
     * `saveQuestion`: the number picks 1, 2 or 3 points by the ranges
     * 1–8 / 9–28 / 29–36 (1 otherwise), the text is trimmed and the options
     * are copied; the record replaces any earlier one with the same number.
     */
    method SaveQuestion(questionNum: String, text: String, options: map<String, String>)
      modifies this
      ensures questions == old(questions)[questionNum := Saved(questionNum, text, options)]
    {
      var qNum := ParseInt(questionNum);
      var points := 1;
      if 1 <= qNum <= 8 {
        points := 1;
      } else if 9 <= qNum <= 28 {
        points := 2;
      } else if 29 <= qNum <= 36 {
        points := 3;
      }
      questions := questions[questionNum := Choice(Trim(text), points, options)];
    }
  }

  // ---------------------------------------------------------------------
  // `extractSection1Questions`

  /** The header lines the scan skips. */
  predicate IsHeader(line: String) {
    Contains(line, "Хувилбар") || Contains(line, "Элсэлтийн")
  }

  /** A question line whose number lies in 1..36. */
  function Opening(line: String): (r: Option<Opener>)
    ensures r.Some? ==> QuestionLine(line) == r && 1 <= ParseInt(r.value.key) <= 36
  {
    match QuestionLine(line)
    case None => None
    case Some(o) => if 1 <= ParseInt(o.key) <= 36 then Some(o) else None
  }

  /** `line.match(/^([ABCDE])\.\s*(.+)/)`: the letter and the text. */
  function OptionLine(line: String): (r: Option<(String, String)>)
    ensures r.Some? ==> r.value.0 in Letters && |r.value.1| > 0
  {
    if !MarkerAt(line, 0) then None
    else match SpacesThenRest(line, 2, false)
      case None => None
      case Some(t) => Some(([line[0]], t))
  }

  /** The loop's variables: the section's `questions`, `currentQuestion`, `questionText` and `options`. */
  datatype Scan = Scan(questions: map<String, Choice>, current: Option<String>, text: String, options: map<String, String>)

  /** The previous question is saved only with a non-empty text and exactly five option keys. */
  function SavePending(st: Scan): map<String, Choice> {
    if st.current.Some? && st.text != [] && |st.options| == 5 then
      st.questions[st.current.value := Saved(st.current.value, st.text, st.options)]
    else st.questions
  }

  /** One turn of the loop, on the raw line. */
  function Step(st: Scan, raw: String): Scan {
    var line := Trim(raw);
    if line == [] || IsHeader(line) then st
    else match Opening(line)
      case Some(o) => Scan(SavePending(st), Some(o.key), o.text, map[])
      case None =>
        match OptionLine(line)
        case Some(p) =>
          if st.current.Some? then st.(options := st.options[p.0 := p.1])
          else AppendLine(st, line)
        case None => AppendLine(st, line)
  }

  /** Any other non-empty line not starting with a marker extends the open question's text. */
  function AppendLine(st: Scan, line: String): Scan {
    if st.current.Some? && !MarkerAt(line, 0) && |line| > 0 then st.(text := st.text + " " + line) else st
  }

  function ScanUpTo(lines: seq<String>, n: nat, initial: map<String, Choice>): Scan
    requires n <= |lines|
  {
    if n == 0 then Scan(initial, None, [], map[]) else Step(ScanUpTo(lines, n - 1, initial), lines[n - 1])
  }

  /** The section's questions after `extractSection1Questions(markdown, section)`. */
  function Section1(markdown: String, initial: map<String, Choice>): map<String, Choice> {
    var lines := Split(markdown, '\n');
    SavePending(ScanUpTo(lines, |lines|, initial))
  }

  /** The body of the loop for one raw line; `return` plays the part of `continue`. */
  method ReadLine(section: Section, currentQuestion: Option<String>, questionText: String, options: map<String, String>, raw: String)
    returns (currentQuestion': Option<String>, questionText': String, options': map<String, String>)
    modifies section
    ensures Scan(section.questions, currentQuestion', questionText', options')
      == Step(Scan(old(section.questions), currentQuestion, questionText, options), raw)
  {
    currentQuestion', questionText', options' := currentQuestion, questionText, options;
    var line := Trim(raw);
    if line == [] || IsHeader(line) {
      return;
    }
    var qMatch := QuestionLine(line);
    if qMatch.Some? && 1 <= ParseInt(qMatch.value.key) <= 36 {
      if currentQuestion.Some? && questionText != [] && |options| == 5 {
        section.SaveQuestion(currentQuestion.value, questionText, options);
      }
      currentQuestion' := Some(qMatch.value.key);
      questionText' := qMatch.value.text;
      options' := map[];
      return;
    }
    var optMatch := OptionLine(line);
    if optMatch.Some? && currentQuestion.Some? {
      options' := options[optMatch.value.0 := optMatch.value.1];
      return;
    }
    if currentQuestion.Some? && !MarkerAt(line, 0) && |line| > 0 {
      questionText' := questionText + " " + line;
    }
  }

  /** `extractSection1Questions(markdown, section1)`. */
  method ExtractSection1Questions(markdown: String, section: Section)
    modifies section
    ensures section.questions == Section1(markdown, old(section.questions))
  {
    var lines := Split(markdown, '\n');
    var currentQuestion: Option<String> := None;
    var questionText: String := [];
    var options: map<String, String> := map[];
    var i := 0;
    while i < |lines|
      invariant i <= |lines|
      invariant ScanUpTo(lines, i, old(section.questions)) == Scan(section.questions, currentQuestion, questionText, options)
    {
      currentQuestion, questionText, options := ReadLine(section, currentQuestion, questionText, options, lines[i]);
      i := i + 1;
    }
    if currentQuestion.Some? && questionText != [] && |options| == 5 {
      section.SaveQuestion(currentQuestion.value, questionText, options);
    }
  }

  // ---------------------------------------------------------------------
  // What the scan guarantees

  /** Option keys gathered so far: single letters A–E with non-empty texts. */
  predicate LetterOptions(options: map<String, String>) {
    options.Keys <= Letters && forall l :: l in options ==> options[l] != []
  }

  /** A record saved by the scan: numbered 1..36, scored by the table, with all five option letters. */
  predicate SavedWell(key: String, c: Choice) {
    1 <= ParseInt(key) <= 36 && c.points == Points.TablePoints(ParseInt(key))
    && c.options.Keys == Letters && NoOuterSpace(c.text)
  }

  /** Each record is either untouched from the start or saved by the scan. */
  predicate KeptOrSaved(initial: map<String, Choice>, m: map<String, Choice>) {
    forall key :: key in m ==> (key in initial && m[key] == initial[key]) || SavedWell(key, m[key])
  }

  /** The invariant of the scan. */
  predicate Accounted(initial: map<String, Choice>, st: Scan) {
    KeptOrSaved(initial, st.questions) && LetterOptions(st.options)
    && (st.current.Some? ==> 1 <= ParseInt(st.current.value) <= 36)
    && (st.current.None? ==> st.options == map[])
  }

  lemma FiveLetterOptions(options: map<String, String>)
    requires LetterOptions(options) && |options| == 5
    ensures options.Keys == Letters
  {
    assert |options.Keys| == |options|;
    FiveLetters(options.Keys);
  }

  lemma SavePendingAccounted(initial: map<String, Choice>, st: Scan)
    requires Accounted(initial, st)
    ensures KeptOrSaved(initial, SavePending(st))
  {
    if st.current.Some? && st.text != [] && |st.options| == 5 {
      FiveLetterOptions(st.options);
      Points.TablesAgree(ParseInt(st.current.value));
      assert SavedWell(st.current.value, Saved(st.current.value, st.text, st.options));
    }
  }

  lemma StepAccounted(initial: map<String, Choice>, st: Scan, raw: String)
    requires Accounted(initial, st)
    ensures Accounted(initial, Step(st, raw))
  {
    var line := Trim(raw);
    if line != [] && !IsHeader(line) && Opening(line).Some? {
      SavePendingAccounted(initial, st);
    }
  }

  lemma {:induction false} ScanAccounted(lines: seq<String>, n: nat, initial: map<String, Choice>)
    requires n <= |lines|
    ensures Accounted(initial, ScanUpTo(lines, n, initial))
  {
    if n > 0 {
      ScanAccounted(lines, n - 1, initial);
      StepAccounted(initial, ScanUpTo(lines, n - 1, initial), lines[n - 1]);
    }
  }

  /**
   * After the scan, every record of the section either was there before
   * and is unchanged, or was saved by the scan: numbered 1..36, scored by
   * the table, trimmed, and with exactly the five option letters A–E.
   */
  lemma Section1Sound(markdown: String, initial: map<String, Choice>)
    ensures KeptOrSaved(initial, Section1(markdown, initial))
  {
    var lines := Split(markdown, '\n');
    ScanAccounted(lines, |lines|, initial);
    SavePendingAccounted(initial, ScanUpTo(lines, |lines|, initial));
  }

  /**
   * A question line in 1..36 saves the previous question only when its text
   * is non-empty and it has exactly five options, then opens the new
   * question with no options.
   */
  lemma OpeningSavesAndResets(st: Scan, raw: String)
    requires Trim(raw) != [] && !IsHeader(Trim(raw)) && Opening(Trim(raw)).Some?
    ensures Step(st, raw).options == map[] && Step(st, raw).current == Some(Opening(Trim(raw)).value.key)
    ensures Step(st, raw).questions != st.questions ==> st.current.Some? && st.text != [] && |st.options| == 5
  {
  }

  /** An option line sets exactly its own letter, replacing what that letter held. */
  lemma OptionLineSetsOneKey(st: Scan, raw: String)
    requires st.current.Some? && Trim(raw) != [] && !IsHeader(Trim(raw))
    requires Opening(Trim(raw)).None? && OptionLine(Trim(raw)).Some?
    ensures var p := OptionLine(Trim(raw)).value;
      Step(st, raw).options.Keys == st.options.Keys + {p.0} && Step(st, raw).options[p.0] == p.1
      && (forall l :: l in st.options && l != p.0 ==> Step(st, raw).options[l] == st.options[l])
      && Step(st, raw).questions == st.questions && Step(st, raw).text == st.text
  {
  }

  /** Any other line extends the open question's text by one space and the line. */
  lemma OtherLineExtends(st: Scan, raw: String)
    requires st.current.Some? && Trim(raw) != [] && !IsHeader(Trim(raw))
    requires Opening(Trim(raw)).None? && OptionLine(Trim(raw)).None? && !MarkerAt(Trim(raw), 0)
    ensures Step(st, raw).text == st.text + " " + Trim(raw)
    ensures Step(st, raw).questions == st.questions && Step(st, raw).options == st.options
  {
  }

  // ---------------------------------------------------------------------
  // `hasPlaceholderContent`

  /** The fixed markers of generated placeholder questions. */
  const PlaceholderMarkers: seq<String> :=
    ["[Энд бодит асуултын текст байна]", "Асуулт 1 - [", "Хариулт A - Асуулт", "Fallback асуулт"]

  /** `hasPlaceholderContent(data)`, on the serialised data `json`. */
  predicate HasPlaceholderContent(json: String) {
    Contains(json, PlaceholderMarkers[0]) || Contains(json, PlaceholderMarkers[1])
    || Contains(json, PlaceholderMarkers[2]) || Contains(json, PlaceholderMarkers[3])
  }

  lemma {:induction false} FindFindsOccurrence(s: String, t: String, from: nat, i: nat)
    requires from <= i && from <= |s| && OccursAt(s, t, i)
    ensures Find(s, t, from).Some?
    decreases |s| - from
  {
    if !OccursAt(s, t, from) && from < |s| {
      FindFindsOccurrence(s, t, from + 1, i);
    }
  }

  /** The check is true exactly when one of the four markers occurs somewhere in the serialised data. */
  lemma PlaceholderExactly(json: String)
    ensures HasPlaceholderContent(json) <==>
      exists m, i :: 0 <= m < |PlaceholderMarkers| && 0 <= i <= |json| && OccursAt(json, PlaceholderMarkers[m], i)
  {
    if HasPlaceholderContent(json) {
      var m := if Contains(json, PlaceholderMarkers[0]) then 0
        else if Contains(json, PlaceholderMarkers[1]) then 1
        else if Contains(json, PlaceholderMarkers[2]) then 2 else 3;
      var found := Find(json, PlaceholderMarkers[m], 0);
      assert found.Some?;
      assert OccursAt(json, PlaceholderMarkers[m], found.value);
    }
    if exists m, i :: 0 <= m < |PlaceholderMarkers| && 0 <= i <= |json| && OccursAt(json, PlaceholderMarkers[m], i) {
      var m, i :| 0 <= m < |PlaceholderMarkers| && 0 <= i <= |json| && OccursAt(json, PlaceholderMarkers[m], i);
      FindFindsOccurrence(json, PlaceholderMarkers[m], 0, i);
    }
  }
}
