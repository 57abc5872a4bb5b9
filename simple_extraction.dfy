/**
 * `extractQuestions` of simple_extraction.js: any line `N. text` opens a
 * question (there is no range check and no header skipping), and the next
 * `A.` line that yields all five options saves it under its number and
 * closes it. Its `parseOptionsLine` is the one in `LineQuestions`.
 */
module SimpleExtraction {
  import opened Wrappers
  import opened JsText
  import opened LineQuestions
  import Points

  /** The loop's variables: `questions`, `currentQuestion` and `questionText`. */
  datatype Scan = Scan(questions: map<String, Choice>, current: Option<String>, text: String)

  const Start: Scan := Scan(map[], None, [])

  /** The record a five-option line saves for question `key`. */
  function Record(key: String, text: String, options: map<String, String>): Choice {
    Choice(text, Points.TablePoints(ParseInt(key)), options)
  }

  /** One turn of the loop. */
  function Step(st: Scan, line: String): Scan {
    match QuestionLine(line)
    case Some(o) => Scan(st.questions, Some(o.key), o.text)
    case None =>
      if StartsWith(line, "A.") && st.current.Some? && |ParseOptions(line)| == 5 then
        Scan(st.questions[st.current.value := Record(st.current.value, st.text, ParseOptions(line))], None, st.text)
      else st
  }

  function ScanUpTo(lines: seq<String>, n: nat): Scan
    requires n <= |lines|
  {
    if n == 0 then Start else Step(ScanUpTo(lines, n - 1), lines[n - 1])
  }

  /** What `extractQuestions(content)` returns. */
  function Extracted(content: String): map<String, Choice> {
    var lines := TrimmedLines(content);
    ScanUpTo(lines, |lines|).questions
  }

  /** The body of the loop for one line; `return` plays the part of `continue`. */
  method ReadLine(questions: map<String, Choice>, currentQuestion: Option<String>, questionText: String, line: String)
    returns (questions': map<String, Choice>, currentQuestion': Option<String>, questionText': String)
    ensures Scan(questions', currentQuestion', questionText') == Step(Scan(questions, currentQuestion, questionText), line)
  {
    questions', currentQuestion', questionText' := questions, currentQuestion, questionText;
    var qMatch := QuestionLine(line);
    if qMatch.Some? {
      currentQuestion' := Some(qMatch.value.key);
      questionText' := qMatch.value.text;
      return;
    }
    if StartsWith(line, "A.") && currentQuestion.Some? {
      var options := ParseOptionsLine(line);
      if |options| == 5 {
        var qNum := ParseInt(currentQuestion.value);
        var points := 1;
        if 9 <= qNum <= 28 {
          points := 2;
        } else if 29 <= qNum <= 36 {
          points := 3;
        }
        questions' := questions[currentQuestion.value := Choice(questionText, points, options)];
        currentQuestion' := None;
      }
    }
  }

  /** The loop of `extractQuestions` over the prepared lines. */
  method ScanLines(lines: seq<String>) returns (questions: map<String, Choice>)
    ensures questions == ScanUpTo(lines, |lines|).questions
  {
    questions := map[];
    var currentQuestion: Option<String> := None;
    var questionText: String := [];
    var i := 0;
    while i < |lines|
      invariant i <= |lines| && ScanUpTo(lines, i) == Scan(questions, currentQuestion, questionText)
    {
      questions, currentQuestion, questionText := ReadLine(questions, currentQuestion, questionText, lines[i]);
      i := i + 1;
    }
  }

  /** `extractQuestions`. */
  method ExtractQuestions(content: String) returns (questions: map<String, Choice>)
    ensures questions == Extracted(content)
  {
    var lines := TrimmedLines(content);
    questions := ScanLines(lines);
  }

  // ---------------------------------------------------------------------
  // What the scan guarantees

  /** Some line among the first `n` is a question line for `key` with text `text`. */
  predicate OpenedBy(lines: seq<String>, n: nat, key: String, text: String)
    requires n <= |lines|
  {
    exists i :: 0 <= i < n && QuestionLine(lines[i]).Some? && QuestionLine(lines[i]).value.key == key
      && QuestionLine(lines[i]).value.text == text
  }

  /** A saved record: keyed by digits, scored by the table, with all five options. */
  predicate SavedWell(key: String, c: Choice) {
    |key| > 0 && AllDigits(key) && c.points == Points.TablePoints(ParseInt(key))
    && c.options.Keys == Letters && WellFormedOptions(c.options)
  }

  predicate AllSavedWell(m: map<String, Choice>) {
    forall key :: key in m ==> SavedWell(key, m[key])
  }

  predicate AllOpened(lines: seq<String>, n: nat, m: map<String, Choice>)
    requires n <= |lines|
  {
    forall key :: key in m ==> OpenedBy(lines, n, key, m[key].text)
  }

  /** The invariant of the scan after `n` lines. */
  predicate Accounted(lines: seq<String>, n: nat, st: Scan)
    requires n <= |lines|
  {
    AllSavedWell(st.questions) && AllOpened(lines, n, st.questions)
    && (st.current.Some? ==> |st.current.value| > 0 && AllDigits(st.current.value) && OpenedBy(lines, n, st.current.value, st.text))
  }

  lemma OpenedByLater(lines: seq<String>, n: nat, key: String, text: String)
    requires n < |lines| && OpenedBy(lines, n, key, text)
    ensures OpenedBy(lines, n + 1, key, text)
  {
    var i :| 0 <= i < n && QuestionLine(lines[i]).Some? && QuestionLine(lines[i]).value.key == key
      && QuestionLine(lines[i]).value.text == text;
  }

  lemma AllOpenedLater(lines: seq<String>, n: nat, m: map<String, Choice>)
    requires n < |lines| && AllOpened(lines, n, m)
    ensures AllOpened(lines, n + 1, m)
  {
    forall key | key in m
      ensures OpenedBy(lines, n + 1, key, m[key].text)
    {
      OpenedByLater(lines, n, key, m[key].text);
    }
  }

  lemma SavedRecordWell(line: String, key: String, text: String)
    requires |key| > 0 && AllDigits(key) && |ParseOptions(line)| == 5
    ensures SavedWell(key, Record(key, text, ParseOptions(line)))
  {
    ParseOptionsFive(line);
    ParseOptionsWellFormed(line);
  }

  lemma SavedUpdate(lines: seq<String>, n: nat, m: map<String, Choice>, key: String, c: Choice)
    requires n <= |lines| && AllSavedWell(m) && AllOpened(lines, n, m)
    requires SavedWell(key, c) && OpenedBy(lines, n, key, c.text)
    ensures AllSavedWell(m[key := c]) && AllOpened(lines, n, m[key := c])
  {
  }

  lemma StepAccounted(lines: seq<String>, n: nat, st: Scan)
    requires n < |lines| && Accounted(lines, n, st)
    ensures Accounted(lines, n + 1, Step(st, lines[n]))
  {
    var line := lines[n];
    AllOpenedLater(lines, n, st.questions);
    if st.current.Some? {
      OpenedByLater(lines, n, st.current.value, st.text);
    }
    if QuestionLine(line).Some? {
      var o := QuestionLine(line).value;
      assert Step(st, line) == Scan(st.questions, Some(o.key), o.text);
      assert OpenedBy(lines, n + 1, o.key, o.text);
    } else if StartsWith(line, "A.") && st.current.Some? && |ParseOptions(line)| == 5 {
      var key := st.current.value;
      SavedRecordWell(line, key, st.text);
      SavedUpdate(lines, n + 1, st.questions, key, Record(key, st.text, ParseOptions(line)));
    }
  }

  lemma ScanStep(lines: seq<String>, n: nat)
    requires n < |lines| && Accounted(lines, n, ScanUpTo(lines, n))
    ensures Accounted(lines, n + 1, ScanUpTo(lines, n + 1))
  {
    StepAccounted(lines, n, ScanUpTo(lines, n));
  }

  lemma {:induction false} ScanAccounted(lines: seq<String>, n: nat)
    requires n <= |lines|
    ensures Accounted(lines, n, ScanUpTo(lines, n))
  {
    if n > 0 {
      ScanAccounted(lines, n - 1);
      ScanStep(lines, n - 1);
    }
  }

  /**
   * Every saved record is keyed by the number of some question line (of any
   * value), carries that line's text verbatim, scores by the 1–8 / 9–28 /
   * 29–36 table and has all five options A–E.
   */
  lemma ExtractedSound(content: String)
    ensures var q := Extracted(content); var lines := TrimmedLines(content);
      forall key :: key in q ==> SavedWell(key, q[key]) && OpenedBy(lines, |lines|, key, q[key].text)
  {
    var lines := TrimmedLines(content);
    ScanAccounted(lines, |lines|);
  }

  /**
   * Any question line opens its question, whatever its number, dropping an
   * open question that was never saved.
   */
  lemma AnyNumberOpens(st: Scan, line: String)
    requires QuestionLine(line).Some?
    ensures Step(st, line).current == Some(QuestionLine(line).value.key)
    ensures Step(st, line).questions == st.questions
  {
  }

  /**
   * Only an `A.` line with exactly five options saves, under the open
   * number (replacing an earlier record with that number), and closes the
   * question; an `A.` line with fewer options leaves the question open.
   */
  lemma SavesOnlyOnFiveOptions(st: Scan, line: String)
    ensures Step(st, line).questions != st.questions ==>
      StartsWith(line, "A.") && st.current.Some? && ParseOptions(line).Keys == Letters
      && Step(st, line).current.None?
      && Step(st, line).questions.Keys == st.questions.Keys + {st.current.value}
    ensures QuestionLine(line).None? && |ParseOptions(line)| != 5 ==> Step(st, line) == st
  {
    if Step(st, line).questions != st.questions {
      ParseOptionsFive(line);
    }
  }
}
