/**
 * `FinalParser` of final_test.js: the section-one scan that opens a record
 * on a line `N. text` with N in 1..36 and saves it when the next `A.` line
 * yields all five options, and the section-two pattern that yields one
 * fixed record.
 */
module FinalTest {
  import opened Wrappers
  import opened JsText
  import opened LineQuestions
  import Points

  // ---------------------------------------------------------------------
  // `extractSection1Questions`

  /** The header lines the scan skips. */
  predicate IsHeader(line: String) {
    Contains(line, "Хувилбар") || Contains(line, "Элсэлтийн") || Contains(line, "СОНГОХ ДААЛГАВАР")
  }

  /** A non-header question line whose number lies in 1..36. */
  function Opening(line: String): (r: Option<Opener>)
    ensures r.Some? ==> QuestionLine(line) == r && !IsHeader(line) && 1 <= ParseInt(r.value.key) <= 36
  {
    if IsHeader(line) then None
    else match QuestionLine(line)
      case None => None
      case Some(o) => if 1 <= ParseInt(o.key) <= 36 then Some(o) else None
  }

  /** The loop's variables: `questions`, `currentQuestion` and `questionText`. */
  datatype Scan = Scan(questions: map<String, Choice>, current: Option<String>, text: String)

  const Start: Scan := Scan(map[], None, [])

  /** One turn of the loop. */
  function Step(st: Scan, line: String): Scan {
    if IsHeader(line) then st
    else match Opening(line)
      case Some(o) => Scan(st.questions, Some(o.key), o.text)
      case None =>
        if StartsWith(line, "A.") && st.current.Some? && |ParseOptions(line)| == 5 then
          var key := st.current.value;
          Scan(st.questions[key := Choice(st.text, Points.TablePoints(ParseInt(key)), ParseOptions(line))], None, st.text)
        else st
  }

  function ScanUpTo(lines: seq<String>, n: nat): Scan
    requires n <= |lines|
  {
    if n == 0 then Start else Step(ScanUpTo(lines, n - 1), lines[n - 1])
  }

  /** What `extractSection1Questions(content)` returns. */
  function Section1(content: String): map<String, Choice> {
    var lines := TrimmedLines(content);
    ScanUpTo(lines, |lines|).questions
  }

  /** The body of the loop for one line; `return` plays the part of `continue`. */
  method ReadLine(questions: map<String, Choice>, currentQuestion: Option<String>, questionText: String, line: String)
    returns (questions': map<String, Choice>, currentQuestion': Option<String>, questionText': String)
    ensures Scan(questions', currentQuestion', questionText') == Step(Scan(questions, currentQuestion, questionText), line)
  {
    questions', currentQuestion', questionText' := questions, currentQuestion, questionText;
    if IsHeader(line) {
      return;
    }
    var qMatch := QuestionLine(line);
    if qMatch.Some? && 1 <= ParseInt(qMatch.value.key) <= 36 {
      currentQuestion' := Some(qMatch.value.key);
      questionText' := qMatch.value.text;
      return;
    }
    if StartsWith(line, "A.") && currentQuestion.Some? {
      var options := ParseOptionsLine(line);
      if |options| == 5 {
        var qNum := ParseInt(currentQuestion.value);
        var points := 1;
        if 9 <= qNum <= 28 {
          points := 2;
        } else if 29 <= qNum <= 36 {
          points := 3;
        }
        questions' := questions[currentQuestion.value := Choice(questionText, points, options)];
        currentQuestion' := None;
      }
    }
  }

  /** `extractSection1Questions`, with its loop. */
  method ExtractSection1Questions(content: String) returns (questions: map<String, Choice>)
    ensures questions == Section1(content)
  {
    var lines := TrimmedLines(content);
    questions := ScanLines(lines);
  }

  /** The loop of `extractSection1Questions` over the prepared lines. */
  method ScanLines(lines: seq<String>) returns (questions: map<String, Choice>)
    ensures questions == ScanUpTo(lines, |lines|).questions
  {
    questions := map[];
    var currentQuestion: Option<String> := None;
    var questionText: String := [];
    var i := 0;
    while i < |lines|
      invariant i <= |lines| && ScanUpTo(lines, i) == Scan(questions, currentQuestion, questionText)
    {
      questions, currentQuestion, questionText := ReadLine(questions, currentQuestion, questionText, lines[i]);
      i := i + 1;
    }
  }

  // ---------------------------------------------------------------------
  // What the scan guarantees

  /** Line `i` (one of the first `n`) opened question `key` with text `text`. */
  predicate OpenedBy(lines: seq<String>, n: nat, key: String, text: String)
    requires n <= |lines|
  {
    exists i :: 0 <= i < n && Opening(lines[i]).Some? && Opening(lines[i]).value.key == key
      && Opening(lines[i]).value.text == text
  }

  /** A saved record: numbered 1..36, scored by the table, with all five options. */
  predicate SavedWell(key: String, c: Choice) {
    1 <= ParseInt(key) <= 36 && c.points == Points.TablePoints(ParseInt(key))
    && c.options.Keys == Letters && WellFormedOptions(c.options)
  }

  predicate AllSavedWell(m: map<String, Choice>) {
    forall key :: key in m ==> SavedWell(key, m[key])
  }

  predicate AllOpened(lines: seq<String>, n: nat, m: map<String, Choice>)
    requires n <= |lines|
  {
    forall key :: key in m ==> OpenedBy(lines, n, key, m[key].text)
  }

  /** The invariant of the scan after `n` lines. */
  predicate Accounted(lines: seq<String>, n: nat, st: Scan)
    requires n <= |lines|
  {
    AllSavedWell(st.questions) && AllOpened(lines, n, st.questions)
    && (st.current.Some? ==> 1 <= ParseInt(st.current.value) <= 36 && OpenedBy(lines, n, st.current.value, st.text))
  }

  lemma OpenedByLater(lines: seq<String>, n: nat, key: String, text: String)
    requires n < |lines| && OpenedBy(lines, n, key, text)
    ensures OpenedBy(lines, n + 1, key, text)
  {
    var i :| 0 <= i < n && Opening(lines[i]).Some? && Opening(lines[i]).value.key == key
      && Opening(lines[i]).value.text == text;
  }

  lemma AllOpenedLater(lines: seq<String>, n: nat, m: map<String, Choice>)
    requires n < |lines| && AllOpened(lines, n, m)
    ensures AllOpened(lines, n + 1, m)
  {
    forall key | key in m
      ensures OpenedBy(lines, n + 1, key, m[key].text)
    {
      OpenedByLater(lines, n, key, m[key].text);
    }
  }

  /** A line that opens a question leaves the saved records alone and opens its own. */
  lemma OpenAccounted(lines: seq<String>, n: nat, st: Scan)
    requires n < |lines| && Accounted(lines, n, st) && Opening(lines[n]).Some?
    ensures Accounted(lines, n + 1, Step(st, lines[n]))
  {
    var o := Opening(lines[n]).value;
    assert Step(st, lines[n]) == Scan(st.questions, Some(o.key), o.text);
    AllOpenedLater(lines, n, st.questions);
    assert OpenedBy(lines, n + 1, o.key, o.text);
  }

  /** The record a five-option line saves is well formed. */
  lemma SavedRecordWell(line: String, key: String, text: String)
    requires 1 <= ParseInt(key) <= 36 && |ParseOptions(line)| == 5
    ensures SavedWell(key, Choice(text, Points.TablePoints(ParseInt(key)), ParseOptions(line)))
  {
    ParseOptionsFive(line);
    ParseOptionsWellFormed(line);
  }

  lemma SavedUpdate(lines: seq<String>, n: nat, m: map<String, Choice>, key: String, c: Choice)
    requires n <= |lines| && AllSavedWell(m) && AllOpened(lines, n, m)
    requires SavedWell(key, c) && OpenedBy(lines, n, key, c.text)
    ensures AllSavedWell(m[key := c]) && AllOpened(lines, n, m[key := c])
  {
  }

  /** A line that saves stores the open question with its five options and closes it. */
  lemma SaveAccounted(lines: seq<String>, n: nat, st: Scan)
    requires n < |lines| && Accounted(lines, n, st) && Opening(lines[n]).None? && !IsHeader(lines[n])
    requires StartsWith(lines[n], "A.") && st.current.Some? && |ParseOptions(lines[n])| == 5
    ensures Accounted(lines, n + 1, Step(st, lines[n]))
  {
    var line := lines[n];
    var key := st.current.value;
    var c := Choice(st.text, Points.TablePoints(ParseInt(key)), ParseOptions(line));
    assert Step(st, line) == Scan(st.questions[key := c], None, st.text);
    SavedRecordWell(line, key, st.text);
    OpenedByLater(lines, n, key, st.text);
    AllOpenedLater(lines, n, st.questions);
    SavedUpdate(lines, n + 1, st.questions, key, c);
  }

  /** Any other line changes nothing. */
  lemma KeepAccounted(lines: seq<String>, n: nat, st: Scan)
    requires n < |lines| && Accounted(lines, n, st)
    ensures Accounted(lines, n + 1, st)
  {
    AllOpenedLater(lines, n, st.questions);
    if st.current.Some? {
      OpenedByLater(lines, n, st.current.value, st.text);
    }
  }

  lemma StepAccounted(lines: seq<String>, n: nat, st: Scan)
    requires n < |lines| && Accounted(lines, n, st)
    ensures Accounted(lines, n + 1, Step(st, lines[n]))
  {
    var line := lines[n];
    if IsHeader(line) {
      KeepAccounted(lines, n, st);
    } else if Opening(line).Some? {
      OpenAccounted(lines, n, st);
    } else if StartsWith(line, "A.") && st.current.Some? && |ParseOptions(line)| == 5 {
      SaveAccounted(lines, n, st);
    } else {
      KeepAccounted(lines, n, st);
    }
  }

  lemma ScanStep(lines: seq<String>, n: nat)
    requires n < |lines| && Accounted(lines, n, ScanUpTo(lines, n))
    ensures Accounted(lines, n + 1, ScanUpTo(lines, n + 1))
  {
    StepAccounted(lines, n, ScanUpTo(lines, n));
  }

  lemma {:induction false} ScanAccounted(lines: seq<String>, n: nat)
    requires n <= |lines|
    ensures Accounted(lines, n, ScanUpTo(lines, n))
  {
    if n > 0 {
      ScanAccounted(lines, n - 1);
      ScanStep(lines, n - 1);
    }
  }

  /**
   * Every saved record is keyed by the number of a question line in 1..36
   * that is not a header, carries that line's text verbatim (the rest of
   * the line only), scores by the 1–8 / 9–28 / 29–36 table and has all five
   * options A–E with non-empty trimmed texts.
   */
  lemma Section1Sound(content: String)
    ensures var q := Section1(content); var lines := TrimmedLines(content);
      forall key :: key in q ==> SavedWell(key, q[key]) && OpenedBy(lines, |lines|, key, q[key].text)
  {
    var lines := TrimmedLines(content);
    ScanAccounted(lines, |lines|);
  }

  /** The script's own checks: question 1 scores 1, question 9 scores 2 and question 29 scores 3. */
  lemma AssertedPoints(content: String)
    ensures var q := Section1(content);
      && ("1" in q ==> q["1"].points == 1)
      && ("9" in q ==> q["9"].points == 2)
      && ("29" in q ==> q["29"].points == 3)
  {
    Section1Sound(content);
    assert ParseInt("1") == 1 && ParseInt("9") == 9;
    assert ParseInt("29") == 29;
  }

  /**
   * A record is saved only by an `A.` line that yields five options while a
   * question is open, and the question is closed by it; once closed,
   * option lines change nothing.
   */
  lemma SavesOnlyOnFiveOptions(st: Scan, line: String)
    ensures Step(st, line).questions != st.questions ==>
      StartsWith(line, "A.") && st.current.Some? && ParseOptions(line).Keys == Letters
      && Step(st, line).current.None?
    ensures st.current.None? && Opening(line).None? ==> Step(st, line) == st
  {
    if Step(st, line).questions != st.questions {
      ParseOptionsFive(line);
    }
  }

  /** A number outside 1..36 opens nothing, and neither does a number that is not at the start of the line. */
  lemma OpensOnlyAtLineStartInRange(line: String)
    ensures Opening(line).Some? ==> IsDigit(line[0]) && 1 <= ParseInt(Opening(line).value.key) <= 36
    ensures QuestionLine(line).Some? && !(1 <= ParseInt(QuestionLine(line).value.key) <= 36) ==> Opening(line).None?
  {
  }

  // ---------------------------------------------------------------------
  // `extractSection2Questions`

  datatype FillPart = FillPart(text: String, points: nat)

  /** A section-two record; part `k` is `parts[k - 1]`. */
  datatype FillQuestion = FillQuestion(mainText: String, parts: seq<FillPart>)

  /** The section's declared `pointsPerQuestion`. */
  const PointsPerQuestion: nat := 7

  /** The record the script hard-codes for question 2.1. */
  const Question21: FillQuestion := FillQuestion(
    "y = f(x) квадрат функцийн график Ox тэнхлэгтэй (-6, 0), (14, 0) цэгүүдээр харин Oy тэнхлэгтэй (0, 42) цэгээр огтлолцдог байв. y = |f(x)| ба y = k муруй дөрвөн ерөнхий цэгтэй байх k – ийн бүх утгыг олъё.",
    [ FillPart("Квадрат функцийн томьёог олбол f(x) = -0.a x² + b x + cd болно.", 3),
      FillPart("Оройн цэгийн координатыг олбол O(4, ef)", 2),
      FillPart("|f(x)| = k тэгшитгэл ялгаатай дөрвөн шийдтэй байх k – ийн утгууд нь 0 < k < gh байна.", 2) ])

  function SumPoints(parts: seq<FillPart>): nat {
    if parts == [] then 0 else parts[0].points + SumPoints(parts[1..])
  }

  /** The hard-coded parts add up to the section's points per question. */
  lemma Question21Total()
    ensures SumPoints(Question21.parts) == PointsPerQuestion
  {
    var ps := Question21.parts;
    assert ps[1..][1..][1..] == [];
  }

  /** `2\.\d+` at `j`. */
  predicate SubHeaderAt(s: String, j: nat) {
    j + 2 < |s| && s[j] == '2' && s[j + 1] == '.' && IsDigit(s[j + 2])
  }

  /** The first `2` at or after `q`, or the end of the text. */
  function NextTwo(s: String, q: nat): (j: nat)
    requires q <= |s|
    ensures q <= j <= |s| && (j < |s| ==> s[j] == '2')
    ensures forall k :: q <= k < j ==> s[k] != '2'
    decreases |s| - q
  {
    if q == |s| || s[q] == '2' then q else NextTwo(s, q + 1)
  }

  /**
   * `2\.1\.\s*([^2]*?)(?=2\.\d+|$)` matches from `p`: the lazy group cannot
   * step over a `2`, so it can stop only at the first `2` after the header,
   * which must begin `2.N`, or at the end of the text when no `2` follows.
   */
  predicate Section2At(s: String, p: nat) {
    OccursAt(s, "2.1.", p) && (var j := NextTwo(s, p + 4); j == |s| || SubHeaderAt(s, j))
  }

  /** The unanchored search: some start at or after `p` matches. */
  predicate Section2From(s: String, p: nat)
    decreases |s| - p
  {
    p < |s| && (Section2At(s, p) || Section2From(s, p + 1))
  }

  /** What `extractSection2Questions(content)` returns, as written. */
  function Section2(content: String): (r: map<String, FillQuestion>)
    ensures r.Keys <= {"2.1"}
  {
    if Section2From(content, 0) then map["2.1" := Question21] else map[]
  }

  lemma {:induction false} Section2FromFinds(s: String, p: nat)
    requires p <= |s| && Section2From(s, p)
    ensures Find(s, "2.1.", p).Some?
    decreases |s| - p
  {
    if !OccursAt(s, "2.1.", p) {
      Section2FromFinds(s, p + 1);
    }
  }

  /** A record is produced only when the text contains a `2.1.` header. */
  lemma Section2NeedsHeader(content: String)
    ensures |Section2(content)| == 1 ==> Contains(content, "2.1.")
  {
    if Section2From(content, 0) {
      Section2FromFinds(content, 0);
    }
  }

  /** `"2.1. 42"`: a `2.1.` header whose text holds a `2` that does not begin a sub-header. */
  const HeaderWithTwo: String := "2.1. 42"

  /**
   * The pattern misses such a header: the `2` of `42` stops the lazy
   * group, and it is not followed by `.` and a digit. The script's own
   * sample text, whose question 2.1 mentions the point `(0, 42)`, is of this
   * kind, so the fixed record is never produced for it.
   */
  lemma Section2MissesHeader(s: String)
    requires s == HeaderWithTwo
    ensures Contains(s, "2.1.") && Section2(s) == map[]
  {
    assert OccursAt(s, "2.1.", 0);
    assert NextTwo(s, 6) == 6;
    assert NextTwo(s, 4) == 6;
    assert !Section2At(s, 0);
    assert !Section2From(s, 3) by {
      assert !OccursAt(s, "2.1.", 3) && !OccursAt(s, "2.1.", 4) && !OccursAt(s, "2.1.", 5) && !OccursAt(s, "2.1.", 6);
      assert !Section2From(s, 6);
    }
    assert !OccursAt(s, "2.1.", 1) && !OccursAt(s, "2.1.", 2);
  }

  /**
   * The evident intent, `2\.1\.\s*([\s\S]*?)(?=2\.\d+|$)`: the lazy group
   * may cross any character, so it always reaches a sub-header or the end.
   */
  function Section2Intended(content: String): (r: map<String, FillQuestion>)
    ensures r.Keys <= {"2.1"}
  {
    if Contains(content, "2.1.") then map["2.1" := Question21] else map[]
  }

  /** With the intended pattern the record is produced exactly when a `2.1.` header is present, and whenever the written pattern produces it. */
  lemma Section2IntendedExactly(content: String)
    ensures |Section2Intended(content)| == 1 <==> Contains(content, "2.1.")
    ensures Section2(content).Keys <= Section2Intended(content).Keys
  {
    Section2NeedsHeader(content);
  }
}
