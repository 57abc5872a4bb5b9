/**
 * `ExamParser` of enhanced_parser.js: the structure checks applied to a
 * parsed reply, the statistics `analyzeExamStructure` accumulates over
 * exams, sections, questions and parts, and `getSectionQuestions`.
 *
 * JSON objects are entry lists `seq<(key, value)>` in `Object.entries`
 * order, with distinct keys. A number that is absent (or falsy) is 0 and
 * a string that is absent (or empty) is `""`, which is how the code's
 * `||` defaults and truthiness tests treat them.
 */
module EnhancedParser {
  import opened Wrappers
  import opened JsText

  datatype Part = Part(points: int)

  datatype Question = Question(
    text: String, mainText: String, points: int, qtype: String,
    options: Option<seq<(String, String)>>, parts: Option<seq<Part>>)

  datatype Section = Section(title: String, stype: String, questions: Option<seq<(String, Question)>>)

  /**
   * An exam: its `sections` object when present, and the exam's own
   * section-shaped entries (`section1`, `section2`, ...) of the older layout.
   */
  datatype Exam = Exam(sections: Option<seq<(String, Section)>>, fields: seq<(String, Section)>)

  /** The parsed reply; `exams` is `None` when it is missing or not an object. */
  datatype Parsed = Parsed(exams: Option<seq<(String, Exam)>>)

  // ---------------------------------------------------------------------
  // `validateAndProcessResponse`, after `JSON.parse`

  datatype Checked = Accepted(data: Parsed) | Rejected(message: String)

  /** The structure checks: an `exams` object with at least one exam. */
  function CheckStructure(p: Parsed): (r: Checked)
    ensures r.Accepted? <==> p.exams.Some? && |p.exams.value| > 0
    ensures r.Accepted? ==> r.data == p
  {
    if p.exams.None? then Rejected("Invalid exam structure: missing exams object")
    else if |p.exams.value| == 0 then Rejected("No exams found in parsed data")
    else Accepted(p)
  }

  // ---------------------------------------------------------------------
  // `analyzeExamStructure`

  datatype SectionAnalysis = SectionAnalysis(
    title: String, stype: String, questionCount: nat, pointsTotal: int,
    distribution: seq<(int, nat)>, hasMultiPart: bool)

  datatype Totals = Totals(questions: nat, points: int, sections: nat)

  datatype ExamAnalysis = ExamAnalysis(sections: seq<(String, SectionAnalysis)>, totals: Totals)

  datatype Analysis = Analysis(totalExams: nat, examDetails: seq<(String, ExamAnalysis)>, global: Totals)

  /** The parts' points added one by one (a falsy 0 adds nothing). */
  function PartsPoints(ps: seq<Part>): int {
    if ps == [] then 0 else PartsPoints(ps[..|ps| - 1]) + ps[|ps| - 1].points
  }

  /** A question's points: its own (0 if absent) plus its parts'. */
  function QuestionPoints(q: Question): int {
    q.points + (if q.parts.Some? then PartsPoints(q.parts.value) else 0)
  }

  /** `distribution[key] = (distribution[key] || 0) + 1`. */
  function Bump(d: seq<(int, nat)>, p: int): (r: seq<(int, nat)>)
    ensures |r| == |d| || |r| == |d| + 1
  {
    if d == [] then [(p, 1)]
    else if d[0].0 == p then [(p, d[0].1 + 1)] + d[1..]
    else [d[0]] + Bump(d[1..], p)
  }

  /** `pointsTotal` after the first `n` questions. */
  function SectionPoints(qs: seq<(String, Question)>, n: nat): int
    requires n <= |qs|
  {
    if n == 0 then 0 else SectionPoints(qs, n - 1) + QuestionPoints(qs[n - 1].1)
  }

  /** `pointsDistribution` after the first `n` questions. */
  function Distribution(qs: seq<(String, Question)>, n: nat): seq<(int, nat)>
    requires n <= |qs|
  {
    if n == 0 then [] else Bump(Distribution(qs, n - 1), QuestionPoints(qs[n - 1].1))
  }

  /** `hasMultiPart` after the first `n` questions. */
  function AnyParts(qs: seq<(String, Question)>, n: nat): bool
    requires n <= |qs|
  {
    n > 0 && (AnyParts(qs, n - 1) || qs[n - 1].1.parts.Some?)
  }

  /** The analysis of a section that has questions. */
  function SectionAnalysisOf(sectionId: String, s: Section): SectionAnalysis
    requires s.questions.Some?
  {
    var qs := s.questions.value;
    SectionAnalysis(
      if s.title != [] then s.title else sectionId,
      if s.stype != [] then s.stype else "unknown",
      |qs|, SectionPoints(qs, |qs|), Distribution(qs, |qs|), AnyParts(qs, |qs|))
  }

  /** The sections analysed: the `sections` object, or else the exam's entries whose key starts with `section`. */
  function Candidates(exam: Exam): (r: seq<(String, Section)>)
    ensures exam.sections.None? ==> forall i :: 0 <= i < |r| ==> StartsWith(r[i].0, "section")
  {
    if exam.sections.Some? then exam.sections.value else SectionEntries(exam.fields)
  }

  function SectionEntries(fields: seq<(String, Section)>): (r: seq<(String, Section)>)
    ensures forall i :: 0 <= i < |r| ==> StartsWith(r[i].0, "section")
    ensures forall e :: e in r ==> e in fields
  {
    if fields == [] then []
    else (if StartsWith(fields[0].0, "section") then [fields[0]] else []) + SectionEntries(fields[1..])
  }

  /** Each candidate section's analysis, or `None` for one without questions, which is skipped. */
  function Analysed(entries: seq<(String, Section)>): (r: seq<Option<(String, SectionAnalysis)>>)
    ensures |r| == |entries|
  {
    seq(|entries|, i requires 0 <= i < |entries| =>
      if entries[i].1.questions.Some? then Some((entries[i].0, SectionAnalysisOf(entries[i].0, entries[i].1))) else None)
  }

  /** The exam's analysis after one more section: listed, and its counts added. */
  function AddSection(prev: ExamAnalysis, e: (String, SectionAnalysis)): ExamAnalysis {
    ExamAnalysis(prev.sections + [e],
      Totals(prev.totals.questions + e.1.questionCount, prev.totals.points + e.1.pointsTotal, prev.totals.sections + 1))
  }

  /** The sections' analyses added one by one. */
  function ExamFold(rs: seq<Option<(String, SectionAnalysis)>>): ExamAnalysis {
    if rs == [] then ExamAnalysis([], Totals(0, 0, 0))
    else
      var prev := ExamFold(rs[..|rs| - 1]);
      match rs[|rs| - 1]
      case None => prev
      case Some(e) => AddSection(prev, e)
  }

  function ExamAnalysisOf(exam: Exam): ExamAnalysis {
    ExamFold(Analysed(Candidates(exam)))
  }

  /** The analysis after one more exam: counted, listed, and its totals added. */
  function AddExam(prev: Analysis, e: (String, ExamAnalysis)): Analysis {
    Analysis(prev.totalExams + 1, prev.examDetails + [e],
      Totals(prev.global.questions + e.1.totals.questions, prev.global.points + e.1.totals.points,
             prev.global.sections + e.1.totals.sections))
  }

  /** Every exam under its key with its own analysis, in `Object.entries` order. */
  function ExamDetails(exams: seq<(String, Exam)>): (r: seq<(String, ExamAnalysis)>)
    ensures |r| == |exams|
  {
    seq(|exams|, i requires 0 <= i < |exams| => (exams[i].0, ExamAnalysisOf(exams[i].1)))
  }

  /** The exams' analyses added one by one. */
  function Fold(details: seq<(String, ExamAnalysis)>): Analysis {
    if details == [] then Analysis(0, [], Totals(0, 0, 0))
    else AddExam(Fold(details[..|details| - 1]), details[|details| - 1])
  }

  /** What `analyzeExamStructure(data)` returns. */
  function AnalysisOf(exams: seq<(String, Exam)>): Analysis {
    Fold(ExamDetails(exams))
  }

  // ---------------------------------------------------------------------
  // The loops

  /** `if (question.points) ...; Object.values(question.parts).forEach(part => ...)`. */
  method QuestionPointsOf(q: Question) returns (questionPoints: int)
    ensures questionPoints == QuestionPoints(q)
  {
    questionPoints := 0;
    if q.points != 0 {
      questionPoints := q.points;
    }
    if q.parts.Some? {
      var ps := q.parts.value;
      var i := 0;
      while i < |ps|
        invariant i <= |ps| && questionPoints == q.points + PartsPoints(ps[..i])
      {
        assert ps[..i + 1][..i] == ps[..i];
        if ps[i].points != 0 {
          questionPoints := questionPoints + ps[i].points;
        }
        i := i + 1;
      }
      assert ps[..|ps|] == ps;
    }
  }

  /** The loop over one section's questions. */
  method AnalyzeSection(sectionId: String, s: Section) returns (sa: SectionAnalysis)
    requires s.questions.Some?
    ensures sa == SectionAnalysisOf(sectionId, s)
  {
    var qs := s.questions.value;
    var pointsTotal := 0;
    var distribution: seq<(int, nat)> := [];
    var hasMultiPart := false;
    var i := 0;
    while i < |qs|
      invariant i <= |qs|
      invariant pointsTotal == SectionPoints(qs, i) && distribution == Distribution(qs, i) && hasMultiPart == AnyParts(qs, i)
    {
      var questionPoints := QuestionPointsOf(qs[i].1);
      if qs[i].1.parts.Some? {
        hasMultiPart := true;
      }
      pointsTotal := pointsTotal + questionPoints;
      distribution := Bump(distribution, questionPoints);
      i := i + 1;
    }
    sa := SectionAnalysis(
      if s.title != [] then s.title else sectionId,
      if s.stype != [] then s.stype else "unknown",
      |qs|, pointsTotal, distribution, hasMultiPart);
  }

  /** The loop over one exam's sections. */
  method AnalyzeExam(exam: Exam) returns (ea: ExamAnalysis)
    ensures ea == ExamAnalysisOf(exam)
  {
    var entries := Candidates(exam);
    ea := ExamAnalysis([], Totals(0, 0, 0));
    var i := 0;
    while i < |entries|
      invariant i <= |entries| && ea == ExamFold(Analysed(entries)[..i])
    {
      assert Analysed(entries)[..i + 1][..i] == Analysed(entries)[..i];
      var (sectionId, s) := entries[i];
      if s.questions.Some? {
        var sa := AnalyzeSection(sectionId, s);
        ea := AddSection(ea, (sectionId, sa));
      }
      i := i + 1;
    }
    assert Analysed(entries)[..|entries|] == Analysed(entries);
  }

  /** `analyzeExamStructure`: the loop over the exams. */
  method AnalyzeExamStructure(exams: seq<(String, Exam)>) returns (analysis: Analysis)
    ensures analysis == AnalysisOf(exams)
  {
    analysis := Analysis(0, [], Totals(0, 0, 0));
    var i := 0;
    while i < |exams|
      invariant i <= |exams| && analysis == Fold(ExamDetails(exams)[..i])
    {
      var ea := AnalyzeExam(exams[i].1);
      assert ExamDetails(exams)[..i + 1] == ExamDetails(exams)[..i] + [(exams[i].0, ea)];
      analysis := AddExam(analysis, (exams[i].0, ea));
      i := i + 1;
    }
    assert ExamDetails(exams)[..|exams|] == ExamDetails(exams);
  }

  // ---------------------------------------------------------------------
  // What the statistics mean

  /** The sum of a distribution's counts. */
  function CountSum(d: seq<(int, nat)>): nat {
    if d == [] then 0 else d[0].1 + CountSum(d[1..])
  }

  /** How many of the first `n` questions score `p`. */
  function CountWith(qs: seq<(String, Question)>, n: nat, p: int): nat
    requires n <= |qs|
  {
    if n == 0 then 0 else CountWith(qs, n - 1, p) + (if QuestionPoints(qs[n - 1].1) == p then 1 else 0)
  }

  /** The point values a distribution has an entry for. */
  function KeySet(d: seq<(int, nat)>): set<int> {
    if d == [] then {} else {d[0].0} + KeySet(d[1..])
  }

  /** No point value has two entries. */
  predicate DistinctKeys(d: seq<(int, nat)>) {
    d == [] || (d[0].0 !in KeySet(d[1..]) && DistinctKeys(d[1..]))
  }

  /** The count a distribution holds for `p` (0 when it has no entry). */
  function CountOf(d: seq<(int, nat)>, p: int): nat {
    if d == [] then 0 else if d[0].0 == p then d[0].1 else CountOf(d[1..], p)
  }

  /** Counting one more question adds `p` to the keys and one to `p`'s count only. */
  lemma {:induction false} BumpCounts(d: seq<(int, nat)>, p: int)
    requires DistinctKeys(d)
    ensures DistinctKeys(Bump(d, p)) && KeySet(Bump(d, p)) == KeySet(d) + {p}
    ensures CountSum(Bump(d, p)) == CountSum(d) + 1
    ensures forall k :: CountOf(Bump(d, p), k) == CountOf(d, k) + (if k == p then 1 else 0)
    decreases |d|
  {
    if d == [] {
      assert Bump(d, p) == [(p, 1)];
      assert [(p, 1)][1..] == [];
    } else if d[0].0 == p {
      assert Bump(d, p)[1..] == d[1..];
    } else {
      BumpCounts(d[1..], p);
      assert Bump(d, p)[1..] == Bump(d[1..], p);
    }
  }

  /**
   * The distribution has one entry per distinct point value; each entry
   * counts the questions with that value, so the counts add up to the
   * number of questions.
   */
  lemma {:induction false} DistributionCounts(qs: seq<(String, Question)>, n: nat)
    requires n <= |qs|
    ensures DistinctKeys(Distribution(qs, n))
    ensures CountSum(Distribution(qs, n)) == n
    ensures forall p :: CountOf(Distribution(qs, n), p) == CountWith(qs, n, p)
  {
    if n > 0 {
      DistributionCounts(qs, n - 1);
      BumpCounts(Distribution(qs, n - 1), QuestionPoints(qs[n - 1].1));
    }
  }

  /** A section's distribution counts add up to its `questionCount`. */
  lemma SectionDistributionSum(sectionId: String, s: Section)
    requires s.questions.Some?
    ensures CountSum(SectionAnalysisOf(sectionId, s).distribution) == SectionAnalysisOf(sectionId, s).questionCount
  {
    DistributionCounts(s.questions.value, |s.questions.value|);
  }

  /** `pointsTotal` is the sum of the question points (each its own points plus its parts'). */
  function SumQuestionPoints(qs: seq<(String, Question)>): int {
    if qs == [] then 0 else QuestionPoints(qs[0].1) + SumQuestionPoints(qs[1..])
  }

  lemma {:induction false} SectionPointsSum(qs: seq<(String, Question)>, n: nat)
    requires n <= |qs|
    ensures SectionPoints(qs, n) == SumQuestionPoints(qs[..n])
  {
    if n > 0 {
      SectionPointsSum(qs, n - 1);
      SumQuestionPointsAppend(qs[..n - 1], qs[n - 1]);
      assert qs[..n] == qs[..n - 1] + [qs[n - 1]];
    }
  }

  lemma {:induction false} SumQuestionPointsAppend(qs: seq<(String, Question)>, q: (String, Question))
    ensures SumQuestionPoints(qs + [q]) == SumQuestionPoints(qs) + QuestionPoints(q.1)
    decreases |qs|
  {
    if qs != [] {
      assert (qs + [q])[1..] == qs[1..] + [q];
      SumQuestionPointsAppend(qs[1..], q);
    } else {
      assert [q][1..] == [];
    }
  }

  lemma SectionTotalIsSum(sectionId: String, s: Section)
    requires s.questions.Some?
    ensures SectionAnalysisOf(sectionId, s).pointsTotal == SumQuestionPoints(s.questions.value)
  {
    var qs := s.questions.value;
    SectionPointsSum(qs, |qs|);
    assert qs[..|qs|] == qs;
  }

  /** Sums over analysed sections. */
  function SectionCounts(ss: seq<(String, SectionAnalysis)>): nat {
    if ss == [] then 0 else SectionCounts(ss[..|ss| - 1]) + ss[|ss| - 1].1.questionCount
  }

  function SectionTotals(ss: seq<(String, SectionAnalysis)>): int {
    if ss == [] then 0 else SectionTotals(ss[..|ss| - 1]) + ss[|ss| - 1].1.pointsTotal
  }

  /** The analysed sections, in order, leaving out those skipped. */
  function Listed(rs: seq<Option<(String, SectionAnalysis)>>): seq<(String, SectionAnalysis)> {
    if rs == [] then []
    else Listed(rs[..|rs| - 1]) + (if rs[|rs| - 1].Some? then [rs[|rs| - 1].value] else [])
  }

  /** The exam lists exactly the analysed sections, and its totals are the sums over them. */
  lemma {:induction false} ExamFoldSums(rs: seq<Option<(String, SectionAnalysis)>>)
    ensures var ss := Listed(rs);
      ExamFold(rs) == ExamAnalysis(ss, Totals(SectionCounts(ss), SectionTotals(ss), |ss|))
  {
    if rs != [] {
      var prev := rs[..|rs| - 1];
      ExamFoldSums(prev);
      var ss := Listed(prev);
      if rs[|rs| - 1].Some? {
        var e := rs[|rs| - 1].value;
        assert ExamFold(rs) == AddSection(ExamFold(prev), e);
        assert (ss + [e])[..|ss|] == ss;
        assert SectionCounts(ss + [e]) == SectionCounts(ss) + e.1.questionCount;
        assert SectionTotals(ss + [e]) == SectionTotals(ss) + e.1.pointsTotal;
      } else {
        assert Listed(rs) == ss + [];
      }
    }
  }

  /**
   * An exam's analysis lists its candidate sections that have questions,
   * each with its own analysis and in order, skipping the rest; its totals
   * are the sums over the sections it lists.
   */
  lemma ExamTotalsAreSums(exam: Exam)
    ensures var ss := Listed(Analysed(Candidates(exam)));
      ExamAnalysisOf(exam) == ExamAnalysis(ss, Totals(SectionCounts(ss), SectionTotals(ss), |ss|))
  {
    ExamFoldSums(Analysed(Candidates(exam)));
  }

  /** The global totals are the sums of the exams' totals, and `totalExams` counts the exams. */
  function ExamCounts(es: seq<(String, ExamAnalysis)>): Totals {
    if es == [] then Totals(0, 0, 0)
    else
      var prev := ExamCounts(es[..|es| - 1]);
      var t := es[|es| - 1].1.totals;
      Totals(prev.questions + t.questions, prev.points + t.points, prev.sections + t.sections)
  }

  /**
   * `totalExams` counts the exams, `examDetails` lists them in order, and
   * the global totals are the sums of the exams' totals.
   */
  lemma {:induction false} FoldSums(details: seq<(String, ExamAnalysis)>)
    ensures Fold(details) == Analysis(|details|, details, ExamCounts(details))
  {
    if details != [] {
      var prev := details[..|details| - 1];
      var last := details[|details| - 1];
      FoldSums(prev);
      assert Fold(details) == AddExam(Fold(prev), last);
      assert prev + [last] == details;
      assert ExamCounts(details) == Totals(ExamCounts(prev).questions + last.1.totals.questions,
        ExamCounts(prev).points + last.1.totals.points, ExamCounts(prev).sections + last.1.totals.sections);
    }
  }

  /** The same for `analyzeExamStructure`: one entry per exam, under its key, with its own analysis. */
  lemma GlobalTotalsAreSums(exams: seq<(String, Exam)>)
    ensures AnalysisOf(exams).totalExams == |exams| == |AnalysisOf(exams).examDetails|
    ensures forall i :: 0 <= i < |exams| ==>
      AnalysisOf(exams).examDetails[i] == (exams[i].0, ExamAnalysisOf(exams[i].1))
    ensures AnalysisOf(exams).global == ExamCounts(AnalysisOf(exams).examDetails)
  {
    FoldSums(ExamDetails(exams));
  }

  // ---------------------------------------------------------------------
  // `getSectionQuestions`

  datatype Row = Row(id: String, text: String, points: int, qtype: String,
                     options: Option<seq<(String, String)>>, parts: Option<seq<Part>>)

  function Lookup<V>(entries: seq<(String, V)>, key: String): (r: Option<V>)
    ensures r.Some? ==> exists i :: 0 <= i < |entries| && entries[i] == (key, r.value)
    ensures r.None? ==> forall i :: 0 <= i < |entries| ==> entries[i].0 != key
  {
    if entries == [] then None
    else if entries[0].0 == key then Some(entries[0].1)
    else
      var r := Lookup(entries[1..], key);
      assert r.Some? ==> exists i :: 0 <= i < |entries[1..]| && entries[1..][i] == (key, r.value);
      r
  }

  /** One row: the text falls back to `mainText`, points to 0, the type to `unknown`. */
  function RowOf(entry: (String, Question)): Row {
    var q := entry.1;
    Row(entry.0, if q.text != [] then q.text else q.mainText, q.points,
        if q.qtype != [] then q.qtype else "unknown", q.options, q.parts)
  }

  /** `exam.sections?.[sectionId] || exam[sectionId]`. */
  function SectionOf(exam: Exam, sectionId: String): Option<Section> {
    var fromSections := if exam.sections.Some? then Lookup(exam.sections.value, sectionId) else None;
    if fromSections.Some? then fromSections else Lookup(exam.fields, sectionId)
  }

  /**
   * `getSectionQuestions(sectionId)` on the stored data: `None` stands for
   * the `TypeError` raised when the data holds no exam.
   */
  function GetSectionQuestions(examData: Option<seq<(String, Exam)>>, sectionId: String): (r: Option<seq<Row>>)
    ensures examData.None? ==> r == Some([])
    ensures r.None? <==> examData.Some? && examData.value == []
  {
    if examData.None? then Some([])
    else if examData.value == [] then None
    else
      var exam := examData.value[0].1;
      match SectionOf(exam, sectionId)
      case None => Some([])
      case Some(section) =>
        if section.questions.None? then Some([])
        else Some(seq(|section.questions.value|, i requires 0 <= i < |section.questions.value| => RowOf(section.questions.value[i])))
  }

  /**
   * The rows follow the first exam's section question by question: same
   * ids, a text that is empty only when both `text` and `mainText` are,
   * and points that default to 0. A section without questions gives no
   * rows.
   */
  lemma SectionRows(examData: seq<(String, Exam)>, sectionId: String)
    requires examData != []
    ensures var r := GetSectionQuestions(Some(examData), sectionId);
      r.Some? &&
      match SectionOf(examData[0].1, sectionId)
      case None => r.value == []
      case Some(s) =>
        (s.questions.None? ==> r.value == [])
        && (s.questions.Some? ==>
              |r.value| == |s.questions.value|
              && (forall i :: 0 <= i < |r.value| ==>
                    r.value[i].id == s.questions.value[i].0
                    && (r.value[i].text == [] <==> s.questions.value[i].1.text == [] && s.questions.value[i].1.mainText == [])
                    && r.value[i].points == s.questions.value[i].1.points))
  {
  }

  /** Data that passed the structure checks never makes `getSectionQuestions` throw. */
  lemma AcceptedNeverThrows(p: Parsed, sectionId: String)
    requires CheckStructure(p).Accepted?
    ensures GetSectionQuestions(p.exams, sectionId).Some?
  {
  }
}
