/**
 * Section two of the exam service's pattern-based extraction: `2.N.`
 * tasks, each worth 7 points, with their `(N)` parts and the question
 * images that sit near their continuation lines.
 */
module AnthropicSectionTwo {
  import opened Wrappers
  import opened JsText
  import opened AnthropicService

  // ---------------------------------------------------------------------
  // The task and part patterns

  /** `2\.(\d+)\.\s+(.+)` anchored at `p`. */
  function TaskAt(s: String, p: nat): (r: Option<Capture>)
    requires p <= |s|
    ensures r.Some? ==> |r.value.text| > 0
    ensures r.Some? ==> p + 3 < |s| && s[p] == '2' && s[p + 1] == '.' && IsDigit(s[p + 2])
  {
    if p + 2 >= |s| || s[p] != '2' || s[p + 1] != '.' then None
    else
      var d := SkipDigits(s, p + 2);
      if d == p + 2 || d >= |s| || s[d] != '.' then None
      else
        DigitsSlice(s, p + 2, d);
        match SpacesThenRest(s, d + 1, true)
        case None => None
        case Some(t) => Some(Capture(DigitsValue(s[p + 2..d]), t))
  }

  /** `/^Даалгавар\s+2\.(\d+)\.\s+(.+)/i`. */
  function WordThenTask(s: String): Option<Capture> {
    if !OccursAtIgnoringCase(s, "Даалгавар", 0) then None
    else
      var w := SkipSpaces(s, 9);
      if w == 9 then None else TaskAt(s, w)
  }

  /** `/^№?\s*2\.(\d+)\.\s+(.+)/`: an optional `№` is taken when present. */
  function NumeroTask(s: String): Option<Capture> {
    if |s| > 0 && s[0] == '№' then TaskAt(s, SkipSpaces(s, 1))
    else TaskAt(s, SkipSpaces(s, 0))
  }

  /**
   * The first of the three section-two patterns that matches. The third
   * pattern accepts every line the first one does, with the same capture.
   */
  function TaskMatch(line: String): (r: Option<Capture>)
    ensures TaskAt(line, 0).Some? ==> r == TaskAt(line, 0)
    ensures r.Some? ==> |r.value.text| > 0
  {
    if TaskAt(line, 0).Some? then TaskAt(line, 0)
    else if WordThenTask(line).Some? then WordThenTask(line)
    else NumeroTask(line)
  }

  /** `/^\s*\((\d+)\)\s+(.+)/`: the part number and its captured text. */
  function PartMatch(line: String): (r: Option<Capture>)
    ensures r.Some? ==> |r.value.text| > 0
  {
    var w := SkipSpaces(line, 0);
    if w >= |line| || line[w] != '(' then None
    else
      var d := SkipDigits(line, w + 1);
      if d == w + 1 || d >= |line| || line[d] != ')' then None
      else
        DigitsSlice(line, w + 1, d);
        match SpacesThenRest(line, d + 1, true)
        case None => None
        case Some(t) => Some(Capture(DigitsValue(line[w + 1..d]), t))
  }

  // ---------------------------------------------------------------------
  // Records and the scan

  datatype Part = Part(partNumber: nat, text: String)

  /** A section-two question as the scan pushes it. */
  datatype TaskQuestion = TaskQuestion(
    questionNumber: nat, subQuestionNumber: nat, question: String, points: nat,
    hasImage: bool, questionImages: seq<String>, parts: seq<Part>)

  /** The task being read: its number and the images attached so far. */
  datatype OpenTask = OpenTask(subQuestionNumber: nat, hasImage: bool, questionImages: seq<String>)

  /** What a section-two line is to the scan. */
  datatype Line2 =
    | TaskLine(number: nat, text: String)
    | PartLine(number: nat, text: String)
    | MoreText(text: String)
    | BlankLine

  /** A task pattern wins; otherwise a non-blank line is a part or more text. */
  function Classify2(line: String): Line2 {
    match TaskMatch(line)
    case Some(m) => TaskLine(m.number, m.text)
    case None =>
      if Trim(line) == [] then BlankLine
      else match PartMatch(line)
        case Some(p) => PartLine(p.number, Trim(p.text))
        case None => MoreText(Trim(line))
  }

  /** The kinds of the lines. */
  function Classes2(lines: seq<String>): (r: seq<Line2>)
    ensures |r| == |lines|
  {
    seq(|lines|, j requires 0 <= j < |lines| => Classify2(lines[j]))
  }

  /** The state of the section-two scan between two lines. */
  datatype Scan2 = Scan2(current: Option<OpenTask>, questionText: String, parts: seq<Part>, questions: seq<TaskQuestion>)

  const Start2 := Scan2(None, [], [], [])

  /** The record saving the open task pushes: the text trimmed, the points 7. */
  function Close(task: OpenTask, questionText: String, parts: seq<Part>): TaskQuestion {
    TaskQuestion(2, task.subQuestionNumber, Trim(questionText), 7, task.hasImage, task.questionImages, parts)
  }

  /** What saving the open task adds to the list: nothing when none is open. */
  function Pending2(st: Scan2): seq<TaskQuestion> {
    match st.current
    case None => []
    case Some(task) => [Close(task, st.questionText, st.parts)]
  }

  /** A question image near a continuation line is attached to the open task. */
  function AttachTaskImage(st: Scan2, image: Option<Image>): Scan2 {
    if st.current.Some? && image.Some? && image.value.kind == QuestionImage then
      var task := st.current.value;
      st.(current := Some(task.(questionImages := task.questionImages + [image.value.url], hasImage := true)))
    else st
  }

  /**
   * What one line does to the scan. The image near a line is looked at only
   * on the continuation lines of an open task, and only a question image is
   * attached.
   */
  function Step2(st: Scan2, kind: Line2, image: Option<Image>): Scan2 {
    match kind
    case TaskLine(number, text) => Scan2(Some(OpenTask(number, false, [])), text, [], st.questions + Pending2(st))
    case BlankLine => st
    case PartLine(number, text) =>
      if st.current.None? then st else AttachTaskImage(st.(parts := st.parts + [Part(number, text)]), image)
    case MoreText(text) =>
      if st.current.None? then st else AttachTaskImage(st.(questionText := st.questionText + " " + text), image)
  }

  /** The scan state once the first `n` lines, of the given kinds and with the given nearby images, are read. */
  function Scan2After(kinds: seq<Line2>, near: seq<Option<Image>>, n: nat): Scan2
    requires |near| == |kinds| && n <= |kinds|
  {
    if n == 0 then Start2 else Step2(Scan2After(kinds, near, n - 1), kinds[n - 1], near[n - 1])
  }

  /** What `extractSection2Questions` returns for the lines of a section. */
  function Section2Of(lines: seq<String>, images: seq<Image>): seq<TaskQuestion> {
    var st := Scan2After(Classes2(lines), NearImages(images, |lines|), |lines|);
    st.questions + Pending2(st)
  }

  /** One turn of the `lines.forEach` in `extractSection2Questions`. */
  method ScanLine2(st: Scan2, line: String, lineIndex: nat, allImages: seq<Image>) returns (next: Scan2)
    ensures next == Step2(st, Classify2(line), ImageNear(allImages, lineIndex))
  {
    next := st;
    var questionMatch := TaskMatch(line);
    if questionMatch.Some? {
      var questions := st.questions;
      if st.current.Some? {
        questions := questions + [Close(st.current.value, st.questionText, st.parts)];
      }
      next := Scan2(Some(OpenTask(questionMatch.value.number, false, [])), questionMatch.value.text, [], questions);
    } else if st.current.Some? && Trim(line) != [] {
      var partMatch := PartMatch(line);
      if partMatch.Some? {
        next := next.(parts := next.parts + [Part(partMatch.value.number, Trim(partMatch.value.text))]);
      } else {
        next := next.(questionText := next.questionText + " " + Trim(line));
      }
      var imageOnLine := ImageNear(allImages, lineIndex);
      if imageOnLine.Some? && imageOnLine.value.kind == QuestionImage {
        var task := st.current.value;
        next := next.(current := Some(task.(questionImages := task.questionImages + [imageOnLine.value.url], hasImage := true)));
      }
    }
  }

  lemma Scan2Next(kinds: seq<Line2>, near: seq<Option<Image>>, i: nat)
    requires |near| == |kinds| && i < |kinds|
    ensures Scan2After(kinds, near, i + 1) == Step2(Scan2After(kinds, near, i), kinds[i], near[i])
  {
  }

  /** Saving the last question, if one is open, after the loop. */
  method SaveLast(st: Scan2) returns (questions: seq<TaskQuestion>)
    ensures questions == st.questions + Pending2(st)
  {
    questions := st.questions;
    if st.current.Some? {
      questions := questions + [Close(st.current.value, st.questionText, st.parts)];
    }
  }

  /** `extractSection2Questions(sectionText, allImages)`. */
  method ExtractSection2Questions(sectionText: String, allImages: seq<Image>) returns (questions: seq<TaskQuestion>)
    ensures questions == Section2Of(Split(sectionText, '\n'), allImages)
  {
    var lines := Split(sectionText, '\n');
    ghost var kinds, near := Classes2(lines), NearImages(allImages, |lines|);
    var st := Start2;
    var lineIndex := 0;
    while lineIndex < |lines|
      invariant lineIndex <= |lines| && st == Scan2After(kinds, near, lineIndex)
    {
      NearImagesAt(allImages, |lines|, lineIndex);
      Scan2Next(kinds, near, lineIndex);
      st := ScanLine2(st, lines[lineIndex], lineIndex, allImages);
      lineIndex := lineIndex + 1;
    }
    questions := SaveLast(st);
  }

  // ---------------------------------------------------------------------
  // What the scan guarantees

  /** The numbers of the task lines among the first `n` kinds, in order. */
  function TaskNumbers(kinds: seq<Line2>, n: nat): seq<nat>
    requires n <= |kinds|
  {
    if n == 0 then []
    else TaskNumbers(kinds, n - 1) + (if kinds[n - 1].TaskLine? then [kinds[n - 1].number] else [])
  }

  /** The part lines among the first `n` kinds that come after some task line. */
  function PartLines(kinds: seq<Line2>, n: nat): nat
    requires n <= |kinds|
  {
    if n == 0 then 0
    else PartLines(kinds, n - 1) + (if kinds[n - 1].PartLine? && |TaskNumbers(kinds, n - 1)| > 0 then 1 else 0)
  }

  /** The number of parts over all records. */
  function PartTotal(qs: seq<TaskQuestion>): nat {
    if qs == [] then 0 else PartTotal(qs[..|qs| - 1]) + |qs[|qs| - 1].parts|
  }

  lemma {:induction false} PartTotalAppend(a: seq<TaskQuestion>, b: seq<TaskQuestion>)
    ensures PartTotal(a + b) == PartTotal(a) + PartTotal(b)
    decreases |b|
  {
    if b != [] {
      var b' := b[..|b| - 1];
      assert (a + b)[..|a + b| - 1] == a + b';
      PartTotalAppend(a, b');
    } else {
      assert a + b == a;
    }
  }

  /** Every record is task 2 of its section, worth 7, and has an image exactly when it lists one. */
  predicate WellFormed(q: TaskQuestion) {
    q.questionNumber == 2 && q.points == 7 && (q.hasImage <==> |q.questionImages| > 0)
  }

  /** The invariant of the scan: what is saved and what is open together account for every task line. */
  predicate Accounted(st: Scan2, numbers: seq<nat>, parts: nat) {
    (forall k :: 0 <= k < |st.questions| ==> WellFormed(st.questions[k]))
    && (st.current.Some? ==> (st.current.value.hasImage <==> |st.current.value.questionImages| > 0))
    && |st.questions + Pending2(st)| == |numbers|
    && (forall k :: 0 <= k < |numbers| ==> (st.questions + Pending2(st))[k].subQuestionNumber == numbers[k])
    && (st.current.Some? <==> |numbers| > 0)
    && PartTotal(st.questions + Pending2(st)) == parts
  }

  /** Reading a continuation line keeps the invariant: it adds a part or text, and perhaps an image. */
  lemma ContinueAccounted(st: Scan2, next: Scan2, numbers: seq<nat>, parts: nat, added: nat)
    requires Accounted(st, numbers, parts) && st.current.Some? && next.current.Some?
    requires next.questions == st.questions && next.current.value.subQuestionNumber == st.current.value.subQuestionNumber
    requires next.current.value.hasImage <==> |next.current.value.questionImages| > 0
    requires |next.parts| == |st.parts| + added
    ensures Accounted(next, numbers, parts + added)
  {
    PartTotalAppend(st.questions, Pending2(st));
    PartTotalAppend(next.questions, Pending2(next));
  }

  /** Reading a task line keeps the invariant: the open task is saved and a new one opened. */
  lemma TaskAccounted(st: Scan2, number: nat, text: String, image: Option<Image>, numbers: seq<nat>, parts: nat)
    requires Accounted(st, numbers, parts)
    ensures Accounted(Step2(st, TaskLine(number, text), image), numbers + [number], parts)
  {
    var next := Step2(st, TaskLine(number, text), image);
    PartTotalAppend(st.questions + Pending2(st), Pending2(next));
  }

  /** Reading a part line keeps the invariant, adding one part when a task is open. */
  lemma PartAccounted(st: Scan2, number: nat, text: String, image: Option<Image>, numbers: seq<nat>, parts: nat)
    requires Accounted(st, numbers, parts)
    ensures Accounted(Step2(st, PartLine(number, text), image), numbers, parts + (if |numbers| > 0 then 1 else 0))
  {
    if st.current.Some? {
      ContinueAccounted(st, Step2(st, PartLine(number, text), image), numbers, parts, 1);
    }
  }

  /** Reading a line of more text keeps the invariant. */
  lemma TextAccounted(st: Scan2, text: String, image: Option<Image>, numbers: seq<nat>, parts: nat)
    requires Accounted(st, numbers, parts)
    ensures Accounted(Step2(st, MoreText(text), image), numbers, parts)
  {
    if st.current.Some? {
      ContinueAccounted(st, Step2(st, MoreText(text), image), numbers, parts, 0);
    }
  }

  /** One line keeps the invariant, adding its number when it is a task line. */
  lemma Step2Accounted(st: Scan2, kind: Line2, image: Option<Image>, numbers: seq<nat>, parts: nat,
      numbers': seq<nat>, parts': nat)
    requires Accounted(st, numbers, parts)
    requires numbers' == numbers + (if kind.TaskLine? then [kind.number] else [])
    requires parts' == parts + (if kind.PartLine? && |numbers| > 0 then 1 else 0)
    ensures Accounted(Step2(st, kind, image), numbers', parts')
  {
    match kind
    case TaskLine(number, text) => TaskAccounted(st, number, text, image, numbers, parts);
    case BlankLine => assert numbers' == numbers;
    case PartLine(number, text) =>
      assert numbers' == numbers;
      PartAccounted(st, number, text, image, numbers, parts);
    case MoreText(text) =>
      assert numbers' == numbers;
      TextAccounted(st, text, image, numbers, parts);
  }

  lemma Scan2AccountedStep(kinds: seq<Line2>, near: seq<Option<Image>>, n: nat)
    requires |near| == |kinds| && 0 < n <= |kinds|
    requires Accounted(Scan2After(kinds, near, n - 1), TaskNumbers(kinds, n - 1), PartLines(kinds, n - 1))
    ensures Accounted(Scan2After(kinds, near, n), TaskNumbers(kinds, n), PartLines(kinds, n))
  {
    var prev := Scan2After(kinds, near, n - 1);
    Step2Accounted(prev, kinds[n - 1], near[n - 1], TaskNumbers(kinds, n - 1), PartLines(kinds, n - 1),
      TaskNumbers(kinds, n), PartLines(kinds, n));
  }

  lemma {:induction false} Scan2Accounted(kinds: seq<Line2>, near: seq<Option<Image>>, n: nat)
    requires |near| == |kinds| && n <= |kinds|
    ensures Accounted(Scan2After(kinds, near, n), TaskNumbers(kinds, n), PartLines(kinds, n))
  {
    if n > 0 {
      Scan2Accounted(kinds, near, n - 1);
      Scan2AccountedStep(kinds, near, n);
    }
  }

  /**
   * Every task line of the section yields exactly one record, in document
   * order and with that line's number; every `(N)` line after the first
   * task becomes exactly one part; every record is task 2 worth 7 points,
   * and has an image exactly when it lists one.
   */
  lemma Section2Records(lines: seq<String>, images: seq<Image>)
    ensures var numbers := TaskNumbers(Classes2(lines), |lines|);
      |Section2Of(lines, images)| == |numbers|
      && forall k :: 0 <= k < |numbers| ==> Section2Of(lines, images)[k].subQuestionNumber == numbers[k]
    ensures PartTotal(Section2Of(lines, images)) == PartLines(Classes2(lines), |lines|)
    ensures forall q | q in Section2Of(lines, images) :: WellFormed(q)
  {
    Scan2Accounted(Classes2(lines), NearImages(images, |lines|), |lines|);
  }
}
