/**
 * The pattern-based extraction of the exam service: the exam's markdown is
 * split into its two sections by heading lines, section one is scanned line
 * by line for numbered questions and lettered options, and section two for
 * `2.N.` tasks with `(N)` parts. Where the images sit, and what each one is
 * for, comes in as input.
 */
module AnthropicService {
  import opened Wrappers
  import opened JsText
  import Points

  // ---------------------------------------------------------------------
  // Images found in the markdown

  datatype ImageKind = OptionImage | QuestionImage | UnknownImage

  /** One image of the markdown: its URL, the line it sits on, and its guessed role. */
  datatype Image = Image(url: String, lineNumber: int, kind: ImageKind)

  /** The image is at most two lines away from `lineIndex`. */
  predicate Near(image: Image, lineIndex: int) {
    -2 <= image.lineNumber - lineIndex <= 2
  }

  /** Index of the first image at or after `from` that is near `lineIndex`. */
  function FirstNear(images: seq<Image>, lineIndex: int, from: nat): (r: Option<nat>)
    requires from <= |images|
    ensures r.Some? ==> from <= r.value < |images| && Near(images[r.value], lineIndex)
    ensures forall j :: from <= j < |images| && (r.None? || j < r.value) ==> !Near(images[j], lineIndex)
    decreases |images| - from
  {
    if from == |images| then None
    else if Near(images[from], lineIndex) then Some(from)
    else FirstNear(images, lineIndex, from + 1)
  }

  /** `allImages.find(img => Math.abs(img.lineNumber - lineIndex) <= 2)`. */
  function ImageNear(images: seq<Image>, lineIndex: int): Option<Image> {
    match FirstNear(images, lineIndex, 0)
    case None => None
    case Some(k) => Some(images[k])
  }

  // ---------------------------------------------------------------------
  // getImageContext

  function Max(a: int, b: int): int { if a < b then b else a }

  /**
   * The lines `getImageContext` keeps around line `i`: exactly the lines
   * whose index is within `radius` of `i`, in order, and so never more
   * than `2 * radius + 1` of them.
   */
  function ContextLines(lines: seq<String>, i: int, radius: nat): (r: seq<String>)
    requires 0 <= i
    ensures |r| <= 2 * radius + 1
    ensures var a := Max(0, i - radius);
      forall k :: 0 <= k < |r| ==> a + k < |lines| && i - radius <= a + k <= i + radius && r[k] == lines[a + k]
    ensures var a := Max(0, i - radius);
      forall j :: 0 <= j < |lines| && i - radius <= j <= i + radius ==> a <= j < a + |r| && r[j - a] == lines[j]
  {
    var start := Max(0, i - radius);
    var end := if |lines| - 1 < i + radius then |lines| - 1 else i + radius;
    if end + 1 <= start then [] else lines[start..end + 1]
  }

  /** `getImageContext(lines, i, radius)`: the nearby lines joined by newlines. */
  function ImageContext(lines: seq<String>, i: int, radius: nat): String
    requires 0 <= i
  {
    Join(ContextLines(lines, i, radius), "\n")
  }

  // ---------------------------------------------------------------------
  // normalizeOptionLabel

  /** `[A-EА-Е]`: the letters the option-line pattern accepts (it has no `i` flag). */
  predicate IsOptionLabel(c: char) { 'A' <= c <= 'E' || 'А' <= c <= 'Е' }

  /**
   * `normalizeOptionLabel`: the six Cyrillic letters А–Е, in either case,
   * go to A, B, C, D, E, E; anything else is upper-cased. Every letter the
   * option pattern accepts ends up as one of A–E. (The source is only ever
   * called with the one captured letter.)
   */
  function NormalizeOptionLabel(letter: char): (r: String)
    ensures 'А' <= letter <= 'Е' ==> r == ["ABCDEE"[letter as int - 'А' as int]]
    ensures 'а' <= letter <= 'е' ==> r == ["ABCDEE"[letter as int - 'а' as int]]
    ensures !('А' <= letter <= 'Е') && !('а' <= letter <= 'е') ==> r == [UpperChar(letter)]
    ensures IsOptionLabel(letter) ==> |r| == 1 && 'A' <= r[0] <= 'E'
  {
    match letter
    case 'А' => "A" case 'Б' => "B" case 'В' => "C" case 'Г' => "D" case 'Д' => "E" case 'Е' => "E"
    case 'а' => "A" case 'б' => "B" case 'в' => "C" case 'г' => "D" case 'д' => "E" case 'е' => "E"
    case _ => [UpperChar(letter)]
  }

  // ---------------------------------------------------------------------
  // The section-one question patterns

  /** A question number and the text captured after it. */
  datatype Capture = Capture(number: nat, text: String)

  /** The separators `[.．]`: an ASCII or a full-width period. */
  const Periods: String := ".．"

  lemma DigitsSlice(s: String, p: nat, d: nat)
    requires p <= d <= |s| && forall k :: p <= k < d ==> IsDigit(s[k])
    ensures AllDigits(s[p..d])
  {
  }

  /** `(\d+)[seps]\s*(.+)` anchored at `p`. */
  function NumberedAt(s: String, p: nat, seps: String): (r: Option<Capture>)
    requires p <= |s|
    ensures r.Some? ==> |r.value.text| > 0
  {
    var d := SkipDigits(s, p);
    if d == p || d >= |s| || s[d] !in seps then None
    else
      DigitsSlice(s, p, d);
      match SpacesThenRest(s, d + 1, false)
      case None => None
      case Some(t) => Some(Capture(DigitsValue(s[p..d]), t))
  }

  /** `/^word\s+(\d+)[seps]\s*(.+)/i`. */
  function WordThenNumbered(s: String, word: String, seps: String): Option<Capture> {
    if !OccursAtIgnoringCase(s, word, 0) then None
    else
      var w := SkipSpaces(s, |word|);
      if w == |word| then None else NumberedAt(s, w, seps)
  }

  /** `/^№?\s*(\d+)[.．]\s*(.+)/`: an optional `№` is taken when present. */
  function NumeroNumbered(s: String): Option<Capture> {
    if |s| > 0 && s[0] == '№' then NumberedAt(s, SkipSpaces(s, 1), Periods)
    else NumberedAt(s, SkipSpaces(s, 0), Periods)
  }

  /** `/(\d+)[.．]\s*(.+)/` unanchored: the leftmost start at or after `from`. */
  function FirstNumbered(s: String, from: nat): (r: Option<Capture>)
    requires from <= |s|
    ensures r.None? ==> forall p :: from <= p <= |s| ==> NumberedAt(s, p, Periods).None?
    ensures r.Some? ==> |r.value.text| > 0
    decreases |s| - from
  {
    if NumberedAt(s, from, Periods).Some? then NumberedAt(s, from, Periods)
    else if from == |s| then None
    else FirstNumbered(s, from + 1)
  }

  /** The section-one question patterns, tried in the order the source lists them. */
  function QuestionPattern(k: nat, line: String): (r: Option<Capture>)
    requires k < 5
    ensures r.Some? ==> |r.value.text| > 0
  {
    if k == 0 then NumberedAt(line, 0, Periods)
    else if k == 1 then WordThenNumbered(line, "Бодлого", Periods)
    else if k == 2 then WordThenNumbered(line, "Асуулт", ":.")
    else if k == 3 then NumeroNumbered(line)
    else FirstNumbered(line, 0)
  }

  /** The match of the first pattern, from the `k`-th on, that matches. */
  function FirstPatternFrom(line: String, k: nat): (r: Option<Capture>)
    requires k <= 5
    ensures r.Some? ==> |r.value.text| > 0
    ensures r.None? && k < 5 ==> QuestionPattern(4, line).None?
    // `line` is named as well so that the verifier does not unroll all five
    // patterns wherever the search is started from the constant 0
    decreases 5 - k, |line|
  {
    if k == 5 then None
    else if QuestionPattern(k, line).Some? then QuestionPattern(k, line)
    else FirstPatternFrom(line, k + 1)
  }

  /**
   * The question match of a section-one line. The last pattern matches a
   * number followed by a period anywhere, so a line without a match has no
   * `digits[.．]` followed by text anywhere.
   */
  function QuestionMatch(line: String): (r: Option<Capture>)
    ensures r.None? ==> forall p :: 0 <= p <= |line| ==> NumberedAt(line, p, Periods).None?
    ensures r.Some? ==> |r.value.text| > 0
  {
    FirstPatternFrom(line, 0)
  }

  /** The `for (const pattern of questionPatterns)` loop with its `break`. */
  method MatchQuestionLine(line: String) returns (questionMatch: Option<Capture>)
    ensures questionMatch == QuestionMatch(line)
  {
    questionMatch := None;
    var k := 0;
    while k < 5
      invariant k <= 5
      invariant questionMatch.None? && FirstPatternFrom(line, k) == QuestionMatch(line)
      decreases 5 - k
    {
      var m := QuestionPattern(k, line);
      if m.Some? {
        questionMatch := m;
        return;
      }
      k := k + 1;
    }
  }

  // ---------------------------------------------------------------------
  // detectEmbeddedQuestions

  predicate IsPeriod(c: char) { c == '.' || c == '．' }

  /** The look-ahead `(?=\s*\d+[.．]|$)` at `e` (no `m` flag: `$` is the end of the line). */
  predicate NumberAheadAt(s: String, e: nat)
    requires e <= |s|
  {
    e == |s| || (var w := SkipSpaces(s, e); var d := SkipDigits(s, w); d > w && d < |s| && IsPeriod(s[d]))
  }

  /** The end of the lazy `(.+?)`: the first `e`, from the given one on, where the look-ahead holds. */
  function LazyEnd(s: String, e: nat): (r: Option<nat>)
    requires 1 <= e <= |s|
    ensures r.Some? ==> e <= r.value <= |s| && !IsLineTerminator(s[e - 1])
    decreases |s| - e
  {
    if IsLineTerminator(s[e - 1]) then None
    else if NumberAheadAt(s, e) then Some(e)
    else LazyEnd(s, e + 1)
  }

  /**
   * Where `\s*(.+?)` captures when the greedy `\s*` ended at `c`: the engine
   * tries `c` first and gives back one whitespace character at a time, not
   * going below `lo`.
   */
  function LazyCapture(s: String, lo: nat, c: nat): (r: Option<(nat, nat)>)
    requires lo <= c <= |s|
    ensures r.Some? ==> lo <= r.value.0 <= c && r.value.0 < r.value.1 <= |s| && !IsLineTerminator(s[r.value.0])
    decreases c
  {
    var here := if c < |s| then LazyEnd(s, c + 1) else None;
    if here.Some? then Some((c, here.value))
    else if c > lo then LazyCapture(s, lo, c - 1)
    else None
  }

  /** One match of the embedded-question pattern: its number, its lazy capture, and where it ends. */
  datatype EmbeddedMatch = EmbeddedMatch(number: nat, text: String, end: nat)

  /** `(\d+)[.．]\s*(.+?)(?=\s*\d+[.．]|$)` anchored at `p`. */
  function EmbeddedAt(s: String, p: nat): (r: Option<EmbeddedMatch>)
    requires p <= |s|
    ensures r.Some? ==> p < r.value.end <= |s|
  {
    var d := SkipDigits(s, p);
    if d == p || d >= |s| || !IsPeriod(s[d]) then None
    else
      DigitsSlice(s, p, d);
      match LazyCapture(s, d + 1, SkipSpaces(s, d + 1))
      case None => None
      case Some((c, e)) => Some(EmbeddedMatch(DigitsValue(s[p..d]), s[c..e], e))
  }

  /** An embedded match at `p` needs the greedy fallback question pattern to match at `p` too. */
  lemma EmbeddedNeedsNumbered(s: String, p: nat)
    requires p <= |s| && EmbeddedAt(s, p).Some?
    ensures NumberedAt(s, p, Periods).Some?
  {
    var d := SkipDigits(s, p);
    var w := SkipSpaces(s, d + 1);
    var c := LazyCapture(s, d + 1, w).value.0;
    assert d + 1 <= c <= w && c < |s| && !IsLineTerminator(s[c]);
    assert DotPlusStart(s, d + 1, w).Some?;
  }

  /** The leftmost embedded match at or after `from` (the global `exec` search). */
  function FirstEmbedded(s: String, from: nat): (r: Option<EmbeddedMatch>)
    requires from <= |s|
    ensures r.Some? ==> from < r.value.end <= |s|
    decreases |s| - from
  {
    if EmbeddedAt(s, from).Some? then EmbeddedAt(s, from)
    else if from == |s| then None
    else FirstEmbedded(s, from + 1)
  }

  /** `/\s+\d+[.．].*$/` at `p`: a numbered tail that runs to the end of the text. */
  predicate TrailingNumberAt(s: String, p: nat)
    requires p <= |s|
  {
    var w := SkipSpaces(s, p);
    var d := SkipDigits(s, w);
    w > p && d > w && d < |s| && IsPeriod(s[d]) && LineEnd(s, d + 1) == |s|
  }

  function FirstTrailingNumber(s: String, from: nat): (r: Option<nat>)
    requires from <= |s|
    ensures r.Some? ==> from <= r.value <= |s| && TrailingNumberAt(s, r.value)
    decreases |s| - from
  {
    if TrailingNumberAt(s, from) then Some(from)
    else if from == |s| then None
    else FirstTrailingNumber(s, from + 1)
  }

  /** `.replace(/\s+\d+[.．].*$/, '')`. */
  function RemoveTrailingNumber(s: String): (r: String)
    ensures |r| <= |s| && r == s[..|r|]
  {
    match FirstTrailingNumber(s, 0)
    case None => s
    case Some(p) => s[..p]
  }

  /** A question found inside a line. */
  datatype Embedded = Embedded(number: nat, text: String)

  /** The cleanup and the validity test applied to one match. */
  function KeptEmbedded(m: EmbeddedMatch): (r: seq<Embedded>)
    ensures |r| <= 1
    ensures forall e :: e in r ==> e.number > 0 && JsLength(e.text) > 10 && e.number == m.number
  {
    var text := Trim(RemoveTrailingNumber(Trim(m.text)));
    if m.number > 0 && JsLength(text) > 10 then [Embedded(m.number, text)] else []
  }

  /** The kept embedded questions of the `exec` loop started at `from`. */
  function EmbeddedFrom(s: String, from: nat): seq<Embedded>
    requires from <= |s|
    decreases |s| - from
  {
    match FirstEmbedded(s, from)
    case None => []
    case Some(m) => KeptEmbedded(m) + EmbeddedFrom(s, m.end)
  }

  lemma EmbeddedFromStep(s: String, from: nat)
    requires from <= |s| && FirstEmbedded(s, from).Some?
    ensures EmbeddedFrom(s, from) == KeptEmbedded(FirstEmbedded(s, from).value) + EmbeddedFrom(s, FirstEmbedded(s, from).value.end)
  {
  }

  /** `detectEmbeddedQuestions(line)`: the `exec` loop and its filter. */
  method DetectEmbeddedQuestions(line: String) returns (embedded: seq<Embedded>)
    ensures embedded == EmbeddedFrom(line, 0)
  {
    embedded := [];
    var from := 0;
    var m := FirstEmbedded(line, from);
    while m.Some?
      invariant from <= |line| && m == FirstEmbedded(line, from)
      invariant embedded + EmbeddedFrom(line, from) == EmbeddedFrom(line, 0)
      decreases |line| - from
    {
      ghost var rest := EmbeddedFrom(line, m.value.end);
      EmbeddedFromStep(line, from);
      AppendAssoc(embedded, KeptEmbedded(m.value), rest);
      embedded := embedded + KeptEmbedded(m.value);
      from := m.value.end;
      m := FirstEmbedded(line, from);
    }
  }

  lemma {:induction false} NoEmbeddedFrom(s: String, from: nat)
    requires from <= |s|
    requires forall p :: 0 <= p <= |s| ==> NumberedAt(s, p, Periods).None?
    ensures FirstEmbedded(s, from).None?
    decreases |s| - from
  {
    if EmbeddedAt(s, from).Some? {
      EmbeddedNeedsNumbered(s, from);
    } else if from < |s| {
      NoEmbeddedFrom(s, from + 1);
    }
  }

  /**
   * The embedded-question branch of the section-one scan can never fire:
   * it is only tried on lines no question pattern matched, and on such a
   * line the embedded pattern finds nothing.
   */
  lemma EmbeddedBranchUnreachable(line: String)
    requires QuestionMatch(line).None?
    ensures EmbeddedFrom(line, 0) == []
  {
    NoEmbeddedFrom(line, 0);
  }

  /** `line.search(/\d+[.．]/)`, with -1 for no match. */
  function SearchNumberPeriod(s: String, from: nat): (r: int)
    requires from <= |s|
    ensures r == -1 || from <= r < |s|
    decreases |s| - from
  {
    if from == |s| then -1
    else
      var d := SkipDigits(s, from);
      if d > from && d < |s| && IsPeriod(s[d]) then from else SearchNumberPeriod(s, from + 1)
  }

  // ---------------------------------------------------------------------
  // splitIntoSections

  /** Which section the scan is adding lines to. */
  datatype Active = BeforeSections | FirstSection | SecondSection

  /** `/бодлого 1-\d+/i` at or after `from`. */
  function ProblemRangeFrom(s: String, from: nat): bool
    requires from <= |s|
    decreases |s| - from
  {
    (OccursAtIgnoringCase(s, "бодлого 1-", from) && from + 10 < |s| && IsDigit(s[from + 10]))
    || (from < |s| && ProblemRangeFrom(s, from + 1))
  }

  /** One of the section-one heading patterns matches the line. */
  predicate SectionOneMarker(line: String) {
    ContainsIgnoringCase(line, "нэгдүгээр хэсэг") || ContainsIgnoringCase(line, "section 1") || ProblemRangeFrom(line, 0)
  }

  /** One of the section-two heading patterns matches the line. */
  predicate SectionTwoMarker(line: String) {
    ContainsIgnoringCase(line, "хоёрдугаар хэсэг") || ContainsIgnoringCase(line, "section 2")
    || ContainsIgnoringCase(line, "нөхөх даалгавар")
  }

  /** The section a heading line opens (section one is tested first), or none. */
  function LineMarker(line: String): Active {
    if SectionOneMarker(line) then FirstSection
    else if SectionTwoMarker(line) then SecondSection
    else BeforeSections
  }

  /** The heading kind of every line. */
  function Markers(lines: seq<String>): (r: seq<Active>)
    ensures |r| == |lines|
  {
    if lines == [] then [] else Markers(lines[..|lines| - 1]) + [LineMarker(lines[|lines| - 1])]
  }

  lemma {:induction false} MarkersAt(lines: seq<String>, j: nat)
    requires j < |lines|
    ensures Markers(lines)[j] == LineMarker(lines[j])
  {
    if j < |lines| - 1 {
      MarkersAt(lines[..|lines| - 1], j);
    }
  }

  /** The `if / else if` on the markers: a heading line switches the active section. */
  function NextActive(current: Active, marker: Active): Active {
    if marker == BeforeSections then current else marker
  }

  /** The active section once the first `n` lines, whose heading kinds are `marks`, have been read. */
  function ActiveAfter(marks: seq<Active>, n: nat): Active
    requires n <= |marks|
  {
    if n == 0 then BeforeSections else NextActive(ActiveAfter(marks, n - 1), marks[n - 1])
  }

  /** A line as a section holds it: followed by a newline. */
  function Entry(line: String): String { line + "\n" }

  /** The text of section `which` once the first `n` lines have been read. */
  function SectionText(lines: seq<String>, marks: seq<Active>, n: nat, which: Active): String
    requires |marks| == |lines| && n <= |lines|
  {
    if n == 0 then []
    else SectionText(lines, marks, n - 1, which) + (if ActiveAfter(marks, n) == which then Entry(lines[n - 1]) else [])
  }

  /** One turn of the `lines.forEach` in `splitIntoSections`. */
  method SectionLine(current: Active, section1: String, section2: String, line: String)
    returns (next: Active, section1': String, section2': String)
    ensures next == NextActive(current, LineMarker(line))
    ensures section1' == section1 + (if next == FirstSection then Entry(line) else [])
    ensures section2' == section2 + (if next == SecondSection then Entry(line) else [])
  {
    next := current;
    if SectionOneMarker(line) {
      next := FirstSection;
    } else if SectionTwoMarker(line) {
      next := SecondSection;
    }
    section1', section2' := section1, section2;
    if next == FirstSection {
      section1' := section1 + line + "\n";
    } else if next == SecondSection {
      section2' := section2 + line + "\n";
    }
  }

  /** One turn of the `forEach`, at line `i`. */
  method SectionLineAt(current: Active, section1: String, section2: String, lines: seq<String>, i: nat,
                       ghost marks: seq<Active>)
    returns (next: Active, section1': String, section2': String)
    requires marks == Markers(lines) && i < |lines| && current == ActiveAfter(marks, i)
    requires section1 == SectionText(lines, marks, i, FirstSection)
    requires section2 == SectionText(lines, marks, i, SecondSection)
    ensures next == ActiveAfter(marks, i + 1)
    ensures section1' == SectionText(lines, marks, i + 1, FirstSection)
    ensures section2' == SectionText(lines, marks, i + 1, SecondSection)
  {
    MarkersAt(lines, i);
    next, section1', section2' := SectionLine(current, section1, section2, lines[i]);
  }

  /** `splitIntoSections(markdown)`. */
  method SplitIntoSections(markdown: String) returns (section1: String, section2: String)
    ensures var lines := Split(markdown, '\n');
      && section1 == SectionText(lines, Markers(lines), |lines|, FirstSection)
      && section2 == SectionText(lines, Markers(lines), |lines|, SecondSection)
  {
    var lines := Split(markdown, '\n');
    section1, section2 := SectionLines(lines);
  }

  /** The `lines.forEach` of `splitIntoSections`. */
  method SectionLines(lines: seq<String>) returns (section1: String, section2: String)
    ensures section1 == SectionText(lines, Markers(lines), |lines|, FirstSection)
    ensures section2 == SectionText(lines, Markers(lines), |lines|, SecondSection)
  {
    ghost var marks := Markers(lines);
    section1, section2 := [], [];
    var current := BeforeSections;
    var i := 0;
    while i < |lines|
      invariant i <= |lines|
      invariant current == ActiveAfter(marks, i)
      invariant section1 == SectionText(lines, marks, i, FirstSection)
      invariant section2 == SectionText(lines, marks, i, SecondSection)
    {
      current, section1, section2 := SectionLineAt(current, section1, section2, lines, i, marks);
      i := i + 1;
    }
  }

  /** Lines `k` to `n - 1`, each followed by a newline. */
  function WithNewlines(lines: seq<String>, k: nat, n: nat): String
    requires k <= n <= |lines|
  {
    if n == k then [] else WithNewlines(lines, k, n - 1) + Entry(lines[n - 1])
  }

  /** Until a heading line, no line goes to either section. */
  lemma {:induction false} NoMarkerNoSection(lines: seq<String>, marks: seq<Active>, n: nat, which: Active)
    requires |marks| == |lines| && n <= |lines|
    requires forall j :: 0 <= j < n ==> marks[j] == BeforeSections
    requires which != BeforeSections
    ensures ActiveAfter(marks, n) == BeforeSections && SectionText(lines, marks, n, which) == []
  {
    if n > 0 {
      NoMarkerNoSection(lines, marks, n - 1, which);
    }
  }

  /** After heading line `k`, and until the next one, the active section is the one it opened. */
  lemma {:induction false} ActiveAfterMarker(marks: seq<Active>, k: nat, n: nat)
    requires k < n <= |marks| && marks[k] != BeforeSections
    requires forall j :: k < j < n ==> marks[j] == BeforeSections
    ensures ActiveAfter(marks, n) == marks[k]
  {
    if n > k + 1 {
      ActiveAfterMarker(marks, k, n - 1);
    }
  }

  /** The section a heading line opens receives every line up to the next heading, each with a newline. */
  lemma {:induction false} LinesFollowMarker(lines: seq<String>, marks: seq<Active>, k: nat, n: nat)
    requires |marks| == |lines| && k < n <= |lines| && marks[k] != BeforeSections
    requires forall j :: k < j < n ==> marks[j] == BeforeSections
    ensures ActiveAfter(marks, n) == marks[k]
    ensures SectionText(lines, marks, n, marks[k]) == SectionText(lines, marks, k, marks[k]) + WithNewlines(lines, k, n)
  {
    ActiveAfterMarker(marks, k, n);
    SectionTextStep(lines, marks, n, marks[k]);
    WithNewlinesStep(lines, k, n);
    if n > k + 1 {
      LinesFollowMarker(lines, marks, k, n - 1);
      AppendAssoc(SectionText(lines, marks, k, marks[k]), WithNewlines(lines, k, n - 1), Entry(lines[n - 1]));
    }
  }

  lemma SectionTextStep(lines: seq<String>, marks: seq<Active>, n: nat, which: Active)
    requires |marks| == |lines| && 0 < n <= |lines|
    ensures SectionText(lines, marks, n, which)
      == SectionText(lines, marks, n - 1, which) + (if ActiveAfter(marks, n) == which then Entry(lines[n - 1]) else [])
  {
  }

  lemma WithNewlinesStep(lines: seq<String>, k: nat, n: nat)
    requires k < n <= |lines|
    ensures WithNewlines(lines, k, n) == WithNewlines(lines, k, n - 1) + Entry(lines[n - 1])
  {
  }


  /** The other section does not change from a heading line until the next one. */
  lemma {:induction false} OtherSectionUnchanged(lines: seq<String>, marks: seq<Active>, k: nat, n: nat, which: Active)
    requires |marks| == |lines| && k < n <= |lines| && marks[k] != BeforeSections && which != marks[k]
    requires forall j :: k < j < n ==> marks[j] == BeforeSections
    ensures SectionText(lines, marks, n, which) == SectionText(lines, marks, k, which)
  {
    ActiveAfterMarker(marks, k, n);
    if n > k + 1 {
      OtherSectionUnchanged(lines, marks, k, n - 1, which);
    }
  }

  // ---------------------------------------------------------------------
  // extractSection1Questions

  /** `/^\s*([A-EА-Е])[.)]\s*(.+)/`: the option letter and its captured text. */
  function OptionLine(line: String): (r: Option<(char, String)>)
    ensures r.Some? ==> IsOptionLabel(r.value.0)
  {
    var w := SkipSpaces(line, 0);
    if w + 1 < |line| && IsOptionLabel(line[w]) && (line[w + 1] == '.' || line[w + 1] == ')') then
      match SpacesThenRest(line, w + 2, false)
      case None => None
      case Some(t) => Some((line[w], t))
    else None
  }

  /** `/^\s*$/`. */
  predicate Blank(line: String) { SkipSpaces(line, 0) == |line| }

  /** `/^\s*[A-E]/`. */
  predicate LatinLetterFirst(line: String) {
    var w := SkipSpaces(line, 0);
    w < |line| && 'A' <= line[w] <= 'E'
  }

  /** The question being read: its number, its text so far, and its points. */
  datatype OpenQuestion = OpenQuestion(number: nat, question: String, points: nat)

  /** An option as read, before rendering. */
  datatype OptionEntry = OptionEntry(optionLabel: String, text: String)

  datatype QuestionKind = MultipleChoice | ImageBasedMultipleChoice

  /** A section-one question as `finalizeQuestion` assembles it. */
  datatype ChoiceQuestion = ChoiceQuestion(
    questionNumber: nat, question: String, points: nat, kind: QuestionKind, hasImage: bool,
    options: seq<String>, optionLabels: seq<String>,
    questionImages: seq<String>, optionImages: seq<String>, imageDescription: Option<String>)

  /** `generateImageDescription`: option images first, then keywords of the question text. */
  function ImageDescription(question: String, questionImages: seq<String>, optionImages: seq<String>): (r: Option<String>)
    ensures r.Some? <==> |questionImages| > 0 || |optionImages| > 0
    ensures |optionImages| > 0 ==> r == Some(NatToString(|optionImages|) + " option images for multiple choice")
  {
    if |optionImages| > 0 then Some(NatToString(|optionImages|) + " option images for multiple choice")
    else if |questionImages| > 0 then
      if ContainsIgnoringCase(question, "график") then Some("Graph diagram")
      else if ContainsIgnoringCase(question, "геометр") || ContainsIgnoringCase(question, "тойрог")
        || ContainsIgnoringCase(question, "гурвалжин") || ContainsIgnoringCase(question, "дөрвөлжин")
      then Some("Geometry diagram")
      else if ContainsIgnoringCase(question, "функц") then Some("Function diagram")
      else Some("Question diagram")
    else None
  }

  /** An option rendered as `L) text`. */
  function RenderOption(option: OptionEntry): String { option.optionLabel + ") " + option.text }

  /**
   * `finalizeQuestion`: the options are rendered as `L) text`, and the
   * labels listed beside them in the same order; the question has an image
   * exactly when one of the image lists is non-empty.
   */
  function Finalize(q: OpenQuestion, options: seq<OptionEntry>, questionImages: seq<String>, optionImages: seq<String>)
    : (r: ChoiceQuestion)
    ensures r.questionNumber == q.number && r.question == q.question && r.points == q.points && r.kind == MultipleChoice
    ensures |r.options| == |r.optionLabels| == |options|
    ensures forall k :: 0 <= k < |options| ==>
      r.optionLabels[k] == options[k].optionLabel && r.options[k] == r.optionLabels[k] + ") " + options[k].text
    ensures r.hasImage <==> |questionImages| > 0 || |optionImages| > 0
    ensures r.imageDescription.Some? <==> r.hasImage
    ensures r.questionImages == questionImages && r.optionImages == optionImages
  {
    ChoiceQuestion(
      q.number, q.question, q.points, MultipleChoice, |questionImages| > 0 || |optionImages| > 0,
      seq(|options|, k requires 0 <= k < |options| => RenderOption(options[k])),
      seq(|options|, k requires 0 <= k < |options| => options[k].optionLabel),
      questionImages, optionImages, ImageDescription(q.question, questionImages, optionImages))
  }

  /** What a section-one line is to the `if / else if / else if` of the scan. */
  datatype Line1 =
    | QuestionLine(number: nat, text: String)
    | OptionText(letter: char, text: String)
    | TextLine(line: String, embedded: seq<Embedded>)
    | OtherLine

  /**
   * How the scan classifies a line: a question pattern wins, then the
   * option pattern, then any non-blank line not starting with A–E extends
   * the open question. The embedded questions of a text line are always
   * none, since no question pattern matched it.
   */
  function Classify1(line: String): (r: Line1)
    ensures r.TextLine? ==> r.embedded == []
  {
    match QuestionMatch(line)
    case Some(m) => QuestionLine(m.number, m.text)
    case None =>
      match OptionLine(line)
      case Some((letter, text)) => OptionText(letter, text)
      case None =>
        if !Blank(line) && !LatinLetterFirst(line) then
          EmbeddedBranchUnreachable(line);
          TextLine(line, EmbeddedFrom(line, 0))
        else OtherLine
  }

  /** The kinds of the lines. */
  function Classes1(lines: seq<String>): (r: seq<Line1>)
    ensures |r| == |lines|
  {
    if lines == [] then [] else Classes1(lines[..|lines| - 1]) + [Classify1(lines[|lines| - 1])]
  }

  lemma {:induction false} Classes1At(lines: seq<String>, j: nat)
    requires j < |lines|
    ensures Classes1(lines)[j] == Classify1(lines[j])
  {
    var n := |lines| - 1;
    if j < n {
      Classes1At(lines[..n], j);
    }
  }

  /** The image `find` returns for each of the first `count` lines. */
  function NearImages(images: seq<Image>, count: nat): (r: seq<Option<Image>>)
    ensures |r| == count
  {
    if count == 0 then [] else NearImages(images, count - 1) + [ImageNear(images, count - 1)]
  }

  lemma {:induction false} NearImagesAt(images: seq<Image>, count: nat, j: nat)
    requires j < count
    ensures NearImages(images, count)[j] == ImageNear(images, j)
  {
    if j < count - 1 {
      NearImagesAt(images, count - 1, j);
    }
  }

  /** The state of the section-one scan between two lines. */
  datatype Scan1 = Scan1(
    current: Option<OpenQuestion>, options: seq<OptionEntry>,
    questionImages: seq<String>, optionImages: seq<String>, questions: seq<ChoiceQuestion>)

  const Start1 := Scan1(None, [], [], [], [])

  /** What saving the open question adds to the list: nothing when none is open. */
  function Pending(st: Scan1): seq<ChoiceQuestion> {
    match st.current
    case None => []
    case Some(q) => [Finalize(q, st.options, st.questionImages, st.optionImages)]
  }

  /** The records pushed for embedded questions, which start without options or images. */
  function EmbeddedRecords(embedded: seq<Embedded>): seq<ChoiceQuestion> {
    seq(|embedded|, k requires 0 <= k < |embedded| =>
      Finalize(OpenQuestion(embedded[k].number, embedded[k].text, Points.DeterminePoints(embedded[k].number)), [], [], []))
  }

  /** The embedded branch: close the open question at the first `digits[.．]` and save the embedded ones. */
  function SplitEmbedded(st: Scan1, q: OpenQuestion, line: String, embedded: seq<Embedded>): Scan1 {
    var cut := SearchNumberPeriod(line, 0);
    var before := Trim(line[..if cut < 0 then 0 else cut]);
    var closed := if before != [] then q.(question := q.question + " " + before) else q;
    Scan1(None, [], [], [], st.questions + [Finalize(closed, st.options, st.questionImages, st.optionImages)]
      + EmbeddedRecords(embedded))
  }

  /** What one line does to the scan, before its image is looked up. */
  function ReadLine1(st: Scan1, kind: Line1): Scan1 {
    match kind
    case QuestionLine(number, text) =>
      Scan1(Some(OpenQuestion(number, Trim(text), Points.DeterminePoints(number))), [], [], [], st.questions + Pending(st))
    case OptionText(letter, text) =>
      if st.current.None? then st
      else st.(options := st.options + [OptionEntry(NormalizeOptionLabel(letter), Trim(text))])
    case TextLine(line, embedded) =>
      if st.current.None? then st
      else if |embedded| > 0 then SplitEmbedded(st, st.current.value, line, embedded)
      else st.(current := Some(st.current.value.(question := st.current.value.question + " " + Trim(line))))
    case OtherLine => st
  }

  /** The image near the line goes to the open question's option or question images. */
  function AttachImage1(st: Scan1, image: Option<Image>): Scan1 {
    if image.None? || st.current.None? then st
    else match image.value.kind
      case OptionImage => st.(optionImages := st.optionImages + [image.value.url])
      case QuestionImage => st.(questionImages := st.questionImages + [image.value.url])
      case UnknownImage => st
  }

  /** The scan state once the first `n` lines, of the given kinds and with the given nearby images, are read. */
  function Scan1After(kinds: seq<Line1>, near: seq<Option<Image>>, n: nat): Scan1
    requires |near| == |kinds| && n <= |kinds|
  {
    if n == 0 then Start1
    else AttachImage1(ReadLine1(Scan1After(kinds, near, n - 1), kinds[n - 1]), near[n - 1])
  }

  /** What `extractSection1Questions` returns for the lines of a section. */
  function Section1Of(lines: seq<String>, images: seq<Image>): seq<ChoiceQuestion> {
    var st := Scan1After(Classes1(lines), NearImages(images, |lines|), |lines|);
    st.questions + Pending(st)
  }

  /** The embedded branch: the open question is closed and the embedded questions are pushed after it. */
  method CloseAtEmbedded(st: Scan1, q: OpenQuestion, line: String, embeddedQuestions: seq<Embedded>) returns (next: Scan1)
    ensures next == SplitEmbedded(st, q, line, embeddedQuestions)
  {
    var cut := SearchNumberPeriod(line, 0);
    var beforeEmbedded := Trim(line[..if cut < 0 then 0 else cut]);
    var closed := q;
    if beforeEmbedded != [] {
      closed := q.(question := q.question + " " + beforeEmbedded);
    }
    var questions := st.questions + [Finalize(closed, st.options, st.questionImages, st.optionImages)];
    var records := SaveEmbedded(embeddedQuestions);
    next := Scan1(None, [], [], [], questions + records);
  }

  /** The loop of the embedded branch that pushes each embedded question. */
  method SaveEmbedded(embeddedQuestions: seq<Embedded>) returns (records: seq<ChoiceQuestion>)
    ensures records == EmbeddedRecords(embeddedQuestions)
  {
    records := [];
    for k := 0 to |embeddedQuestions|
      invariant records == EmbeddedRecords(embeddedQuestions[..k])
    {
      var embedded := embeddedQuestions[k];
      var record := Finalize(OpenQuestion(embedded.number, embedded.text, Points.DeterminePoints(embedded.number)), [], [], []);
      assert EmbeddedRecords(embeddedQuestions[..k + 1]) == EmbeddedRecords(embeddedQuestions[..k]) + [record];
      records := records + [record];
    }
    assert embeddedQuestions[..|embeddedQuestions|] == embeddedQuestions;
  }

  /** The branches a section-one line goes through, before its image is looked up. */
  method ReadSection1Line(st: Scan1, line: String) returns (next: Scan1)
    ensures next == ReadLine1(st, Classify1(line))
  {
    next := st;
    var questionMatch := MatchQuestionLine(line);
    if questionMatch.Some? {
      var questions := st.questions;
      if st.current.Some? {
        questions := questions + [Finalize(st.current.value, st.options, st.questionImages, st.optionImages)];
      }
      var questionNumber := questionMatch.value.number;
      next := Scan1(Some(OpenQuestion(questionNumber, Trim(questionMatch.value.text), Points.DeterminePoints(questionNumber))),
        [], [], [], questions);
    } else if OptionLine(line).Some? {
      var (letter, text) := OptionLine(line).value;
      if st.current.Some? {
        next := st.(options := st.options + [OptionEntry(NormalizeOptionLabel(letter), Trim(text))]);
      }
    } else if st.current.Some? && !Blank(line) && !LatinLetterFirst(line) {
      var embeddedQuestions := DetectEmbeddedQuestions(line);
      var q := st.current.value;
      if |embeddedQuestions| > 0 {
        next := CloseAtEmbedded(st, q, line, embeddedQuestions);
      } else {
        next := st.(current := Some(q.(question := q.question + " " + Trim(line))));
      }
    }
  }

  /** One turn of the `lines.forEach` in `extractSection1Questions`. */
  method ScanLine1(st: Scan1, line: String, lineIndex: nat, allImages: seq<Image>) returns (next: Scan1)
    ensures next == AttachImage1(ReadLine1(st, Classify1(line)), ImageNear(allImages, lineIndex))
  {
    next := ReadSection1Line(st, line);
    var imageOnLine := ImageNear(allImages, lineIndex);
    if imageOnLine.Some? && next.current.Some? {
      match imageOnLine.value.kind
      case OptionImage => next := next.(optionImages := next.optionImages + [imageOnLine.value.url]);
      case QuestionImage => next := next.(questionImages := next.questionImages + [imageOnLine.value.url]);
      case UnknownImage =>
    }
  }

  /** One turn of the scan's loop, at `lineIndex`. */
  method ScanLine1At(st: Scan1, lines: seq<String>, lineIndex: nat, allImages: seq<Image>,
                     ghost kinds: seq<Line1>, ghost near: seq<Option<Image>>) returns (next: Scan1)
    requires kinds == Classes1(lines) && near == NearImages(allImages, |lines|)
    requires lineIndex < |lines| && st == Scan1After(kinds, near, lineIndex)
    ensures next == Scan1After(kinds, near, lineIndex + 1)
  {
    Classes1At(lines, lineIndex);
    NearImagesAt(allImages, |lines|, lineIndex);
    next := ScanLine1(st, lines[lineIndex], lineIndex, allImages);
  }

  /** The line loop of `extractSection1Questions`. */
  method ScanLines1(lines: seq<String>, allImages: seq<Image>) returns (st: Scan1)
    ensures st == Scan1After(Classes1(lines), NearImages(allImages, |lines|), |lines|)
  {
    ghost var kinds, near := Classes1(lines), NearImages(allImages, |lines|);
    st := Start1;
    var lineIndex := 0;
    while lineIndex < |lines|
      invariant lineIndex <= |lines| && st == Scan1After(kinds, near, lineIndex)
    {
      st := ScanLine1At(st, lines, lineIndex, allImages, kinds, near);
      lineIndex := lineIndex + 1;
    }
  }

  /** `extractSection1Questions(sectionText, allImages)`. */
  method ExtractSection1Questions(sectionText: String, allImages: seq<Image>) returns (questions: seq<ChoiceQuestion>)
    ensures questions == Section1Of(Split(sectionText, '\n'), allImages)
  {
    var lines := Split(sectionText, '\n');
    var st := ScanLines1(lines, allImages);
    questions := st.questions;
    if st.current.Some? {
      questions := questions + [Finalize(st.current.value, st.options, st.questionImages, st.optionImages)];
    }
  }

  // ---------------------------------------------------------------------
  // What the section-one scan guarantees

  /** The numbers of the question lines among the first `n` kinds, in order. */
  function HeaderNumbers(kinds: seq<Line1>, n: nat): seq<nat>
    requires n <= |kinds|
  {
    if n == 0 then []
    else HeaderNumbers(kinds, n - 1) + (if kinds[n - 1].QuestionLine? then [kinds[n - 1].number] else [])
  }

  /** A label `normalizeOptionLabel` gives a letter the option pattern accepts. */
  predicate LatinLabel(optionLabel: String) { |optionLabel| == 1 && 'A' <= optionLabel[0] <= 'E' }

  /** A record as `finalizeQuestion` leaves it: its points from its number, one label per option, each in A–E. */
  predicate Finalized(q: ChoiceQuestion) {
    q.points == Points.DeterminePoints(q.questionNumber) && |q.options| == |q.optionLabels|
    && (forall j :: 0 <= j < |q.optionLabels| ==> LatinLabel(q.optionLabels[j]))
    && (q.hasImage <==> |q.questionImages| > 0 || |q.optionImages| > 0)
  }

  /**
   * The invariant of the scan: the saved questions and the open one
   * account for every question line in order; options are only gathered
   * while a question is open.
   */
  predicate Accounted1(st: Scan1, numbers: seq<nat>) {
    var all := st.questions + Pending(st);
    |all| == |numbers|
    && (forall k :: 0 <= k < |numbers| ==> all[k].questionNumber == numbers[k])
    && (forall k :: 0 <= k < |all| ==> Finalized(all[k]))
    && (st.current.Some? <==> |numbers| > 0)
    && (st.current.Some? ==> st.current.value.points == Points.DeterminePoints(st.current.value.number))
    && (forall j :: 0 <= j < |st.options| ==> LatinLabel(st.options[j].optionLabel))
    && (st.current.None? ==> st.options == [] && st.questionImages == [] && st.optionImages == [])
  }

  /** The saved record of a finalized open question is finalized. */
  lemma FinalizeFinalized(q: OpenQuestion, options: seq<OptionEntry>, questionImages: seq<String>, optionImages: seq<String>)
    requires q.points == Points.DeterminePoints(q.number)
    requires forall j :: 0 <= j < |options| ==> LatinLabel(options[j].optionLabel)
    ensures Finalized(Finalize(q, options, questionImages, optionImages))
  {
  }

  /** A question line saves the open question and opens one with its own number. */
  lemma QuestionLineAccounted(st: Scan1, number: nat, text: String, numbers: seq<nat>)
    requires Accounted1(st, numbers)
    ensures Accounted1(ReadLine1(st, QuestionLine(number, text)), numbers + [number])
  {
    if st.current.Some? {
      FinalizeFinalized(st.current.value, st.options, st.questionImages, st.optionImages);
    }
  }

  /** An option line adds one normalised option, and only to an open question. */
  lemma OptionLineAccounted(st: Scan1, letter: char, text: String, numbers: seq<nat>)
    requires Accounted1(st, numbers) && IsOptionLabel(letter)
    ensures Accounted1(ReadLine1(st, OptionText(letter, text)), numbers)
  {
    if st.current.Some? {
      var next := ReadLine1(st, OptionText(letter, text));
      FinalizeFinalized(next.current.value, next.options, next.questionImages, next.optionImages);
    }
  }

  /** A text line without embedded questions only extends the open question's text. */
  lemma TextLineAccounted(st: Scan1, line: String, numbers: seq<nat>)
    requires Accounted1(st, numbers)
    ensures Accounted1(ReadLine1(st, TextLine(line, [])), numbers)
  {
    if st.current.Some? {
      var next := ReadLine1(st, TextLine(line, []));
      FinalizeFinalized(next.current.value, next.options, next.questionImages, next.optionImages);
    }
  }

  /** An image near the line is attached only to an open question. */
  lemma AttachAccounted(st: Scan1, image: Option<Image>, numbers: seq<nat>)
    requires Accounted1(st, numbers)
    ensures Accounted1(AttachImage1(st, image), numbers)
  {
    if st.current.Some? {
      var next := AttachImage1(st, image);
      FinalizeFinalized(next.current.value, next.options, next.questionImages, next.optionImages);
    }
  }

  /** A line the classifier can produce keeps the invariant, adding its number when it is a question line. */
  lemma ReadLineAccounted(st: Scan1, kind: Line1, numbers: seq<nat>, numbers': seq<nat>)
    requires Accounted1(st, numbers)
    requires kind.OptionText? ==> IsOptionLabel(kind.letter)
    requires kind.TextLine? ==> kind.embedded == []
    requires numbers' == numbers + (if kind.QuestionLine? then [kind.number] else [])
    ensures Accounted1(ReadLine1(st, kind), numbers')
  {
    match kind
    case QuestionLine(number, text) => QuestionLineAccounted(st, number, text, numbers);
    case OptionText(letter, text) =>
      assert numbers' == numbers;
      OptionLineAccounted(st, letter, text, numbers);
    case TextLine(line, embedded) =>
      assert numbers' == numbers;
      TextLineAccounted(st, line, numbers);
    case OtherLine => assert numbers' == numbers;
  }

  /** The lines of a real section: option letters are accepted ones and no text line has embedded questions. */
  predicate Classified(kinds: seq<Line1>) {
    forall j :: 0 <= j < |kinds| ==>
      (kinds[j].OptionText? ==> IsOptionLabel(kinds[j].letter)) && (kinds[j].TextLine? ==> kinds[j].embedded == [])
  }

  lemma Scan1AccountedStep(kinds: seq<Line1>, near: seq<Option<Image>>, n: nat)
    requires |near| == |kinds| && 0 < n <= |kinds| && Classified(kinds)
    requires Accounted1(Scan1After(kinds, near, n - 1), HeaderNumbers(kinds, n - 1))
    ensures Accounted1(Scan1After(kinds, near, n), HeaderNumbers(kinds, n))
  {
    var prev := Scan1After(kinds, near, n - 1);
    ReadLineAccounted(prev, kinds[n - 1], HeaderNumbers(kinds, n - 1), HeaderNumbers(kinds, n));
    AttachAccounted(ReadLine1(prev, kinds[n - 1]), near[n - 1], HeaderNumbers(kinds, n));
  }

  lemma {:induction false} Scan1Accounted(kinds: seq<Line1>, near: seq<Option<Image>>, n: nat)
    requires |near| == |kinds| && n <= |kinds| && Classified(kinds)
    ensures Accounted1(Scan1After(kinds, near, n), HeaderNumbers(kinds, n))
  {
    if n > 0 {
      Scan1Accounted(kinds, near, n - 1);
      Scan1AccountedStep(kinds, near, n);
    }
  }

  lemma ClassesClassified(lines: seq<String>)
    ensures Classified(Classes1(lines))
  {
    forall j | 0 <= j < |lines|
      ensures var kind := Classes1(lines)[j];
        (kind.OptionText? ==> IsOptionLabel(kind.letter)) && (kind.TextLine? ==> kind.embedded == [])
    {
      Classes1At(lines, j);
    }
  }

  /**
   * Every question line of section one yields exactly one record, in
   * document order and with that line's number, saved when the next
   * question line starts or at the end; every record scores by the point
   * table, has one label per rendered option, every label in A–E, and an
   * image exactly when it lists one.
   */
  lemma Section1Records(lines: seq<String>, images: seq<Image>)
    ensures var numbers := HeaderNumbers(Classes1(lines), |lines|);
      |Section1Of(lines, images)| == |numbers|
      && forall k :: 0 <= k < |numbers| ==> Section1Of(lines, images)[k].questionNumber == numbers[k]
    ensures forall k :: 0 <= k < |Section1Of(lines, images)| ==> Finalized(Section1Of(lines, images)[k])
  {
    ClassesClassified(lines);
    Scan1Accounted(Classes1(lines), NearImages(images, |lines|), |lines|);
  }
}
