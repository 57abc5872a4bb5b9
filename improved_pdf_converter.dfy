/**
 * The body `createHTMLFromText` of improved_pdf_converter.js builds from a
 * PDF's text: each non-blank line, trimmed, becomes a question heading that
 * opens a question `<div>`, an option `<div>`, a section header, or a
 * paragraph, and a question `<div>` stays open until the next question, the
 * next header or the end. The body is described by a list of blocks, and
 * `Render` turns blocks into the HTML text the loop appends.
 */
module ImprovedPdfConverter {
  import opened Wrappers
  import opened JsText
  import opened HtmlText
  import LineQuestions

  // ---------------------------------------------------------------------
  // `looksLikeHeader`

  const HeaderKeywords: seq<String> := ["хэсэг", "ДААЛГАВАР", "Математик", "Элсэлтийн", "шалгалт"]

  predicate IsCyrillicCapital(c: char) { 'А' <= c <= 'Я' || c == 'Ё' }

  /** `/^\d+\.?\s*[А-ЯЁ]/`: a number, perhaps a dot, perhaps spaces, then a Cyrillic capital. */
  predicate NumberedTitle(line: String) {
    var p := SkipDigits(line, 0);
    var q := if p < |line| && line[p] == '.' then p + 1 else p;
    var r := SkipSpaces(line, q);
    p > 0 && r < |line| && IsCyrillicCapital(line[r])
  }

  predicate HasKeyword(line: String) {
    exists k :: 0 <= k < |HeaderKeywords| && Contains(line, HeaderKeywords[k])
  }

  /** `looksLikeHeader`: shorter than 80, and a keyword, no lower-case letter, or a numbered title. */
  predicate LooksLikeHeader(line: String) {
    JsLength(line) < 80 && (HasKeyword(line) || Upper(line) == line || NumberedTitle(line))
  }

  /**
   * A numbered title is a number (with or without its dot), spaces, and a
   * capital: the capital is the first character after them.
   */
  lemma NumberedTitleShape(line: String)
    requires NumberedTitle(line)
    ensures exists p, r ::
      (0 < p <= r < |line| && AllDigits(line[..p]) && IsCyrillicCapital(line[r])
       && forall k :: p <= k < r ==> line[k] == '.' || IsSpace(line[k]))
  {
    var p := SkipDigits(line, 0);
    var q := if p < |line| && line[p] == '.' then p + 1 else p;
    var r := SkipSpaces(line, q);
    assert AllDigits(line[..p]) by {
      forall k | 0 <= k < p ensures IsDigit(line[..p][k]) {
        assert line[..p][k] == line[k];
      }
    }
  }

  // ---------------------------------------------------------------------
  // Classifying a line

  datatype Kind = QuestionHeading | OptionLine | SectionHeader | Paragraph

  /** `/^[A-E]\./`. */
  predicate StartsWithOptionLetter(t: String) {
    |t| >= 2 && 'A' <= t[0] <= 'E' && t[1] == '.'
  }

  /** The if-chain of the loop: question, then option, then header, then paragraph. */
  function Classify(t: String): Kind {
    if StartsWithNumberDot(t) then QuestionHeading
    else if StartsWithOptionLetter(t) then OptionLine
    else if JsLength(t) < 100 && LooksLikeHeader(t) then SectionHeader
    else Paragraph
  }

  /**
   * A numbered line is a question even when it also looks like an option or
   * a header; a header is a short line that `looksLikeHeader` accepts (its
   * own bound of 80 makes the bound of 100 redundant).
   */
  lemma ClassifyPriority(t: String)
    ensures Classify(t) == QuestionHeading <==> StartsWithNumberDot(t)
    ensures Classify(t) == OptionLine <==> !StartsWithNumberDot(t) && StartsWithOptionLetter(t)
    ensures Classify(t) == SectionHeader <==> !StartsWithNumberDot(t) && !StartsWithOptionLetter(t) && LooksLikeHeader(t)
  {
  }

  // ---------------------------------------------------------------------
  // Blocks and their HTML

  /**
   * A piece of the body: `Close(last)` closes the open question `<div>`
   * (the last one, at the end of the input, is followed by one newline,
   * the others by two); the other blocks carry the line they show.
   */
  datatype Block =
    | Close(last: bool)
    | OpenQuestion(text: String)
    | OptionDiv(text: String)
    | Header(text: String)
    | Para(text: String, inQuestion: bool)

  function RenderBlock(b: Block): String {
    match b
    case Close(last) => if last then "</div>\n" else "</div>\n\n"
    case OpenQuestion(t) => "<div class=\"question\">\n" + "<h4 class=\"question-number\">" + EscapeHtml(t) + "</h4>\n"
    case OptionDiv(t) => "<div class=\"option\">" + EscapeHtml(t) + "</div>\n"
    case Header(t) => "<h2 class=\"section-header\">" + EscapeHtml(t) + "</h2>\n"
    case Para(t, inQuestion) =>
      if inQuestion then "<p class=\"question-text\">" + EscapeHtml(t) + "</p>\n"
      else "<p>" + EscapeHtml(t) + "</p>\n"
  }

  function Render(bs: seq<Block>): String {
    FlatMap(bs, RenderBlock)
  }

  // ---------------------------------------------------------------------
  // The loop

  /** The loop's state: the blocks emitted so far and whether a question `<div>` is open. */
  datatype Body = Body(blocks: seq<Block>, open: bool)

  /** The blocks one line adds, and whether a question is open after it. */
  function LineBlocks(open: bool, kind: Kind, t: String): Body {
    var close := if open then [Close(false)] else [];
    match kind
    case QuestionHeading => Body(close + [OpenQuestion(t)], true)
    case OptionLine => Body([OptionDiv(t)], open)
    case SectionHeader => Body(close + [Header(t)], false)
    case Paragraph => Body([Para(t, open)], open)
  }

  function BodyUpTo(lines: seq<String>, n: nat): Body
    requires n <= |lines|
  {
    if n == 0 then Body([], false)
    else
      var prev := BodyUpTo(lines, n - 1);
      var step := LineBlocks(prev.open, Classify(lines[n - 1]), lines[n - 1]);
      Body(prev.blocks + step.blocks, step.open)
  }

  /** The body's blocks: every line's, then the closing of a question left open. */
  function Blocks(lines: seq<String>): seq<Block> {
    var b := BodyUpTo(lines, |lines|);
    b.blocks + (if b.open then [Close(true)] else [])
  }

  /** The lines the loop sees: split on newlines, blank ones dropped, each trimmed. */
  function Lines(text: String): seq<String> {
    LineQuestions.TrimmedLines(text)
  }

  /**
   * One turn of the loop: the HTML for one trimmed line, made of the
   * closing of an open question (when the line is a question or a header)
   * and the line's own piece.
   */
  method AppendLine(htmlContent: String, currentSection: bool, trimmedLine: String)
    returns (htmlContent': String, currentSection': bool)
    ensures htmlContent' == htmlContent + Render(LineBlocks(currentSection, Classify(trimmedLine), trimmedLine).blocks)
    ensures currentSection' == LineBlocks(currentSection, Classify(trimmedLine), trimmedLine).open
  {
    var kind := Classify(trimmedLine);
    htmlContent', currentSection' := AppendKind(htmlContent, currentSection, kind, trimmedLine);
  }

  /** The branches of the loop body, once the line's kind is known. */
  method AppendKind(htmlContent: String, currentSection: bool, kind: Kind, trimmedLine: String)
    returns (htmlContent': String, currentSection': bool)
    ensures htmlContent' == htmlContent + Render(LineBlocks(currentSection, kind, trimmedLine).blocks)
    ensures currentSection' == LineBlocks(currentSection, kind, trimmedLine).open
  {
    var closing: String := "";
    var piece: String;
    currentSection' := currentSection;
    ghost var bs := LineBlocks(currentSection, kind, trimmedLine).blocks;
    ShownPieces(currentSection, kind, trimmedLine);
    if kind == QuestionHeading {
      if currentSection {
        closing := "</div>\n\n";
      }
      piece := "<div class=\"question\">\n" + "<h4 class=\"question-number\">" + EscapeHtml(trimmedLine) + "</h4>\n";
      currentSection' := true;
    } else if kind == OptionLine {
      piece := "<div class=\"option\">" + EscapeHtml(trimmedLine) + "</div>\n";
    } else if kind == SectionHeader {
      if currentSection {
        closing := "</div>\n\n";
        currentSection' := false;
      }
      piece := "<h2 class=\"section-header\">" + EscapeHtml(trimmedLine) + "</h2>\n";
    } else {
      if !currentSection {
        piece := "<p>" + EscapeHtml(trimmedLine) + "</p>\n";
      } else {
        piece := "<p class=\"question-text\">" + EscapeHtml(trimmedLine) + "</p>\n";
      }
    }
    assert piece == RenderBlock(bs[|bs| - 1]);
    htmlContent' := htmlContent + closing + piece;
    AppendAssoc(htmlContent, closing, piece);
  }

  /** The HTML of one line's blocks: the closing, when there is one, then the line's piece. */
  lemma ShownPieces(open: bool, kind: Kind, t: String)
    ensures var bs := LineBlocks(open, kind, t).blocks;
      |bs| > 0 && Render(bs) == (if |bs| == 2 then "</div>\n\n" else "") + RenderBlock(bs[|bs| - 1])
      && (|bs| == 2 <==> open && (kind == QuestionHeading || kind == SectionHeader))
  {
    var bs := LineBlocks(open, kind, t).blocks;
    FlatMapOne(bs[|bs| - 1], RenderBlock);
    if |bs| == 2 {
      assert bs == [bs[0]] + [bs[1]];
      FlatMapOne(bs[0], RenderBlock);
      FlatMapAppend([bs[0]], [bs[1]], RenderBlock);
    }
  }

  /**
   * The content part of `createHTMLFromText` (what follows the metadata
   * block): the loop over the lines and the closing of an open question.
   */
  method CreateBody(text: String) returns (htmlContent: String)
    ensures htmlContent == Render(Blocks(Lines(text)))
  {
    var lines := Lines(text);
    htmlContent := "";
    var currentSection := false;
    var i := 0;
    while i < |lines|
      invariant i <= |lines|
      invariant htmlContent == Render(BodyUpTo(lines, i).blocks) && currentSection == BodyUpTo(lines, i).open
    {
      var before := BodyUpTo(lines, i);
      htmlContent, currentSection := AppendLine(htmlContent, currentSection, lines[i]);
      FlatMapAppend(before.blocks, LineBlocks(before.open, Classify(lines[i]), lines[i]).blocks, RenderBlock);
      i := i + 1;
    }
    var b := BodyUpTo(lines, |lines|);
    if currentSection {
      htmlContent := htmlContent + "</div>\n";
      FlatMapAppend(b.blocks, [Close(true)], RenderBlock);
      FlatMapOne(Close(true), RenderBlock);
    } else {
      assert b.blocks + [] == b.blocks;
    }
  }

  // ---------------------------------------------------------------------
  // What the body guarantees

  /** How many question `<div>`s are open after the blocks. */
  function Depth(bs: seq<Block>): int {
    if bs == [] then 0
    else Depth(bs[..|bs| - 1]) + (match bs[|bs| - 1] case OpenQuestion(_) => 1 case Close(_) => -1 case _ => 0)
  }

  /** Every prefix has at most one question open and never closes one that is not open. */
  predicate Nested(bs: seq<Block>) {
    forall k :: 0 <= k <= |bs| ==> 0 <= Depth(bs[..k]) <= 1
  }

  /** Appending one line's blocks keeps the nesting and leaves `open` questions open. */
  lemma StepNested(prev: Body, kind: Kind, t: String)
    requires Nested(prev.blocks) && Depth(prev.blocks) == (if prev.open then 1 else 0)
    ensures var next := prev.blocks + LineBlocks(prev.open, kind, t).blocks;
      Nested(next) && Depth(next) == (if LineBlocks(prev.open, kind, t).open then 1 else 0)
  {
    var bs := prev.blocks;
    var step := LineBlocks(prev.open, kind, t).blocks;
    var next := bs + step;
    assert next[..|bs|] == bs;
    if prev.open && (kind == QuestionHeading || kind == SectionHeader) {
      assert next[..|bs| + 1] == bs + [Close(false)];
      assert (bs + [Close(false)])[..|bs|] == bs;
      assert next[..|bs| + 2][..|bs| + 1] == bs + [Close(false)];
      assert next == next[..|bs| + 2];
    } else {
      assert |step| == 1;
      assert next[..|bs| + 1] == next;
      assert next[..|bs| + 1][..|bs|] == bs;
    }
    forall k | 0 <= k <= |next| ensures 0 <= Depth(next[..k]) <= 1 {
      if k <= |bs| {
        assert next[..k] == bs[..k];
      }
    }
  }

  lemma {:induction false} BodyNested(lines: seq<String>, n: nat)
    requires n <= |lines|
    ensures var b := BodyUpTo(lines, n); Nested(b.blocks) && Depth(b.blocks) == (if b.open then 1 else 0)
  {
    if n == 0 {
      var empty: seq<Block> := [];
      assert empty[..0] == empty;
    } else {
      BodyNested(lines, n - 1);
      StepNested(BodyUpTo(lines, n - 1), Classify(lines[n - 1]), lines[n - 1]);
    }
  }

  /**
   * The question `<div>`s balance: at no point is more than one open or one
   * closed that was not opened, and none is open at the end.
   */
  lemma BlocksBalanced(lines: seq<String>)
    ensures Nested(Blocks(lines)) && Depth(Blocks(lines)) == 0
  {
    BodyNested(lines, |lines|);
    var b := BodyUpTo(lines, |lines|);
    if b.open {
      var bs := Blocks(lines);
      assert bs[..|b.blocks|] == b.blocks;
      assert bs[..|bs| - 1] == b.blocks;
      forall k | 0 <= k <= |bs| ensures 0 <= Depth(bs[..k]) <= 1 {
        if k <= |b.blocks| {
          assert bs[..k] == b.blocks[..k];
        } else {
          assert bs[..k] == bs;
        }
      }
    } else {
      assert Blocks(lines) == b.blocks;
    }
  }

  /** The line a block shows, if any, with the kind it was classified as. */
  function Shown(b: Block): seq<(Kind, String)> {
    match b
    case Close(_) => []
    case OpenQuestion(t) => [(QuestionHeading, t)]
    case OptionDiv(t) => [(OptionLine, t)]
    case Header(t) => [(SectionHeader, t)]
    case Para(t, _) => [(Paragraph, t)]
  }

  function ShownAll(bs: seq<Block>): seq<(Kind, String)> {
    FlatMap(bs, Shown)
  }

  /** The first `n` lines, each with its classification. */
  function ClassifiedUpTo(lines: seq<String>, n: nat): (r: seq<(Kind, String)>)
    requires n <= |lines|
    ensures |r| == n
  {
    if n == 0 then [] else ClassifiedUpTo(lines, n - 1) + [(Classify(lines[n - 1]), lines[n - 1])]
  }

  lemma {:induction false} ClassifiedAt(lines: seq<String>, n: nat)
    requires n <= |lines|
    ensures forall i :: 0 <= i < n ==> ClassifiedUpTo(lines, n)[i] == (Classify(lines[i]), lines[i])
  {
    if n > 0 {
      ClassifiedAt(lines, n - 1);
    }
  }

  lemma LineShown(open: bool, kind: Kind, t: String)
    ensures ShownAll(LineBlocks(open, kind, t).blocks) == [(kind, t)]
  {
    var bs := LineBlocks(open, kind, t).blocks;
    if |bs| == 2 {
      assert bs == [bs[0]] + [bs[1]];
      FlatMapAppend([bs[0]], [bs[1]], Shown);
      FlatMapOne(bs[0], Shown);
      FlatMapOne(bs[1], Shown);
    } else {
      FlatMapOne(bs[0], Shown);
    }
  }

  lemma {:induction false} BodyShown(lines: seq<String>, n: nat)
    requires n <= |lines|
    ensures ShownAll(BodyUpTo(lines, n).blocks) == ClassifiedUpTo(lines, n)
  {
    if n > 0 {
      BodyShown(lines, n - 1);
      var prev := BodyUpTo(lines, n - 1);
      FlatMapAppend(prev.blocks, LineBlocks(prev.open, Classify(lines[n - 1]), lines[n - 1]).blocks, Shown);
      LineShown(prev.open, Classify(lines[n - 1]), lines[n - 1]);
    }
  }

  /**
   * Every line is shown exactly once, in order, as what its
   * classification says; nothing else is shown.
   */
  lemma EveryLineShownOnce(lines: seq<String>)
    ensures var shown := ShownAll(Blocks(lines));
      |shown| == |lines| && forall i :: 0 <= i < |lines| ==> shown[i] == (Classify(lines[i]), lines[i])
  {
    BodyShown(lines, |lines|);
    ClassifiedAt(lines, |lines|);
    var b := BodyUpTo(lines, |lines|);
    FlatMapAppend(b.blocks, if b.open then [Close(true)] else [], Shown);
    FlatMapOne(Close(true), Shown);
  }
}
