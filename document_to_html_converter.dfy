/**
 * `DocumentToHTMLConverter` of document_to_html_converter.js: the HTML
 * body `createHTMLFromPDFText` builds (one `<h2>` or `<p>` per non-blank
 * line), its `looksLikeHeader`, the extension check of `convert`, and
 * `getSupportedFormats`. The body can be read back: `ReadBody` recovers
 * every line and whether it became a header.
 */
module DocumentToHtml {
  import opened Wrappers
  import opened JsText
  import opened HtmlText
  import NodePath
  import LineQuestions

  // ---------------------------------------------------------------------
  // The body

  /** `looksLikeHeader`: short, not ending in `.` or `,`, and a section word or a leading `N.`. */
  predicate LooksLikeHeader(line: String) {
    JsLength(line) < 80 && !EndsWith(line, ".") && !EndsWith(line, ",")
    && (Contains(line, "хэсэг") || Contains(line, "ДААЛГАВАР") || StartsWithNumberDot(line))
  }

  /** The test the loop applies before `looksLikeHeader`. */
  predicate IsHeading(t: String) {
    JsLength(t) < 100 && LooksLikeHeader(t)
  }

  /** An `<h2>` or `<p>` element showing `t`. */
  function Element(heading: bool, t: String): String {
    if heading then "<h2>" + EscapeHtml(t) + "</h2>\n" else "<p>" + EscapeHtml(t) + "</p>\n"
  }

  /** The element one trimmed line becomes. */
  function LineHtml(t: String): String {
    Element(IsHeading(t), t)
  }

  /** The lines `forEach` visits: split on newlines, blank ones dropped, each trimmed. */
  function Lines(text: String): seq<String> {
    LineQuestions.TrimmedLines(text)
  }

  function BodyHtml(lines: seq<String>): String {
    FlatMap(lines, LineHtml)
  }

  lemma BodyStep(lines: seq<String>, i: nat)
    requires i < |lines|
    ensures BodyHtml(lines[..i + 1]) == BodyHtml(lines[..i]) + LineHtml(lines[i])
  {
    assert lines[..i + 1][..i] == lines[..i];
  }

  /** The body of `createHTMLFromPDFText` (`pdfData.text || ''` is `text`). */
  method CreateBody(text: String) returns (htmlBody: String)
    ensures htmlBody == BodyHtml(Lines(text))
  {
    var lines := Lines(text);
    htmlBody := "";
    var i := 0;
    while i < |lines|
      invariant i <= |lines| && htmlBody == BodyHtml(lines[..i])
    {
      var trimmedLine := lines[i];
      var element;
      if JsLength(trimmedLine) < 100 && LooksLikeHeader(trimmedLine) {
        element := "<h2>" + EscapeHtml(trimmedLine) + "</h2>\n";
      } else {
        element := "<p>" + EscapeHtml(trimmedLine) + "</p>\n";
      }
      assert element == LineHtml(trimmedLine);
      BodyStep(lines, i);
      htmlBody := htmlBody + element;
      i := i + 1;
    }
    assert lines[..|lines|] == lines;
  }

  // ---------------------------------------------------------------------
  // Reading the body back

  /** The text up to the first `<`, and what follows from there. */
  function UpToTag(s: String): (r: (String, String))
    ensures r.0 + r.1 == s && '<' !in r.0
    decreases |s|
  {
    if s == [] || s[0] == '<' then ([], s)
    else
      var r := UpToTag(s[1..]);
      ([s[0]] + r.0, r.1)
  }

  /**
   * Reads a body back: each element is `<h2>` or `<p>`, escaped text with
   * no `<`, and the matching closing tag and newline.
   */
  function ReadBody(h: String): Option<seq<(bool, String)>>
    decreases |h|
  {
    if h == [] then Some([])
    else
      var heading := StartsWith(h, "<h2>");
      var open: String := if heading then "<h2>" else "<p>";
      var close: String := if heading then "</h2>\n" else "</p>\n";
      if !heading && !StartsWith(h, "<p>") then None
      else
        var (text, after) := UpToTag(h[|open|..]);
        if !StartsWith(after, close) then None
        else
          match ReadBody(after[|close|..])
          case None => None
          case Some(rest) => Some([(heading, Unescape(text))] + rest)
  }

  /** Every line with whether it is a header, in order. */
  function Shown(lines: seq<String>): (r: seq<(bool, String)>)
    ensures |r| == |lines|
  {
    if lines == [] then [] else [(IsHeading(lines[0]), lines[0])] + Shown(lines[1..])
  }

  /** Text without `<` followed by a tag splits at the tag. */
  lemma {:induction false} UpToTagSplits(e: String, r: String)
    requires '<' !in e && (r == [] || r[0] == '<')
    ensures UpToTag(e + r) == (e, r)
    decreases |e|
  {
    if e == [] {
      assert e + r == r;
    } else {
      assert (e + r)[0] == e[0];
      assert (e + r)[1..] == e[1..] + r;
      UpToTagSplits(e[1..], r);
      assert [e[0]] + e[1..] == e;
    }
  }

  /** The opening tag decides which element the reader sees. */
  lemma OpenTag(open: String, x: String)
    requires open == "<h2>" || open == "<p>"
    ensures StartsWith(open + x, "<h2>") == (open == "<h2>")
    ensures open == "<p>" ==> StartsWith(open + x, "<p>")
    ensures (open + x)[|open|..] == x
  {
    var h := open + x;
    assert h[..|open|] == open;
    if open == "<p>" {
      assert h[1] == 'p';
    }
  }

  lemma ElementReadBack(open: String, t: String, close: String, rest: String)
    requires open == "<h2>" || open == "<p>"
    requires close == (if open == "<h2>" then "</h2>\n" else "</p>\n")
    ensures var h := open + (EscapeHtml(t) + (close + rest));
      StartsWith(h, "<h2>") == (open == "<h2>") && (open == "<p>" ==> StartsWith(h, "<p>"))
      && UpToTag(h[|open|..]) == (EscapeHtml(t), close + rest)
      && StartsWith(close + rest, close) && (close + rest)[|close|..] == rest
      && Unescape(EscapeHtml(t)) == t
  {
    var e := EscapeHtml(t);
    EscapedHasNoSpecials(t);
    EscapeHtmlIsPerCharacter(t);
    UnescapeEscaped(t);
    OpenTag(open, e + (close + rest));
    UpToTagSplits(e, close + rest);
    assert (close + rest)[..|close|] == close;
  }

  /** Reading an element and what follows gives its text, then what follows read back. */
  lemma ReadElement(heading: bool, t: String, rest: String)
    ensures ReadBody(Element(heading, t) + rest) ==
      if ReadBody(rest).Some? then Some([(heading, t)] + ReadBody(rest).value) else None
  {
    var open: String := if heading then "<h2>" else "<p>";
    var close: String := if heading then "</h2>\n" else "</p>\n";
    assert Element(heading, t) + rest == open + (EscapeHtml(t) + (close + rest));
    ElementReadBack(open, t, close, rest);
  }

  /** Reading the body back gives every line, in order, and whether it became a header. */
  lemma {:induction false} BodyReadsBack(lines: seq<String>)
    ensures ReadBody(BodyHtml(lines)) == Some(Shown(lines))
    decreases |lines|
  {
    if lines != [] {
      var t := lines[0];
      assert lines == [t] + lines[1..];
      FlatMapAppend([t], lines[1..], LineHtml);
      FlatMapOne(t, LineHtml);
      BodyReadsBack(lines[1..]);
      ReadElement(IsHeading(t), t, BodyHtml(lines[1..]));
    }
  }

  // ---------------------------------------------------------------------
  // The converter object

  const DefaultFormats: seq<String> := [".pdf", ".doc", ".docx"]

  datatype Route = PdfRoute | DocRoute

  /** What `convert` goes on to do: convert by a route, or report `success: false` with a message. */
  datatype Outcome = Attempt(route: Route) | Failed(message: String)

  /** The extension check and the `switch` of `convert`. */
  function ConvertRoute(formats: seq<String>, inputFilePath: String): (o: Outcome)
    ensures o.Attempt? ==> Lower(NodePath.Extname(inputFilePath)) in formats
  {
    var fileExt := Lower(NodePath.Extname(inputFilePath));
    if fileExt !in formats then Failed("Unsupported file format: " + fileExt)
    else if fileExt == ".pdf" then Attempt(PdfRoute)
    else if fileExt == ".doc" || fileExt == ".docx" then Attempt(DocRoute)
    else Failed("Conversion not implemented for " + fileExt)
  }

  /**
   * With the formats the constructor sets, an unsupported extension fails
   * before any conversion, `.pdf` goes to the PDF route, and `.doc` and
   * `.docx` to the Word route.
   */
  lemma DefaultRoutes(inputFilePath: String)
    ensures var ext := Lower(NodePath.Extname(inputFilePath)); var o := ConvertRoute(DefaultFormats, inputFilePath);
      (o.Failed? <==> ext !in DefaultFormats)
      && (o == Attempt(PdfRoute) <==> ext == ".pdf")
      && (o == Attempt(DocRoute) <==> ext == ".doc" || ext == ".docx")
  {
  }

  class DocumentToHtmlConverter {
    var outputDir: String
    var supportedFormats: array<String>

    constructor ()
      ensures fresh(supportedFormats) && supportedFormats[..] == DefaultFormats
      ensures outputDir == "/Users/rein/ai/aipdf2/html"
    {
      outputDir := "/Users/rein/ai/aipdf2/html";
      supportedFormats := new String[3] [".pdf", ".doc", ".docx"];
    }

    /** The extension check and dispatch of `convert`, on the object's formats. */
    method Route(inputFilePath: String) returns (o: Outcome)
      ensures o == ConvertRoute(supportedFormats[..], inputFilePath)
    {
      var fileExt := Lower(NodePath.Extname(inputFilePath));
      if fileExt !in supportedFormats[..] {
        return Failed("Unsupported file format: " + fileExt);
      }
      if fileExt == ".pdf" {
        o := Attempt(PdfRoute);
      } else if fileExt == ".doc" || fileExt == ".docx" {
        o := Attempt(DocRoute);
      } else {
        o := Failed("Conversion not implemented for " + fileExt);
      }
    }

    /** `[...this.supportedFormats]`: a new array with the same formats, so a caller's changes to it leave the object's own list alone. */
    method GetSupportedFormats() returns (copy: array<String>)
      ensures fresh(copy) && copy[..] == supportedFormats[..]
    {
      copy := new String[supportedFormats.Length];
      var i := 0;
      while i < supportedFormats.Length
        invariant i <= supportedFormats.Length
        invariant forall j :: 0 <= j < i ==> copy[j] == supportedFormats[j]
      {
        copy[i] := supportedFormats[i];
        i := i + 1;
      }
    }
  }
}
