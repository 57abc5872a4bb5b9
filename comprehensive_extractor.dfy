/**
 * `ComprehensiveHTMLCSSExtractor` (comprehensive_html_css_extractor.js):
 * the smart extractor's word scan, with records tagged `HTML_WITH_CSS`, plus
 * the collection of the page's `<style>` blocks.
 */
module ComprehensiveExtractor {
  import opened Wrappers
  import opened JsText
  import opened HtmlText
  import opened WordSegments

  const Format: String := "HTML_WITH_CSS"

  // ---------------------------------------------------------------------
  // `/<style[^>]*>([\s\S]*?)<\/style>/gi`

  const StyleOpen: String := "<style"
  const StyleClose: String := "</style>"

  /** One `exec` match: the text between the tags and where the match ends. */
  datatype StyleMatch = StyleMatch(inner: String, end: nat)

  /** `s` holds no `</style>`, in any letter case. */
  predicate NoStyleClose(s: String) {
    forall k :: 0 <= k < |s| ==> !OccursAtIgnoringCase(s, StyleClose, k)
  }

  /**
   * The match starting exactly at `p`: `<style` in any case, the opening
   * tag up to its first `>`, and the lazy text up to the first `</style>`.
   */
  function StyleMatchAt(s: String, p: nat): (r: Option<StyleMatch>)
    requires p <= |s|
    ensures r.Some? ==> p < r.value.end <= |s| && NoStyleClose(r.value.inner)
  {
    if !OccursAtIgnoringCase(s, StyleOpen, p) then None
    else
      var g := FindChar(s, '>', p + |StyleOpen|);
      if g == |s| then None
      else
        match FindIgnoringCase(s, StyleClose, g + 1)
        case None => None
        case Some(c) =>
          NoCloseBefore(s, g + 1, c);
          Some(StyleMatch(s[g + 1..c], c + |StyleClose|))
  }

  lemma NoCloseBefore(s: String, a: nat, c: nat)
    requires a <= c <= |s|
    requires forall k :: a <= k < c ==> !OccursAtIgnoringCase(s, StyleClose, k)
    ensures NoStyleClose(s[a..c])
  {
    forall k | 0 <= k < c - a
      ensures !OccursAtIgnoringCase(s[a..c], StyleClose, k)
    {
      if k + |StyleClose| <= c - a {
        OccursInSlice(s, a, c, StyleClose, k);
      }
    }
  }

  lemma OccursInSlice(s: String, a: nat, c: nat, t: String, k: nat)
    requires a <= c <= |s| && k + |t| <= c - a
    ensures OccursAtIgnoringCase(s[a..c], t, k) <==> OccursAtIgnoringCase(s, t, a + k)
  {
    assert forall i :: k <= i < k + |t| ==> s[a..c][i] == s[a + i];
  }

  /** Where `exec` finds its next match when `lastIndex` is `from`. */
  function NextStyleMatch(s: String, from: nat): (r: Option<StyleMatch>)
    requires from <= |s|
    ensures r.Some? ==> from < r.value.end <= |s| && NoStyleClose(r.value.inner)
    decreases |s| - from
  {
    match StyleMatchAt(s, from)
    case Some(m) => Some(m)
    case None => if from == |s| then None else NextStyleMatch(s, from + 1)
  }

  /** The inner text of every match, in document order, from `lastIndex == from`. */
  function StyleInners(s: String, from: nat): seq<String>
    requires from <= |s|
    decreases |s| - from
  {
    match NextStyleMatch(s, from)
    case None => []
    case Some(m) => [m.inner] + StyleInners(s, m.end)
  }

  /** `cssContent += inner + '\n\n'` over a list of blocks. */
  function Blocks(cs: seq<String>): String
  {
    if cs == [] then [] else cs[0] + "\n\n" + Blocks(cs[1..])
  }

  /** No collected block holds a closing `</style>`: each is one block's text only. */
  lemma {:induction false} StyleInnersHaveNoClose(s: String, from: nat)
    requires from <= |s|
    ensures forall c :: c in StyleInners(s, from) ==> NoStyleClose(c)
    decreases |s| - from
  {
    match NextStyleMatch(s, from)
    case None =>
    case Some(m) =>
      StyleInnersHaveNoClose(s, m.end);
  }

  /** The blocks, each followed by a blank line, are the blocks joined by blank lines plus one more. */
  lemma {:induction false} BlocksAreJoined(cs: seq<String>)
    ensures cs != [] ==> Blocks(cs) == Join(cs, "\n\n") + "\n\n"
    ensures cs == [] ==> Blocks(cs) == []
    decreases |cs|
  {
    if |cs| > 1 {
      BlocksAreJoined(cs[1..]);
      assert Join(cs, "\n\n") == cs[0] + "\n\n" + Join(cs[1..], "\n\n");
    } else if |cs| == 1 {
      assert cs[1..] == [];
    }
  }

  /** One turn of the `exec` loop: the block found first comes before the rest. */
  lemma StyleStep(s: String, last: nat)
    requires last <= |s| && NextStyleMatch(s, last).Some?
    ensures var m := NextStyleMatch(s, last).value;
      Blocks(StyleInners(s, last)) == m.inner + "\n\n" + Blocks(StyleInners(s, m.end))
  {
    var m := NextStyleMatch(s, last).value;
    assert StyleInners(s, last) == [m.inner] + StyleInners(s, m.end);
  }

  /** The `exec` loop of `extractCSSStyles`, building `cssContent`. */
  method CollectStyles(html: String) returns (cssContent: String)
    ensures cssContent == Blocks(StyleInners(html, 0))
  {
    cssContent := [];
    var last := 0;
    var m := NextStyleMatch(html, last);
    while m.Some?
      invariant last <= |html| && m == NextStyleMatch(html, last)
      invariant cssContent + Blocks(StyleInners(html, last)) == Blocks(StyleInners(html, 0))
      decreases |html| - last
    {
      StyleStep(html, last);
      ghost var rest := Blocks(StyleInners(html, m.value.end));
      ghost var piece := m.value.inner + "\n\n";
      AppendAssoc(cssContent, m.value.inner, "\n\n");
      AppendAssoc(cssContent, piece, rest);
      cssContent := cssContent + m.value.inner + "\n\n";
      last := m.value.end;
      m := NextStyleMatch(html, last);
    }
    assert StyleInners(html, last) == [];
  }

  class Extractor {
    var questions: seq<Question>
    var multipleChoiceCount: nat
    var fillInCount: nat
    var extractedCss: String
    var htmlStructure: String

    /** The fields the question scans leave alone. */
    function Styles(): (String, String)
      reads this
    {
      (extractedCss, htmlStructure)
    }

    /** The two counters count the pushed records of their kind. */
    predicate Valid()
      reads this
    {
      multipleChoiceCount == CountMultipleChoice(questions) && fillInCount == CountFillIn(questions)
    }

    constructor()
      ensures Valid() && questions == [] && extractedCss == [] && htmlStructure == []
    {
      questions := [];
      multipleChoiceCount := 0;
      fillInCount := 0;
      extractedCss := [];
      htmlStructure := [];
    }

    /** `extractCSSStyles`: every style block's text in order, each followed by a blank line, trimmed. */
    method ExtractCssStyles(html: String)
      modifies this
      ensures extractedCss == Trim(Blocks(StyleInners(html, 0)))
      ensures questions == old(questions) && multipleChoiceCount == old(multipleChoiceCount)
      ensures fillInCount == old(fillInCount) && htmlStructure == old(htmlStructure)
    {
      var cssContent := CollectStyles(html);
      extractedCss := Trim(cssContent);
    }

    /** `this.questions.push(q)` together with the `++` on the counter of its kind. */
    method Push(q: Question)
      requires Valid()
      modifies this
      ensures Valid() && questions == old(questions) + [q]
      ensures multipleChoiceCount == old(multipleChoiceCount) + (if q.MultipleChoice? then 1 else 0)
      ensures fillInCount == old(fillInCount) + (if q.FillIn? then 1 else 0)
      ensures Styles() == old(Styles())
    {
      CountsPush(questions, q);
      questions := questions + [q];
      if q.MultipleChoice? {
        multipleChoiceCount := multipleChoiceCount + 1;
      } else {
        fillInCount := fillInCount + 1;
      }
    }

    /** One turn of the outer loop of `extractMultipleChoiceWithHTML`, at index `i`. */
    method VisitIndex(words: seq<String>, i: nat)
      requires Valid() && i < |words|
      modifies this
      ensures Valid()
      ensures questions == old(questions) + ToSeq(McRecordAt(words, i, Format))
      ensures multipleChoiceCount == old(multipleChoiceCount) + |ToSeq(McRecordAt(words, i, Format))|
      ensures fillInCount == old(fillInCount)
      ensures Styles() == old(Styles())
    {
      var r := QuestionAt(words, i, Format);
      if r.Some? {
        Push(r.value);
      }
    }

    /** `extractMultipleChoiceWithHTML`, without the HTML fragments it attaches. */
    method ExtractMultipleChoice(text: String)
      requires Valid()
      modifies this
      ensures Valid()
      ensures questions == old(questions) + McUpTo(Split(text, ' '), |Split(text, ' ')|, Format)
      ensures multipleChoiceCount == old(multipleChoiceCount) + |McUpTo(Split(text, ' '), |Split(text, ' ')|, Format)|
      ensures fillInCount == old(fillInCount)
      ensures Styles() == old(Styles())
    {
      var words := Split(text, ' ');
      ghost var base, baseCount, styles := questions, multipleChoiceCount, Styles();
      var i := 0;
      while i < |words|
        invariant i <= |words| && Valid()
        invariant questions == base + McUpTo(words, i, Format)
        invariant multipleChoiceCount == baseCount + |McUpTo(words, i, Format)|
        invariant fillInCount == old(fillInCount)
        invariant Styles() == styles
      {
        VisitIndex(words, i);
        McUpToStep(words, i, Format);
        i := i + 1;
      }
    }

    /** One turn of the loop of `extractFillInWithHTML`, for `letter`. */
    method VisitLetter(words: seq<String>, letter: char)
      requires Valid()
      modifies this
      ensures Valid()
      ensures questions == old(questions) + ToSeq(FillInFor(words, letter, Format))
      ensures fillInCount == old(fillInCount) + |ToSeq(FillInFor(words, letter, Format))|
      ensures multipleChoiceCount == old(multipleChoiceCount)
      ensures Styles() == old(Styles())
    {
      var r := FillInAt(words, letter, Format);
      if r.Some? {
        FillInForShape(words, letter, Format);
        Push(r.value);
      }
    }

    /** `extractFillInWithHTML`, without the HTML fragments it attaches. */
    method ExtractFillIn(text: String)
      requires Valid()
      modifies this
      ensures Valid()
      ensures questions == old(questions) + FillInUpTo(Split(text, ' '), FillInLetters, Format)
      ensures fillInCount == old(fillInCount) + |FillInUpTo(Split(text, ' '), FillInLetters, Format)|
      ensures multipleChoiceCount == old(multipleChoiceCount)
      ensures Styles() == old(Styles())
    {
      var words := Split(text, ' ');
      var letters := FillInLetters;
      ghost var base, baseCount, styles := questions, fillInCount, Styles();
      var li := 0;
      while li < |letters|
        invariant li <= |letters| && Valid()
        invariant questions == base + FillInUpTo(words, letters[..li], Format)
        invariant fillInCount == baseCount + |FillInUpTo(words, letters[..li], Format)|
        invariant multipleChoiceCount == old(multipleChoiceCount)
        invariant Styles() == styles
      {
        VisitLetter(words, letters[li]);
        FillInUpToStep(words, letters, li, Format);
        AppendAssoc(base, FillInUpTo(words, letters[..li], Format), ToSeq(FillInFor(words, letters[li], Format)));
        li := li + 1;
      }
      assert letters[..li] == letters;
    }

    /**
     * The extraction half of `extractAndUpload`: the style blocks, then the
     * multiple-choice and the fill-in records of the page's text.
     */
    method ExtractQuestions(html: String)
      requires Valid()
      modifies this
      ensures Valid() && multipleChoiceCount + fillInCount == |questions|
      ensures extractedCss == Trim(Blocks(StyleInners(html, 0)))
      ensures var words := Split(ExtractTextFromHtml(html), ' ');
        questions == old(questions) + McUpTo(words, |words|, Format) + FillInUpTo(words, FillInLetters, Format)
    {
      ExtractCssStyles(html);
      var text := ExtractTextFromHtml(html);
      ExtractMultipleChoice(text);
      ExtractFillIn(text);
      CountsAddUp(questions);
    }
  }
}
