/**
 * `SmartHTMLExtractor` (smart_html_extractor.js): the HTML file is reduced to
 * plain text, split on single spaces, and scanned twice — once for the
 * multiple-choice questions 1–40, once for the fill-in problems А, Б, В.
 * Every kept record is pushed onto `questions` and counted.
 */
module SmartHtmlExtractor {
  import opened Wrappers
  import opened JsText
  import opened HtmlText
  import opened WordSegments

  const Format: String := "HTML"

  class Extractor {
    var questions: seq<Question>
    var multipleChoiceCount: nat
    var fillInCount: nat

    /** The two counters count the pushed records of their kind. */
    predicate Valid()
      reads this
    {
      multipleChoiceCount == CountMultipleChoice(questions) && fillInCount == CountFillIn(questions)
    }

    constructor()
      ensures Valid() && questions == []
    {
      questions := [];
      multipleChoiceCount := 0;
      fillInCount := 0;
    }

    /** `this.questions.push(q)` together with the `++` on the counter of its kind. */
    method Push(q: Question)
      requires Valid()
      modifies this
      ensures Valid() && questions == old(questions) + [q]
      ensures multipleChoiceCount == old(multipleChoiceCount) + (if q.MultipleChoice? then 1 else 0)
      ensures fillInCount == old(fillInCount) + (if q.FillIn? then 1 else 0)
    {
      CountsPush(questions, q);
      questions := questions + [q];
      if q.MultipleChoice? {
        multipleChoiceCount := multipleChoiceCount + 1;
      } else {
        fillInCount := fillInCount + 1;
      }
    }

    /** One turn of the outer loop of `extractMultipleChoiceQuestions`, at index `i`. */
    method VisitIndex(words: seq<String>, i: nat)
      requires Valid() && i < |words|
      modifies this
      ensures Valid()
      ensures questions == old(questions) + ToSeq(McRecordAt(words, i, Format))
      ensures multipleChoiceCount == old(multipleChoiceCount) + |ToSeq(McRecordAt(words, i, Format))|
      ensures fillInCount == old(fillInCount)
    {
      var r := QuestionAt(words, i, Format);
      if r.Some? {
        Push(r.value);
      }
    }

    /**
     * `extractMultipleChoiceQuestions`: one record per index holding a
     * `N.` token with 1 <= N <= 40 whose text is long enough, in index order.
     */
    method ExtractMultipleChoiceQuestions(text: String)
      requires Valid()
      modifies this
      ensures Valid()
      ensures questions == old(questions) + McUpTo(Split(text, ' '), |Split(text, ' ')|, Format)
      ensures multipleChoiceCount == old(multipleChoiceCount) + |McUpTo(Split(text, ' '), |Split(text, ' ')|, Format)|
      ensures fillInCount == old(fillInCount)
    {
      var words := Split(text, ' ');
      ghost var base, baseCount := questions, multipleChoiceCount;
      var i := 0;
      while i < |words|
        invariant i <= |words| && Valid()
        invariant questions == base + McUpTo(words, i, Format)
        invariant multipleChoiceCount == baseCount + |McUpTo(words, i, Format)|
        invariant fillInCount == old(fillInCount)
      {
        VisitIndex(words, i);
        McUpToStep(words, i, Format);
        AppendAssoc(base, McUpTo(words, i, Format), ToSeq(McRecordAt(words, i, Format)));
        i := i + 1;
      }
    }

    /** One turn of the loop of `extractFillInQuestions`, for `letter`. */
    method VisitLetter(words: seq<String>, letter: char)
      requires Valid()
      modifies this
      ensures Valid()
      ensures questions == old(questions) + ToSeq(FillInFor(words, letter, Format))
      ensures fillInCount == old(fillInCount) + |ToSeq(FillInFor(words, letter, Format))|
      ensures multipleChoiceCount == old(multipleChoiceCount)
    {
      var r := FillInAt(words, letter, Format);
      if r.Some? {
        FillInForShape(words, letter, Format);
        Push(r.value);
      }
    }

    /**
     * `extractFillInQuestions`: for А, Б, В in turn, at most one record,
     * opened by the letter's first `L.` token.
     */
    method ExtractFillInQuestions(text: String)
      requires Valid()
      modifies this
      ensures Valid()
      ensures questions == old(questions) + FillInUpTo(Split(text, ' '), FillInLetters, Format)
      ensures fillInCount == old(fillInCount) + |FillInUpTo(Split(text, ' '), FillInLetters, Format)|
      ensures multipleChoiceCount == old(multipleChoiceCount)
    {
      var words := Split(text, ' ');
      var letters := FillInLetters;
      ghost var base, baseCount := questions, fillInCount;
      var li := 0;
      while li < |letters|
        invariant li <= |letters| && Valid()
        invariant questions == base + FillInUpTo(words, letters[..li], Format)
        invariant fillInCount == baseCount + |FillInUpTo(words, letters[..li], Format)|
        invariant multipleChoiceCount == old(multipleChoiceCount)
      {
        VisitLetter(words, letters[li]);
        FillInUpToStep(words, letters, li, Format);
        AppendAssoc(base, FillInUpTo(words, letters[..li], Format), ToSeq(FillInFor(words, letters[li], Format)));
        li := li + 1;
      }
      assert letters[..li] == letters;
    }

    /**
     * The extraction half of `extractAndUpload`: the page's text, its
     * multiple-choice records, then its fill-in records.
     */
    method ExtractQuestions(html: String)
      requires Valid()
      modifies this
      ensures Valid() && multipleChoiceCount + fillInCount == |questions|
      ensures var words := Split(ExtractTextFromHtml(html), ' ');
        questions == old(questions) + McUpTo(words, |words|, Format) + FillInUpTo(words, FillInLetters, Format)
    {
      var text := ExtractTextFromHtml(html);
      ExtractMultipleChoiceQuestions(text);
      ExtractFillInQuestions(text);
      CountsAddUp(questions);
    }
  }
}
