/**
 * `HTMLParserExtractor` (html_parser_extractor.js): for each identifier —
 * `1.` to `40.`, then `А.`, `Б.`, `В.` — it first checks that some text node
 * of the page starts with the identifier, then cuts the identifier's section
 * out of the body's HTML with a case-insensitive pattern and splits that
 * section into the question's HTML and option or part fragments.
 *
 * The page is given as two inputs: the text of its text nodes in document
 * order (what the tree walker visits) and the body's `innerHTML`.
 */
module HtmlParserExtractor {
  import opened Wrappers
  import opened JsText
  import opened HtmlText
  import opened PartPattern
  import WordSegments

  type Choice = WordSegments.Choice

  // ---------------------------------------------------------------------
  // Identifiers and the text-node test

  datatype Ident = Number(n: nat) | Letter(c: char)

  function IdentText(id: Ident): String {
    match id
    case Number(n) => NatToString(n)
    case Letter(c) => [c]
  }

  /** The marker `id.` that the patterns look for. */
  function Marker(id: Ident): (r: String)
    ensures |r| >= 2 && r[|r| - 1] == '.'
  {
    IdentText(id) + "."
  }

  /** The tree-walker loop: some text node, trimmed, starts with `id.` (`^id\.\s*`). */
  predicate StartFound(textNodes: seq<String>, id: Ident) {
    exists i :: 0 <= i < |textNodes| && StartsWith(Trim(textNodes[i]), Marker(id))
  }

  // ---------------------------------------------------------------------
  // The head of the section patterns: `(<[^>]*>)*\s*id\.\s*`, flag `i`

  /** End of the greedy `(<[^>]*>)*` that starts at `p`. */
  function TagRunEnd(s: String, p: nat): (q: nat)
    requires p <= |s|
    ensures p <= q <= |s|
    decreases |s| - p
  {
    if p < |s| && s[p] == '<' && FindChar(s, '>', p + 1) < |s| then TagRunEnd(s, FindChar(s, '>', p + 1) + 1)
    else p
  }

  /**
   * Where the capture begins when the pattern for marker `mk` starts at `p`:
   * after the run of tags, the whitespace, the marker (in either case) and
   * the whitespace after it. Giving back tags never helps, since a shorter
   * run ends on a `<` and no marker begins with one.
   */
  function HeadEnd(s: String, mk: String, p: nat): (r: Option<nat>)
    requires p <= |s|
    ensures r.Some? ==> p <= r.value <= |s|
  {
    var m := SkipSpaces(s, TagRunEnd(s, p));
    if OccursAtIgnoringCase(s, mk, m) then Some(SkipSpaces(s, m + |mk|)) else None
  }

  /** The leftmost start of a match at or after `from`, with the start of its capture. */
  function FirstHead(s: String, mk: String, from: nat): (r: Option<(nat, nat)>)
    requires from <= |s|
    ensures r.Some? ==> from <= r.value.0 <= r.value.1 <= |s| && HeadEnd(s, mk, r.value.0) == Some(r.value.1)
    decreases |s| - from
  {
    match HeadEnd(s, mk, from)
    case Some(w) => Some((from, w))
    case None => if from == |s| then None else FirstHead(s, mk, from + 1)
  }

  /** `\s*L\.\s` at `e` under the `i` flag, for a capital `L` of `letters`. */
  predicate LetterAhead(s: String, e: nat, letters: String)
    requires e <= |s|
  {
    var m := SkipSpaces(s, e);
    m + 2 < |s| && UpperChar(s[m]) in letters && s[m + 1] == '.' && IsSpace(s[m + 2])
  }

  // ---------------------------------------------------------------------
  // Multiple-choice section: `…N\.\s*([\s\S]*?)(?=\s*\d+\.\s|\s*А\.\s|Хоёрдугаар хэсэг|$)`

  /**
   * The look-ahead that ends a question's section. Under the `i` flag the
   * fill-in heading `А. ` also matches the lower-case option marker `а. `.
   */
  predicate McStop(s: String, e: nat)
    requires e <= |s|
  {
    e == |s| || NumberAhead(s, SkipSpaces(s, e)) || LetterAhead(s, e, "А") || OccursAtIgnoringCase(s, SectionTwo, e)
  }

  function McStopFrom(s: String, e: nat): (r: nat)
    requires e <= |s|
    ensures e <= r <= |s| && McStop(s, r)
    ensures forall k :: e <= k < r ==> !McStop(s, k)
    decreases |s| - e
  {
    if McStop(s, e) then e else McStopFrom(s, e + 1)
  }

  /** `match[0]` for question `n`: the leading tags, the marker and the lazy text. */
  function McSection(body: String, n: nat): Option<String>
  {
    match FirstHead(body, Marker(Number(n)), 0)
    case None => None
    case Some(h) => Some(body[h.0..McStopFrom(body, h.1)])
  }

  /**
   * An option `а.` written with whitespace after its dot ends the section
   * that contains it, so such an option is never inside its own question's
   * section.
   */
  lemma OptionAEndsSection(body: String, n: nat, p: nat, w: nat, k: nat)
    requires FirstHead(body, Marker(Number(n)), 0) == Some((p, w))
    requires w <= k && k + 2 < |body| && body[k] == 'а' && body[k + 1] == '.' && IsSpace(body[k + 2])
    ensures McSection(body, n).Some? && |McSection(body, n).value| <= k - p
  {
    OptionAStops(body, w, k);
  }

  lemma OptionAStops(body: String, w: nat, k: nat)
    requires w <= k && k + 2 < |body| && body[k] == 'а' && body[k + 1] == '.' && IsSpace(body[k + 2])
    ensures McStopFrom(body, w) <= k
  {
    assert SkipSpaces(body, k) == k;
    assert LetterAhead(body, k, "А");
    McStopFromAtMost(body, w, k);
  }

  /** The lazy capture ends no later than any stop after its start. */
  lemma {:induction false} McStopFromAtMost(s: String, e: nat, k: nat)
    requires e <= k <= |s| && McStop(s, k)
    ensures McStopFrom(s, e) <= k
    decreases k - e
  {
    if !McStop(s, e) {
      McStopFromAtMost(s, e + 1, k);
    }
  }

  // ---------------------------------------------------------------------
  // `split(/[а-д]\./)[0]`

  predicate IsOptionLetter(c: char) { 'а' <= c <= 'д' }

  predicate OptionMarkerAt(t: String, j: nat) {
    j + 1 < |t| && IsOptionLetter(t[j]) && t[j + 1] == '.'
  }

  function OptionMarkerFrom(t: String, j: nat): (k: nat)
    requires j <= |t|
    ensures j <= k <= |t|
    ensures forall i :: j <= i < k ==> !OptionMarkerAt(t, i)
    ensures k < |t| ==> OptionMarkerAt(t, k)
    decreases |t| - j
  {
    if j == |t| || OptionMarkerAt(t, j) then j else OptionMarkerFrom(t, j + 1)
  }

  /** The text before the first option marker `а.`–`д.`, or all of it when there is none. */
  function BeforeOptionMarker(t: String): (r: String)
    ensures r <= t
    ensures forall j :: 0 <= j < |r| ==> !OptionMarkerAt(t, j)
    ensures |r| < |t| ==> OptionMarkerAt(t, |r|)
  {
    t[..OptionMarkerFrom(t, 0)]
  }

  // ---------------------------------------------------------------------
  // Options: `L\.\s*([^а-д]*?)(?=[а-д]\.|$)`, flags `gi`, first `exec`

  /** A character of the class `[а-д]` under the `i` flag. */
  predicate IsOptionLetterAnyCase(c: char) { IsOptionLetter(c) || 'А' <= c <= 'Д' }

  predicate NoOptionLetter(s: String) {
    forall i :: 0 <= i < |s| ==> !IsOptionLetterAnyCase(s[i])
  }

  /** The first position at or after `e` that the option capture cannot pass. */
  function OptionScanEnd(t: String, e: nat): (r: nat)
    requires e <= |t|
    ensures e <= r <= |t|
    ensures forall k :: e <= k < r ==> !IsOptionLetterAnyCase(t[k])
    ensures r < |t| ==> IsOptionLetterAnyCase(t[r])
    decreases |t| - e
  {
    if e == |t| || IsOptionLetterAnyCase(t[e]) then e else OptionScanEnd(t, e + 1)
  }

  /** The match of option `letter` (either case) starting exactly at `p`. */
  function OptionAt(t: String, letter: char, p: nat): (r: Option<String>)
    requires p <= |t|
    ensures r.Some? ==> NoOptionLetter(r.value)
  {
    if p + 1 < |t| && SameLetter(t[p], letter) && t[p + 1] == '.' then
      var w := SkipSpaces(t, p + 2);
      var e := OptionScanEnd(t, w);
      if e == |t| || (e + 1 < |t| && t[e + 1] == '.') then
        assert forall k :: 0 <= k < e - w ==> t[w..e][k] == t[w + k];
        Some(t[w..e])
      else None
    else None
  }

  function FirstOption(t: String, letter: char, from: nat): (r: Option<String>)
    requires from <= |t|
    ensures r.Some? ==> NoOptionLetter(r.value)
    decreases |t| - from
  {
    if from == |t| then None
    else match OptionAt(t, letter, from)
      case Some(c) => Some(c)
      case None => FirstOption(t, letter, from + 1)
  }

  const OptionLetters: String := "абвгд"

  /** The option found for one letter: none, or the letter with its trimmed text. */
  function FoundOption(t: String, letter: char): (r: seq<Choice>)
    ensures |r| <= 1
  {
    match FirstOption(t, letter, 0)
    case None => []
    case Some(c) => [WordSegments.Choice(letter, Trim(c))]
  }

  /** The options of the `for … of optionLetters` loop, one letter after the other. */
  function OptionsFound(t: String, letters: String): seq<Choice>
  {
    if letters == [] then [] else FoundOption(t, letters[0]) + OptionsFound(t, letters[1..])
  }

  lemma TrimNoOptionLetter(s: String)
    requires NoOptionLetter(s)
    ensures NoOptionLetter(Trim(s))
  {
    TrimDropsOnlySpaces(s);
    var a, b :| 0 <= a <= b <= |s| && Trim(s) == s[a..b];
    assert forall i :: 0 <= i < b - a ==> s[a..b][i] == s[a + i];
  }

  /** What each found option satisfies: a letter of the list, a trimmed text without option letters. */
  predicate GoodOption(c: Choice, letters: String) {
    c.letter in letters && NoOptionLetter(c.text) && NoOuterSpace(c.text)
  }

  /** At most one option per letter, in the order of the letters. */
  lemma {:induction false} OptionsFoundShape(t: String, letters: String)
    requires WordSegments.Increasing(letters)
    ensures |OptionsFound(t, letters)| <= |letters|
    ensures WordSegments.LettersIncrease(OptionsFound(t, letters))
    ensures forall c :: c in OptionsFound(t, letters) ==> GoodOption(c, letters)
    decreases |letters|
  {
    if letters != [] {
      var rest := OptionsFound(t, letters[1..]);
      assert WordSegments.Increasing(letters[1..]);
      OptionsFoundShape(t, letters[1..]);
      var first := FoundOption(t, letters[0]);
      if first != [] {
        TrimNoOptionLetter(FirstOption(t, letters[0], 0).value);
      }
      PrependOption(first, rest, letters);
    }
  }

  lemma PrependOption(first: seq<Choice>, rest: seq<Choice>, letters: String)
    requires letters != [] && WordSegments.Increasing(letters) && |first| <= 1
    requires forall c :: c in first ==> c.letter == letters[0] && GoodOption(c, letters)
    requires |rest| <= |letters| - 1 && WordSegments.LettersIncrease(rest)
    requires forall c :: c in rest ==> GoodOption(c, letters[1..])
    ensures |first + rest| <= |letters| && WordSegments.LettersIncrease(first + rest)
    ensures forall c :: c in first + rest ==> GoodOption(c, letters)
  {
    var all := first + rest;
    forall c | c in rest
      ensures letters[0] < c.letter && GoodOption(c, letters)
    {
      var k :| 0 <= k < |letters[1..]| && letters[1..][k] == c.letter;
      assert letters[k + 1] == c.letter;
    }
    forall a, b | 0 <= a < b < |all|
      ensures all[a].letter < all[b].letter
    {
      if a < |first| {
        assert all[a] in first && all[b] in rest;
      } else {
        assert all[a] == rest[a - |first|] && all[b] == rest[b - |first|];
      }
    }
  }

  /** The fragment pushed for an option. */
  function OptionDiv(c: Choice): String {
    "<div class=\"option\"><span class=\"option-letter\">" + [c.letter] + ".</span> " + c.text + "</div>"
  }

  function OptionDivs(cs: seq<Choice>): (r: seq<String>)
    ensures |r| == |cs|
  {
    if cs == [] then [] else [OptionDiv(cs[0])] + OptionDivs(cs[1..])
  }

  lemma {:induction false} OptionDivsAppend(a: seq<Choice>, b: seq<Choice>)
    ensures OptionDivs(a + b) == OptionDivs(a) + OptionDivs(b)
    decreases |a|
  {
    if a != [] {
      assert (a + b)[1..] == a[1..] + b;
      OptionDivsAppend(a[1..], b);
    } else {
      assert a + b == b;
    }
  }

  /** What `extractMultipleChoiceHTML` returns. */
  datatype McContent = McContent(questionHtml: String, optionsHtml: seq<String>)

  function McContentOf(body: String, n: nat): (r: Option<McContent>)
    ensures r.Some? ==> |r.value.optionsHtml| <= 5
  {
    match McSection(body, n)
    case None => None
    case Some(section) =>
      AtMostFiveOptions(section);
      Some(McContent(CleanHtml(Trim(BeforeOptionMarker(section))), OptionDivs(OptionsFound(section, OptionLetters))))
  }

  /** The five option letters give at most five options. */
  lemma AtMostFiveOptions(t: String)
    ensures |OptionsFound(t, OptionLetters)| <= 5
  {
    assert WordSegments.Increasing(OptionLetters) by {
      forall a, b | 0 <= a < b < 5 ensures OptionLetters[a] < OptionLetters[b] {}
    }
    OptionsFoundShape(t, OptionLetters);
  }

  /** One turn of the loop over the option letters. */
  lemma OptionsHtmlStep(t: String, letters: String, k: nat)
    requires k < |letters|
    ensures OptionDivs(OptionsFound(t, letters[k..]))
      == OptionDivs(FoundOption(t, letters[k])) + OptionDivs(OptionsFound(t, letters[k + 1..]))
  {
    assert letters[k..][1..] == letters[k + 1..];
    OptionDivsAppend(FoundOption(t, letters[k]), OptionsFound(t, letters[k + 1..]));
  }

  /** The body of the loop over the option letters: the fragment of `letter`, if it is found. */
  method OptionHtmlFor(section: String, letter: char) returns (step: seq<String>)
    ensures step == OptionDivs(FoundOption(section, letter))
  {
    step := [];
    var m := FirstOption(section, letter, 0);
    if m.Some? {
      step := [OptionDiv(WordSegments.Choice(letter, Trim(m.value)))];
    }
  }

  /** The loop over the option letters, pushing the fragment of each letter found. */
  method CollectOptionsHtml(section: String) returns (optionsHtml: seq<String>)
    ensures optionsHtml == OptionDivs(OptionsFound(section, OptionLetters))
  {
    var letters := OptionLetters;
    optionsHtml := [];
    var k := 0;
    while k < |letters|
      invariant k <= |letters|
      invariant optionsHtml + OptionDivs(OptionsFound(section, letters[k..])) == OptionDivs(OptionsFound(section, letters))
    {
      OptionsHtmlStep(section, letters, k);
      var step := OptionHtmlFor(section, letters[k]);
      optionsHtml := optionsHtml + step;
      k := k + 1;
    }
    assert letters[k..] == [];
  }

  /** `extractMultipleChoiceHTML(document, n)`. */
  method ExtractMultipleChoiceHtml(body: String, n: nat) returns (r: Option<McContent>)
    ensures r == McContentOf(body, n)
  {
    var m := McSection(body, n);
    if m.None? {
      return None;
    }
    var section := m.value;
    var questionHtml := Trim(BeforeOptionMarker(section));
    var optionsHtml := CollectOptionsHtml(section);
    r := Some(McContent(CleanHtml(questionHtml), optionsHtml));
  }

  // ---------------------------------------------------------------------
  // Fill-in section: `…L\.\s*([\s\S]*?)(?=\s*[АБВ]\.\s|$)`, flag `i`

  const FillInLetters: String := "АБВ"

  /** Under the `i` flag the look-ahead also stops at `а. `, `б. ` and `в. `. */
  predicate FillStop(s: String, e: nat)
    requires e <= |s|
  {
    e == |s| || LetterAhead(s, e, FillInLetters)
  }

  function FillStopFrom(s: String, e: nat): (r: nat)
    requires e <= |s|
    ensures e <= r <= |s| && FillStop(s, r)
    ensures forall k :: e <= k < r ==> !FillStop(s, k)
    decreases |s| - e
  {
    if FillStop(s, e) then e else FillStopFrom(s, e + 1)
  }

  /** `match[0]` for fill-in letter `letter`; the marker matches either case. */
  function FillSection(body: String, letter: char): Option<String>
  {
    match FirstHead(body, Marker(Letter(letter)), 0)
    case None => None
    case Some(h) => Some(body[h.0..FillStopFrom(body, h.1)])
  }

  function LabelFrom(t: String, j: nat): (k: nat)
    requires j <= |t|
    ensures j <= k <= |t|
    ensures forall i :: j <= i < k ==> !LabelAt(t, i)
    ensures k < |t| ==> LabelAt(t, k)
    decreases |t| - j
  {
    if j == |t| || LabelAt(t, j) then j else LabelFrom(t, j + 1)
  }

  /** `split(/\(\d+\)/)[0]`: the text before the first part label `(N)`. */
  function BeforePartLabel(t: String): (r: String)
    ensures r <= t
    ensures forall j :: 0 <= j < |r| ==> !LabelAt(t, j)
    ensures |r| < |t| ==> LabelAt(t, |r|)
  {
    t[..LabelFrom(t, 0)]
  }

  /** The fragment pushed for a kept part. */
  function PartDiv(p: Part): String {
    "<div class=\"question-part\"><span class=\"part-number\">(" + p.number + ")</span> " + p.text + "</div>"
  }

  function PartDivs(ps: seq<Part>): (r: seq<String>)
    ensures |r| == |ps|
  {
    if ps == [] then [] else [PartDiv(ps[0])] + PartDivs(ps[1..])
  }

  /** What `extractFillInHTML` returns. */
  datatype FillContent = FillContent(questionHtml: String, partsHtml: seq<String>)

  function FillContentOf(body: String, letter: char): (r: Option<FillContent>)
  {
    match FillSection(body, letter)
    case None => None
    case Some(section) =>
      Some(FillContent(CleanHtml(Trim(BeforePartLabel(section))), PartDivs(KeptParts(PartMatches(section, 0)))))
  }

  /**
   * Every fragment of a fill-in section stands for a part whose label is
   * numeric, whose text is longer than five and holds no `(`, worth five.
   */
  lemma FillContentParts(body: String, letter: char)
    ensures FillSection(body, letter).Some? ==>
      var ps := KeptParts(PartMatches(FillSection(body, letter).value, 0));
      FillContentOf(body, letter).value.partsHtml == PartDivs(ps)
      && forall q :: q in ps ==> |q.number| > 0 && AllDigits(q.number) && JsLength(q.text) > 5 && '(' !in q.text && q.points == 5
  {
    if FillSection(body, letter).Some? {
      KeptPartsShape(FillSection(body, letter).value, 0);
    }
  }

  /** `extractFillInHTML(document, letter)`. */
  method ExtractFillInHtml(body: String, letter: char) returns (r: Option<FillContent>)
    ensures r == FillContentOf(body, letter)
  {
    var found := FillSection(body, letter);
    if found.None? {
      return None;
    }
    var section := found.value;
    var questionHtml := Trim(BeforePartLabel(section));
    var parts := ExtractParts(section);
    var partsHtml := PartDivs(parts);
    r := Some(FillContent(CleanHtml(questionHtml), partsHtml));
  }

  // ---------------------------------------------------------------------
  // stripHTML and the record built by findQuestionInDOM

  /** `stripHTML`: '' for an empty input, otherwise the tags deleted and whitespace collapsed. */
  function StripHtml(html: String): (r: String)
    ensures html == [] ==> r == []
    ensures Collapsed(r) && NoOuterSpace(r) && NoCompleteTag(r)
  {
    if html == [] then [] else StripTags(html)
  }

  /** On text without tags, `stripHTML` only normalises whitespace. */
  lemma StripHtmlPlain(s: String)
    requires '<' !in s
    ensures StripHtml(s) == Normalize(s)
  {
    if s != [] {
      ReplaceTagsKeeps(s, [], false);
    }
  }

  datatype OptionItem = OptionItem(letter: char, text: String, html: String)

  datatype PartItem = PartItem(partNumber: nat, text: String, html: String, points: nat)

  /** A record pushed onto `this.questions` (its constant `format: 'HTML'` is left out). */
  datatype Record =
    | MultipleChoice(number: nat, questionHtml: String, questionText: String, points: nat,
                     optionsHtml: seq<String>, options: seq<OptionItem>)
    | FillIn(letter: char, questionHtml: String, questionText: String, points: nat,
             partsHtml: seq<String>, parts: seq<PartItem>)

  function RecordIdent(r: Record): Ident {
    match r
    case MultipleChoice(n, _, _, _, _, _) => Number(n)
    case FillIn(l, _, _, _, _, _) => Letter(l)
  }

  /** The record's `id`: `mc_N` or `fill_in_L`. */
  function RecordId(r: Record): String {
    match r
    case MultipleChoice(n, _, _, _, _, _) => "mc_" + NatToString(n)
    case FillIn(l, _, _, _, _, _) => "fill_in_" + [l]
  }

  /** `optionsHTML.map((html, index) => …)`: lettered `a`, `b`, … by position. */
  function OptionItems(htmls: seq<String>): (r: seq<OptionItem>)
    requires |htmls| <= 5
  {
    seq(|htmls|, i requires 0 <= i < |htmls| => OptionItem((97 + i) as char, StripHtml(htmls[i]), htmls[i]))
  }

  /** `partsHTML.map((html, index) => …)`: numbered from 1 by position, five points each. */
  function PartItems(htmls: seq<String>): (r: seq<PartItem>)
  {
    seq(|htmls|, i requires 0 <= i < |htmls| => PartItem(i + 1, StripHtml(htmls[i]), htmls[i], 5))
  }

  function ItemPoints(parts: seq<PartItem>): nat {
    if parts == [] then 0 else parts[0].points + ItemPoints(parts[1..])
  }

  /** The multiple-choice record built once the start of question `n` was found. */
  function McRecordFor(body: String, n: nat): Record
  {
    var c := McContentOf(body, n);
    var questionHtml := if c.Some? then c.value.questionHtml else "";
    var optionsHtml := if c.Some? then c.value.optionsHtml else [];
    MultipleChoice(n, questionHtml, StripHtml(questionHtml), 1, optionsHtml, OptionItems(optionsHtml))
  }

  /** The fill-in record built once the start of question `l` was found. */
  function FillRecordFor(body: String, l: char): Record
  {
    var c := FillContentOf(body, l);
    var questionHtml := if c.Some? then c.value.questionHtml else "";
    var partsHtml := if c.Some? then c.value.partsHtml else [];
    FillIn(l, questionHtml, StripHtml(questionHtml), |partsHtml| * 5, partsHtml, PartItems(partsHtml))
  }

  /** What `findQuestionInDOM` returns for `id`. */
  function QuestionRecord(textNodes: seq<String>, body: String, id: Ident): Option<Record>
  {
    if !StartFound(textNodes, id) then None
    else match id
      case Number(n) => Some(McRecordFor(body, n))
      case Letter(l) => Some(FillRecordFor(body, l))
  }

  /** A multiple-choice record: one point, at most five options lettered `a`, `b`, … by position. */
  predicate McShaped(r: Record) {
    r.MultipleChoice? && r.points == 1 && |r.options| == |r.optionsHtml| <= 5
    && forall i :: 0 <= i < |r.options| ==>
      r.options[i].letter == (97 + i) as char && r.options[i].html == r.optionsHtml[i]
      && r.options[i].text == StripHtml(r.optionsHtml[i])
  }

  /** A fill-in record: parts numbered `1..k` by position, five points each, `5k` in all. */
  predicate FillShaped(r: Record) {
    r.FillIn? && |r.parts| == |r.partsHtml| && r.points == 5 * |r.parts| == ItemPoints(r.parts)
    && forall i :: 0 <= i < |r.parts| ==>
      r.parts[i].partNumber == i + 1 && r.parts[i].points == 5 && r.parts[i].html == r.partsHtml[i]
  }

  lemma {:induction false} FivePointsEachItem(parts: seq<PartItem>)
    requires forall i :: 0 <= i < |parts| ==> parts[i].points == 5
    ensures ItemPoints(parts) == 5 * |parts|
    decreases |parts|
  {
    if parts != [] {
      FivePointsEachItem(parts[1..]);
    }
  }

  lemma McRecordShape(body: String, n: nat)
    ensures McShaped(McRecordFor(body, n)) && McRecordFor(body, n).number == n
  {
    var c := McContentOf(body, n);
    var questionHtml := if c.Some? then c.value.questionHtml else "";
    var optionsHtml := if c.Some? then c.value.optionsHtml else [];
    McItemsShape(n, questionHtml, optionsHtml);
  }

  lemma McItemsShape(n: nat, questionHtml: String, optionsHtml: seq<String>)
    requires |optionsHtml| <= 5
    ensures McShaped(MultipleChoice(n, questionHtml, StripHtml(questionHtml), 1, optionsHtml, OptionItems(optionsHtml)))
  {
  }

  lemma FillRecordShape(body: String, l: char)
    ensures FillShaped(FillRecordFor(body, l)) && FillRecordFor(body, l).letter == l
  {
    FivePointsEachItem(FillRecordFor(body, l).parts);
  }

  /**
   * A record exists exactly when a text node starts with the identifier;
   * it carries that identifier, and its options or parts are numbered by
   * position.
   */
  lemma QuestionRecordShape(textNodes: seq<String>, body: String, id: Ident)
    ensures QuestionRecord(textNodes, body, id).Some? <==> StartFound(textNodes, id)
    ensures QuestionRecord(textNodes, body, id).Some? ==>
      var r := QuestionRecord(textNodes, body, id).value;
      RecordIdent(r) == id && (if id.Number? then McShaped(r) else FillShaped(r))
  {
    match id
    case Number(n) => McRecordShape(body, n);
    case Letter(l) => FillRecordShape(body, l);
  }

  /** When the section pattern finds nothing the record is still built, with empty HTML and text and no options. */
  lemma MissingMcSectionGivesEmptyRecord(body: String, n: nat)
    requires McContentOf(body, n).None?
    ensures var r := McRecordFor(body, n);
      r.questionHtml == [] && r.questionText == [] && r.options == [] && r.points == 1
  {
  }

  /** A fill-in record whose section pattern finds nothing is empty and scores zero. */
  lemma MissingFillSectionGivesEmptyRecord(body: String, l: char)
    requires FillContentOf(body, l).None?
    ensures var r := FillRecordFor(body, l);
      r.questionHtml == [] && r.questionText == [] && r.parts == [] && r.points == 0
  {
  }

  /** `findQuestionInDOM(document, id, type)`. */
  method FindQuestionInDom(textNodes: seq<String>, body: String, id: Ident) returns (r: Option<Record>)
    ensures r == QuestionRecord(textNodes, body, id)
  {
    if !StartFound(textNodes, id) {
      return None;
    }
    match id
    case Number(n) => {
      var c := ExtractMultipleChoiceHtml(body, n);
      var questionHtml: String := "";
      var optionsHtml: seq<String> := [];
      if c.Some? {
        questionHtml := c.value.questionHtml;
        optionsHtml := c.value.optionsHtml;
      }
      r := Some(MultipleChoice(n, questionHtml, StripHtml(questionHtml), 1, optionsHtml, OptionItems(optionsHtml)));
    }
    case Letter(l) => {
      var c := ExtractFillInHtml(body, l);
      var questionHtml: String := "";
      var partsHtml: seq<String> := [];
      if c.Some? {
        questionHtml := c.value.questionHtml;
        partsHtml := c.value.partsHtml;
      }
      r := Some(FillIn(l, questionHtml, StripHtml(questionHtml), |partsHtml| * 5, partsHtml, PartItems(partsHtml)));
    }
  }

  // ---------------------------------------------------------------------
  // The identifier loops of extractQuestionsFromDOM

  /** The records pushed for questions `1 .. n`. */
  function McUpTo(textNodes: seq<String>, body: String, n: nat): seq<Record>
  {
    if n == 0 then [] else McUpTo(textNodes, body, n - 1) + ToSeq(QuestionRecord(textNodes, body, Number(n)))
  }

  /** The records pushed for the letters taken in order. */
  function FillUpTo(textNodes: seq<String>, body: String, letters: String): seq<Record>
  {
    if letters == [] then []
    else FillUpTo(textNodes, body, letters[..|letters| - 1]) + ToSeq(QuestionRecord(textNodes, body, Letter(letters[|letters| - 1])))
  }

  lemma FillUpToStep(textNodes: seq<String>, body: String, letters: String, k: nat)
    requires k < |letters|
    ensures FillUpTo(textNodes, body, letters[..k + 1])
      == FillUpTo(textNodes, body, letters[..k]) + ToSeq(QuestionRecord(textNodes, body, Letter(letters[k])))
  {
    assert letters[..k + 1][..k] == letters[..k];
  }

  predicate NumbersIncrease(rs: seq<Record>) {
    forall a, b :: 0 <= a < b < |rs| && rs[a].MultipleChoice? && rs[b].MultipleChoice? ==> rs[a].number < rs[b].number
  }

  /** At most one record per number, in increasing order, each shaped as a multiple-choice record. */
  lemma {:induction false} McUpToShape(textNodes: seq<String>, body: String, n: nat)
    ensures |McUpTo(textNodes, body, n)| <= n
    ensures forall r :: r in McUpTo(textNodes, body, n) ==> McShaped(r) && 1 <= r.number <= n
    ensures NumbersIncrease(McUpTo(textNodes, body, n))
  {
    if n > 0 {
      McUpToShape(textNodes, body, n - 1);
      QuestionRecordShape(textNodes, body, Number(n));
      AppendNumbered(McUpTo(textNodes, body, n - 1), QuestionRecord(textNodes, body, Number(n)), n);
    }
  }

  lemma AppendNumbered(prev: seq<Record>, r: Option<Record>, n: nat)
    requires n >= 1 && |prev| <= n - 1 && NumbersIncrease(prev)
    requires forall q :: q in prev ==> McShaped(q) && 1 <= q.number <= n - 1
    requires r.Some? ==> McShaped(r.value) && r.value.number == n
    ensures var all := prev + ToSeq(r);
      |all| <= n && NumbersIncrease(all)
      && forall q :: q in all ==> McShaped(q) && 1 <= q.number <= n
  {
    var all := prev + ToSeq(r);
    forall a, b | 0 <= a < b < |all|
      ensures all[a].MultipleChoice? && all[b].MultipleChoice? && all[a].number < all[b].number
    {
      if b >= |prev| {
        assert all[a] in prev;
      } else {
        assert all[a] == prev[a] && all[b] == prev[b];
      }
    }
  }

  predicate FillLettersIncrease(rs: seq<Record>) {
    forall a, b :: 0 <= a < b < |rs| && rs[a].FillIn? && rs[b].FillIn? ==> rs[a].letter < rs[b].letter
  }

  /** At most one record per letter, in the order of the letters, each shaped as a fill-in record. */
  lemma {:induction false} FillUpToShape(textNodes: seq<String>, body: String, letters: String)
    requires WordSegments.Increasing(letters)
    ensures |FillUpTo(textNodes, body, letters)| <= |letters|
    ensures forall r :: r in FillUpTo(textNodes, body, letters) ==> FillShaped(r) && r.letter in letters
    ensures FillLettersIncrease(FillUpTo(textNodes, body, letters))
    decreases |letters|
  {
    if letters != [] {
      var init := letters[..|letters| - 1];
      var last := letters[|letters| - 1];
      assert WordSegments.Increasing(init);
      FillUpToShape(textNodes, body, init);
      QuestionRecordShape(textNodes, body, Letter(last));
      AppendLettered(FillUpTo(textNodes, body, init), QuestionRecord(textNodes, body, Letter(last)), letters);
    }
  }

  lemma AppendLettered(prev: seq<Record>, r: Option<Record>, letters: String)
    requires letters != [] && WordSegments.Increasing(letters)
    requires |prev| <= |letters| - 1 && FillLettersIncrease(prev)
    requires forall q :: q in prev ==> FillShaped(q) && q.letter in letters[..|letters| - 1]
    requires r.Some? ==> FillShaped(r.value) && r.value.letter == letters[|letters| - 1]
    ensures var all := prev + ToSeq(r);
      |all| <= |letters| && FillLettersIncrease(all)
      && forall q :: q in all ==> FillShaped(q) && q.letter in letters
  {
    var all := prev + ToSeq(r);
    forall q | q in all
      ensures FillShaped(q) && q.letter in letters
    {
      if q in prev {
        var k :| 0 <= k < |letters| - 1 && letters[..|letters| - 1][k] == q.letter;
        assert letters[k] == q.letter;
      }
    }
    forall a, b | 0 <= a < b < |all|
      ensures all[a].FillIn? && all[b].FillIn? && all[a].letter < all[b].letter
    {
      if b >= |prev| {
        assert all[a] in prev;
        var k :| 0 <= k < |letters| - 1 && letters[..|letters| - 1][k] == all[a].letter;
        assert letters[k] == all[a].letter;
      } else {
        assert all[a] == prev[a] && all[b] == prev[b];
      }
    }
  }

  function CountMultipleChoice(qs: seq<Record>): (n: nat)
    ensures n <= |qs|
  {
    if qs == [] then 0 else CountMultipleChoice(qs[..|qs| - 1]) + (if qs[|qs| - 1].MultipleChoice? then 1 else 0)
  }

  function CountFillIn(qs: seq<Record>): (n: nat)
    ensures n <= |qs|
  {
    if qs == [] then 0 else CountFillIn(qs[..|qs| - 1]) + (if qs[|qs| - 1].FillIn? then 1 else 0)
  }

  /** Every record is of one kind or the other, so the two counts add up to the number of records. */
  lemma {:induction false} CountsAddUp(qs: seq<Record>)
    ensures CountMultipleChoice(qs) + CountFillIn(qs) == |qs|
    decreases |qs|
  {
    if qs != [] {
      CountsAddUp(qs[..|qs| - 1]);
    }
  }

  lemma CountsPush(qs: seq<Record>, q: Record)
    ensures CountMultipleChoice(qs + [q]) == CountMultipleChoice(qs) + (if q.MultipleChoice? then 1 else 0)
    ensures CountFillIn(qs + [q]) == CountFillIn(qs) + (if q.FillIn? then 1 else 0)
  {
    assert (qs + [q])[..|qs|] == qs;
  }

  class Extractor {
    var questions: seq<Record>
    var multipleChoiceCount: nat
    var fillInCount: nat

    /** The two counters count the pushed records of their kind. */
    predicate Valid()
      reads this
    {
      multipleChoiceCount == CountMultipleChoice(questions) && fillInCount == CountFillIn(questions)
    }

    constructor()
      ensures Valid() && questions == []
    {
      questions := [];
      multipleChoiceCount := 0;
      fillInCount := 0;
    }

    /** `this.questions.push(q)` together with the `++` on the counter of its kind. */
    method Push(q: Record)
      requires Valid()
      modifies this
      ensures Valid() && questions == old(questions) + [q]
    {
      CountsPush(questions, q);
      questions := questions + [q];
      if q.MultipleChoice? {
        multipleChoiceCount := multipleChoiceCount + 1;
      } else {
        fillInCount := fillInCount + 1;
      }
    }

    method VisitNumber(textNodes: seq<String>, body: String, n: nat, ghost base: seq<Record>)
      requires Valid() && n >= 1 && questions == base + McUpTo(textNodes, body, n - 1)
      modifies this
      ensures Valid() && questions == base + McUpTo(textNodes, body, n)
    {
      var r := FindQuestionInDom(textNodes, body, Number(n));
      if r.Some? {
        Push(r.value);
      }
    }

    method VisitLetter(textNodes: seq<String>, body: String, l: char, ghost before: seq<Record>)
      requires Valid() && questions == before
      modifies this
      ensures Valid() && questions == before + ToSeq(QuestionRecord(textNodes, body, Letter(l)))
    {
      var r := FindQuestionInDom(textNodes, body, Letter(l));
      if r.Some? {
        Push(r.value);
      }
    }

    /** The loop over the numbers 1 to 40 of `extractQuestionsFromDOM`. */
    method ExtractMultipleChoice(textNodes: seq<String>, body: String)
      requires Valid()
      modifies this
      ensures Valid() && questions == old(questions) + McUpTo(textNodes, body, 40)
    {
      ghost var base := questions;
      var n := 1;
      while n <= 40
        invariant 1 <= n <= 41 && Valid()
        invariant questions == base + McUpTo(textNodes, body, n - 1)
      {
        VisitNumber(textNodes, body, n, base);
        n := n + 1;
      }
      assert n - 1 == 40;
    }

    /** The loop over the letters А, Б, В of `extractQuestionsFromDOM`. */
    method ExtractFillIn(textNodes: seq<String>, body: String)
      requires Valid()
      modifies this
      ensures Valid() && questions == old(questions) + FillUpTo(textNodes, body, FillInLetters)
    {
      ghost var base := questions;
      var letters := FillInLetters;
      var k := 0;
      while k < |letters|
        invariant k <= |letters| && Valid()
        invariant questions == base + FillUpTo(textNodes, body, letters[..k])
      {
        ghost var done := FillUpTo(textNodes, body, letters[..k]);
        ghost var next := ToSeq(QuestionRecord(textNodes, body, Letter(letters[k])));
        VisitLetter(textNodes, body, letters[k], questions);
        FillUpToStep(textNodes, body, letters, k);
        AppendAssoc(base, done, next);
        k := k + 1;
      }
      assert letters[..k] == letters;
    }

    /** `extractQuestionsFromDOM`: numbers 1 to 40, then А, Б, В, one record at most for each. */
    method ExtractQuestionsFromDom(textNodes: seq<String>, body: String)
      requires Valid()
      modifies this
      ensures Valid() && multipleChoiceCount + fillInCount == |questions|
      ensures questions == old(questions) + McUpTo(textNodes, body, 40) + FillUpTo(textNodes, body, FillInLetters)
    {
      ExtractMultipleChoice(textNodes, body);
      ExtractFillIn(textNodes, body);
      CountsAddUp(questions);
    }
  }
}
