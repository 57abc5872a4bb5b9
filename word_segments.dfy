/**
 * The word-token segmentation that the smart and the comprehensive HTML
 * extractors share. The plain text is split on single spaces; a
 * multiple-choice question opens at a `N.` token with 1 <= N <= 40, its
 * options are the tokens `а.` … `д.`, and the fill-in problems open at the
 * tokens `А.`, `Б.` and `В.`.
 */
module WordSegments {
  import opened Wrappers
  import opened JsText
  import opened PartPattern

  /** One answer option: its Cyrillic letter and its trimmed text. */
  datatype Choice = Choice(letter: char, text: String)

  /** A record pushed onto `this.questions`. */
  datatype Question =
    | MultipleChoice(number: nat, text: String, options: seq<Choice>, points: nat, format: String)
    | FillIn(letter: char, text: String, parts: seq<Part>, points: nat, format: String)

  /** The record's `id`: `mc_N` or `fill_in_L`. */
  function Id(q: Question): String {
    match q
    case MultipleChoice(n, _, _, _, _) => "mc_" + NatToString(n)
    case FillIn(l, _, _, _, _) => "fill_in_" + [l]
  }

  const OptionLetters: seq<char> := "абвгд"
  const FillInLetters: seq<char> := "АБВ"

  /** `/^[а-д]\.$/` */
  predicate IsOptionMarker(w: String) { |w| == 2 && 'а' <= w[0] <= 'д' && w[1] == '.' }

  /** `/^[АБВ]\.$/` */
  predicate IsFillInMarker(w: String) { |w| == 2 && w[0] in FillInLetters && w[1] == '.' }

  /** `/^(\d+)\.$/` with a value from 1 to 40. */
  predicate IsQuestionNumber(w: String) { IsNumberToken(w) && 1 <= NumberTokenValue(w) <= 40 }

  /** The tokens that end the text of question `n`. */
  predicate EndsQuestionText(w: String, n: nat) {
    IsOptionMarker(w) || (IsQuestionNumber(w) && NumberTokenValue(w) != n) || IsFillInMarker(w)
  }

  /** The tokens that end an option's text: any option letter, any `digits.`, any fill-in letter. */
  predicate EndsOptionText(w: String) {
    IsOptionMarker(w) || IsNumberToken(w) || IsFillInMarker(w)
  }

  /** `text += word + ' '` over a run of words. */
  function Spaced(ws: seq<String>): String
    decreases |ws|
  {
    if ws == [] then [] else Spaced(ws[..|ws| - 1]) + ws[|ws| - 1] + " "
  }

  /** `Spaced` seen from the front: the first word and its space come first. */
  lemma {:induction false} SpacedFront(ws: seq<String>)
    requires ws != []
    ensures Spaced(ws) == ws[0] + " " + Spaced(ws[1..])
    decreases |ws|
  {
    if |ws| > 1 {
      var init := ws[..|ws| - 1];
      SpacedFront(init);
      assert init[1..] == ws[1..][..|ws[1..]| - 1];
      assert init[0] == ws[0];
    } else {
      assert ws[..0] == [] && ws[1..] == [];
    }
  }

  /** Where the text of question `n`, starting at index `j`, stops. */
  function QuestionTextEnd(words: seq<String>, n: nat, j: nat): (e: nat)
    requires j <= |words|
    ensures j <= e <= |words|
    ensures e < |words| ==> EndsQuestionText(words[e], n)
    ensures forall k :: j <= k < e ==> !EndsQuestionText(words[k], n)
    decreases |words| - j
  {
    if j == |words| || EndsQuestionText(words[j], n) then j else QuestionTextEnd(words, n, j + 1)
  }

  /** Where an option's text, starting at index `k`, stops. */
  function OptionTextEnd(words: seq<String>, k: nat): (e: nat)
    requires k <= |words|
    ensures k <= e <= |words|
    ensures e < |words| ==> EndsOptionText(words[e])
    ensures forall m :: k <= m < e ==> !EndsOptionText(words[m])
    decreases |words| - k
  {
    if k == |words| || EndsOptionText(words[k]) then k else OptionTextEnd(words, k + 1)
  }

  /** Where a fill-in problem's text, starting at index `j`, stops. */
  function FillInTextEnd(words: seq<String>, j: nat): (e: nat)
    requires j <= |words|
    ensures j <= e <= |words|
    ensures e < |words| ==> IsFillInMarker(words[e])
    ensures forall k :: j <= k < e ==> !IsFillInMarker(words[k])
    decreases |words| - j
  {
    if j == |words| || IsFillInMarker(words[j]) then j else FillInTextEnd(words, j + 1)
  }

  /** `words.findIndex((w, idx) => idx >= from && w === target)`, as an option. */
  function FindWord(words: seq<String>, target: String, from: nat): (r: Option<nat>)
    ensures r.Some? ==> from <= r.value < |words| && words[r.value] == target
    ensures forall k :: from <= k < |words| && (r.None? || k < r.value) ==> words[k] != target
    decreases |words| - from
  {
    if from >= |words| then None
    else if words[from] == target then Some(from)
    else FindWord(words, target, from + 1)
  }

  /**
   * Option `letter` of a question whose text stopped at index `j`: the first
   * `letter.` token after index `j`, with the words up to the next option,
   * number or fill-in token, kept when its trimmed text is longer than two.
   */
  function OptionFor(words: seq<String>, j: nat, letter: char): (r: Option<Choice>)
    ensures r.Some? ==> r.value.letter == letter && JsLength(r.value.text) > 2 && NoOuterSpace(r.value.text)
  {
    match FindWord(words, [letter, '.'], j + 1)
    case None => None
    case Some(idx) =>
      var t := Trim(Spaced(words[idx + 1..OptionTextEnd(words, idx + 1)]));
      if JsLength(t) > 2 then Some(Choice(letter, t)) else None
  }

  /** The options found for the letters in `letters`, in that order. */
  function OptionsFor(words: seq<String>, j: nat, letters: seq<char>): (r: seq<Choice>)
    ensures |r| <= |letters|
    // `words` is named as well so that the verifier does not unroll the
    // recursion over the constant letter list wherever the function is applied to it
    decreases |letters|, |words|
  {
    if letters == [] then []
    else OptionsFor(words, j, letters[..|letters| - 1]) + ToSeq(OptionFor(words, j, letters[|letters| - 1]))
  }

  /** Every option found carries one of the letters looked for and a trimmed text longer than two. */
  lemma {:induction false} OptionsForShape(words: seq<String>, j: nat, letters: seq<char>)
    ensures forall c :: c in OptionsFor(words, j, letters) ==>
      c.letter in letters && JsLength(c.text) > 2 && NoOuterSpace(c.text)
    decreases |letters|
  {
    if letters != [] {
      var init := letters[..|letters| - 1];
      OptionsForShape(words, j, init);
      assert forall x :: x in init ==> x in letters;
    }
  }

  predicate Increasing(letters: seq<char>) {
    forall a, b :: 0 <= a < b < |letters| ==> letters[a] < letters[b]
  }

  predicate LettersIncrease(cs: seq<Choice>) {
    forall a, b :: 0 <= a < b < |cs| ==> cs[a].letter < cs[b].letter
  }

  /** Looked for in increasing letter order, the options come out with strictly increasing letters. */
  lemma {:induction false} OptionsForOrdered(words: seq<String>, j: nat, letters: seq<char>)
    requires Increasing(letters)
    ensures LettersIncrease(OptionsFor(words, j, letters))
    decreases |letters|
  {
    if letters != [] {
      var init := letters[..|letters| - 1];
      var last := letters[|letters| - 1];
      assert Increasing(init);
      OptionsForOrdered(words, j, init);
      OptionsForShape(words, j, init);
      var prev := OptionsFor(words, j, init);
      var tail := ToSeq(OptionFor(words, j, last));
      var r := prev + tail;
      assert r == OptionsFor(words, j, letters);
      forall a, b | 0 <= a < b < |r|
        ensures r[a].letter < r[b].letter
      {
        if b < |prev| {
          assert r[a] == prev[a] && r[b] == prev[b];
          assert prev[a].letter < prev[b].letter;
        } else {
          assert r[a] == prev[a] && r[b] == tail[0];
          assert tail[0].letter == last;
          assert prev[a] in prev;
          var k :| 0 <= k < |init| && init[k] == prev[a].letter;
          assert letters[k] == init[k] && k < |letters| - 1;
          assert letters[k] < letters[|letters| - 1];
        }
      }
    }
  }

  /** A kept option: one of а..д with a trimmed text longer than two. */
  predicate GoodOption(c: Choice) {
    c.letter in OptionLetters && JsLength(c.text) > 2 && NoOuterSpace(c.text)
  }

  /**
   * A pushed multiple-choice record: a number from 1 to 40, one point, a
   * trimmed text longer than ten, and at most five kept options in а..д order.
   */
  predicate McShaped(q: Question, format: String) {
    && q.MultipleChoice? && 1 <= q.number <= 40 && q.points == 1 && q.format == format
    && JsLength(q.text) > 10 && NoOuterSpace(q.text)
    && |q.options| <= 5 && LettersIncrease(q.options)
    && (forall c :: c in q.options ==> GoodOption(c))
  }

  /**
   * A pushed fill-in record: a trimmed text longer than ten, parts each
   * worth five with a numeric label and a text longer than five holding no
   * `(`, and points that are five per part and the sum of the parts.
   */
  predicate FillInShaped(q: Question, format: String) {
    && q.FillIn? && q.format == format
    && JsLength(q.text) > 10 && NoOuterSpace(q.text)
    && q.points == 5 * |q.parts| && q.points == TotalPoints(q.parts)
    && (forall p :: p in q.parts ==>
          |p.number| > 0 && AllDigits(p.number) && JsLength(p.text) > 5 && '(' !in p.text && p.points == 5)
  }

  /** The record `extractMultipleChoiceQuestions` pushes for index `i`, if any. */
  function McRecordAt(words: seq<String>, i: nat, format: String): (r: Option<Question>)
    requires i < |words|
    ensures r.Some? ==> r.value.MultipleChoice?
  {
    if !IsQuestionNumber(words[i]) then None
    else
      var n := NumberTokenValue(words[i]);
      var j := QuestionTextEnd(words, n, i + 1);
      var text := Trim(Spaced(words[i + 1..j]));
      if JsLength(text) > 10 then Some(MultipleChoice(n, text, OptionsFor(words, j, OptionLetters), 1, format))
      else None
  }

  /**
   * Only a `N.` token with 1 <= N <= 40 opens a record, which then has the
   * shape of `McShaped` and the number of its token.
   */
  lemma McRecordShape(words: seq<String>, i: nat, format: String)
    requires i < |words|
    ensures var r := McRecordAt(words, i, format);
      r.Some? ==> IsQuestionNumber(words[i]) && r.value.number == NumberTokenValue(words[i]) && McShaped(r.value, format)
  {
    if IsQuestionNumber(words[i]) {
      var n := NumberTokenValue(words[i]);
      var j := QuestionTextEnd(words, n, i + 1);
      OptionsForShape(words, j, OptionLetters);
      OptionsForOrdered(words, j, OptionLetters);
    }
  }

  /** The records pushed while the loop visits indices `0 .. i-1`. */
  function McUpTo(words: seq<String>, i: nat, format: String): seq<Question>
    requires i <= |words|
  {
    if i == 0 then [] else McUpTo(words, i - 1, format) + ToSeq(McRecordAt(words, i - 1, format))
  }

  lemma McUpToStep(words: seq<String>, i: nat, format: String)
    requires i < |words|
    ensures McUpTo(words, i + 1, format) == McUpTo(words, i, format) + ToSeq(McRecordAt(words, i, format))
  {
  }

  /** The record `extractFillInQuestions` pushes for fill-in letter `letter`, if any. */
  function FillInFor(words: seq<String>, letter: char, format: String): Option<Question>
  {
    match FindWord(words, [letter, '.'], 0)
    case None => None
    case Some(idx) =>
      var raw := Spaced(words[idx + 1..FillInTextEnd(words, idx + 1)]);
      var parts := KeptParts(PartMatches(raw, 0));
      var text := Trim(raw);
      if JsLength(text) > 10 then Some(FillIn(letter, text, parts, 5 * |parts|, format)) else None
  }

  /** A fill-in record, when pushed, carries its letter and the shape of `FillInShaped`. */
  lemma FillInForShape(words: seq<String>, letter: char, format: String)
    ensures var r := FillInFor(words, letter, format);
      r.Some? ==> r.value.FillIn? && r.value.letter == letter && FillInShaped(r.value, format)
  {
    match FindWord(words, [letter, '.'], 0)
    case None =>
    case Some(idx) =>
      var raw := Spaced(words[idx + 1..FillInTextEnd(words, idx + 1)]);
      var parts := KeptParts(PartMatches(raw, 0));
      var text := Trim(raw);
      KeptPartsShape(raw, 0);
      FivePerPart(raw, 0);
      if JsLength(text) > 10 {
        assert FillInFor(words, letter, format) == Some(FillIn(letter, text, parts, 5 * |parts|, format));
      }
  }

  /** The records pushed for the fill-in letters in `letters`, in order. */
  function FillInUpTo(words: seq<String>, letters: seq<char>, format: String): seq<Question>
    decreases |letters|, |words|
  {
    if letters == [] then []
    else FillInUpTo(words, letters[..|letters| - 1], format) + ToSeq(FillInFor(words, letters[|letters| - 1], format))
  }

  // ---------------------------------------------------------------------
  // What the collected records satisfy

  /**
   * Every pushed multiple-choice record has a number from 1 to 40, the id
   * `mc_N`, one point, a trimmed text longer than ten and at most five
   * options, in а..д order, each with a trimmed text longer than two.
   */
  lemma McUpToShape(words: seq<String>, i: nat, format: String)
    requires i <= |words|
    ensures forall q :: q in McUpTo(words, i, format) ==> McShaped(q, format)
  {
    McUpToExactly(words, i, format);
    forall q | q in McUpTo(words, i, format)
      ensures McShaped(q, format)
    {
      var j :| 0 <= j < i && McRecordAt(words, j, format) == Some(q);
      McRecordShape(words, j, format);
    }
  }

  /** The records of indices `0 .. n-1`, present or not. */
  function RecordsUpTo(words: seq<String>, n: nat, format: String): (r: seq<Option<Question>>)
    requires n <= |words|
    ensures |r| == n
  {
    seq(n, i requires 0 <= i < n => McRecordAt(words, i, format))
  }

  lemma {:induction false} McUpToRecords(words: seq<String>, n: nat, format: String)
    requires n <= |words|
    ensures McUpTo(words, n, format) == Somes(RecordsUpTo(words, n, format))
  {
    if n > 0 {
      McUpToRecords(words, n - 1, format);
      assert RecordsUpTo(words, n, format)[..n - 1] == RecordsUpTo(words, n - 1, format);
    }
  }

  /**
   * The pushed records are exactly the records of the indices visited:
   * each index that opens a record contributes it, nothing else is pushed,
   * and one record at most comes from each index.
   */
  lemma McUpToExactly(words: seq<String>, n: nat, format: String)
    requires n <= |words|
    ensures forall i :: 0 <= i < n && McRecordAt(words, i, format).Some? ==>
      McRecordAt(words, i, format).value in McUpTo(words, n, format)
    ensures forall q :: q in McUpTo(words, n, format) ==>
      exists i :: 0 <= i < n && McRecordAt(words, i, format) == Some(q)
    ensures |McUpTo(words, n, format)| <= n
  {
    var rs := RecordsUpTo(words, n, format);
    McUpToRecords(words, n, format);
    SomesExactly(rs);
    forall i | 0 <= i < n && McRecordAt(words, i, format).Some?
      ensures McRecordAt(words, i, format).value in McUpTo(words, n, format)
    {
      assert rs[i] == McRecordAt(words, i, format);
    }
    forall q | q in McUpTo(words, n, format)
      ensures exists i :: 0 <= i < n && McRecordAt(words, i, format) == Some(q)
    {
      var i :| 0 <= i < |rs| && rs[i] == Some(q);
      assert McRecordAt(words, i, format) == Some(q);
    }
  }

  /** No index that is not a `N.` token with 1 <= N <= 40 opens a record. */
  lemma OnlyQuestionNumbersOpen(words: seq<String>, i: nat, format: String)
    requires i < |words| && !IsQuestionNumber(words[i])
    ensures McRecordAt(words, i, format) == None
  {
  }

  /** The fill-in records carry the letters looked for, in order, each at most once. */
  lemma {:induction false} FillInUpToShape(words: seq<String>, letters: seq<char>, format: String)
    requires Increasing(letters)
    ensures var r := FillInUpTo(words, letters, format);
      && |r| <= |letters|
      && (forall a :: 0 <= a < |r| ==>
           FillInShaped(r[a], format) && r[a].letter in letters)
      && (forall a, b :: 0 <= a < b < |r| ==> r[a].letter < r[b].letter)
    decreases |letters|
  {
    if letters != [] {
      var init := letters[..|letters| - 1];
      var last := letters[|letters| - 1];
      assert Increasing(init);
      FillInUpToShape(words, init, format);
      FillInForShape(words, last, format);
      var prev := FillInUpTo(words, init, format);
      var tail := ToSeq(FillInFor(words, last, format));
      var r := prev + tail;
      assert r == FillInUpTo(words, letters, format);
      forall a | 0 <= a < |r|
        ensures FillInShaped(r[a], format) && r[a].letter in letters
      {
        if a < |prev| {
          assert r[a] == prev[a];
          assert prev[a].letter in init;
        } else {
          assert r[a] == tail[0];
        }
      }
      forall a, b | 0 <= a < b < |r|
        ensures r[a].letter < r[b].letter
      {
        if b < |prev| {
          assert r[a] == prev[a] && r[b] == prev[b];
        } else {
          assert r[a] == prev[a] && r[b] == tail[0];
          assert prev[a].letter in init;
          var k :| 0 <= k < |init| && init[k] == prev[a].letter;
          assert letters[k] == init[k] && k < |letters| - 1;
        }
      }
    }
  }

  /** How many records of each kind a list holds. */
  function CountMultipleChoice(qs: seq<Question>): (n: nat)
    ensures n <= |qs|
  {
    if qs == [] then 0 else (if qs[0].MultipleChoice? then 1 else 0) + CountMultipleChoice(qs[1..])
  }

  function CountFillIn(qs: seq<Question>): (n: nat)
    ensures n <= |qs|
  {
    if qs == [] then 0 else (if qs[0].FillIn? then 1 else 0) + CountFillIn(qs[1..])
  }

  /** The two counts add up to the number of records. */
  lemma {:induction false} CountsAddUp(qs: seq<Question>)
    ensures CountMultipleChoice(qs) + CountFillIn(qs) == |qs|
  {
    if qs != [] {
      CountsAddUp(qs[1..]);
    }
  }

  lemma {:induction false} CountsAppend(a: seq<Question>, b: seq<Question>)
    ensures CountMultipleChoice(a + b) == CountMultipleChoice(a) + CountMultipleChoice(b)
    ensures CountFillIn(a + b) == CountFillIn(a) + CountFillIn(b)
    decreases |a|
  {
    if a == [] {
      assert a + b == b;
    } else {
      assert (a + b)[1..] == a[1..] + b;
      CountsAppend(a[1..], b);
    }
  }

  /** Pushing one record bumps exactly the count of its kind. */
  lemma CountsPush(qs: seq<Question>, q: Question)
    ensures CountMultipleChoice(qs + [q]) == CountMultipleChoice(qs) + (if q.MultipleChoice? then 1 else 0)
    ensures CountFillIn(qs + [q]) == CountFillIn(qs) + (if q.FillIn? then 1 else 0)
  {
    CountsAppend(qs, [q]);
    assert [q][1..] == [];
  }

  /** A list of multiple-choice records only. */
  lemma {:induction false} CountAllMultipleChoice(qs: seq<Question>)
    requires forall q :: q in qs ==> q.MultipleChoice?
    ensures CountMultipleChoice(qs) == |qs| && CountFillIn(qs) == 0
  {
    if qs != [] {
      assert qs[0] in qs;
      assert forall q :: q in qs[1..] ==> q in qs;
      CountAllMultipleChoice(qs[1..]);
    }
  }

  /** A list of fill-in records only. */
  lemma {:induction false} CountAllFillIn(qs: seq<Question>)
    requires forall q :: q in qs ==> q.FillIn?
    ensures CountFillIn(qs) == |qs| && CountMultipleChoice(qs) == 0
  {
    if qs != [] {
      assert qs[0] in qs;
      assert forall q :: q in qs[1..] ==> q in qs;
      CountAllFillIn(qs[1..]);
    }
  }

  // ---------------------------------------------------------------------
  // The option search as intended

  /**
   * The option search with the bound the question-text loop leaves: the
   * text stops AT the first option marker, so the search starts at `j`
   * rather than after it.
   */
  function OptionForIntended(words: seq<String>, j: nat, letter: char): (r: Option<Choice>)
    ensures r.Some? ==> r.value.letter == letter && JsLength(r.value.text) > 2 && NoOuterSpace(r.value.text)
  {
    match FindWord(words, [letter, '.'], j)
    case None => None
    case Some(idx) =>
      var t := Trim(Spaced(words[idx + 1..OptionTextEnd(words, idx + 1)]));
      if JsLength(t) > 2 then Some(Choice(letter, t)) else None
  }

  /**
   * When the question text stops at the marker of an option, the search as
   * written passes over that marker, while the intended one takes the
   * option that follows it.
   */
  lemma EndingMarkerSkipped(words: seq<String>, j: nat, letter: char)
    requires j < |words| && words[j] == [letter, '.']
    ensures OptionFor(words, j, letter) == OptionForIntended(words, j + 1, letter)
    ensures OptionForIntended(words, j, letter).Some? <==>
      JsLength(Trim(Spaced(words[j + 1..OptionTextEnd(words, j + 1)]))) > 2
  {
  }

  /** `1. … а. four` with no other `а.`: the question's first option is lost as written. */
  lemma FirstOptionLost()
    ensures var words := ["а.", "four"];
      OptionFor(words, 0, 'а') == None && OptionForIntended(words, 0, 'а') == Some(Choice('а', "four"))
  {
    FirstOptionSkipped();
    FirstOptionKept();
  }

  lemma FirstOptionSkipped()
    ensures OptionFor(["а.", "four"], 0, 'а') == None
  {
    assert FindWord(["а.", "four"], "а.", 1) == None;
  }

  lemma FirstOptionKept()
    ensures OptionForIntended(["а.", "four"], 0, 'а') == Some(Choice('а', "four"))
  {
    var words := ["а.", "four"];
    assert FindWord(words, "а.", 0) == Some(0);
    assert OptionTextEnd(words, 1) == 2;
    assert words[1..2] == ["four"];
    FourTrimmed();
  }

  lemma FourTrimmed()
    ensures Trim(Spaced(["four"])) == "four" && JsLength("four") == 4
  {
    assert Spaced(["four"]) == "four ";
    assert SkipSpaces("four ", 0) == 0;
    assert TrimEndFrom("four ", 0, 5) == 4;
  }

  // ---------------------------------------------------------------------
  // The loops of the extractors

  /** The inner `while` that collects a question's text after index `i`. */
  method ScanQuestionText(words: seq<String>, i: nat, n: nat) returns (text: String, j: nat)
    requires i < |words|
    ensures j == QuestionTextEnd(words, n, i + 1)
    ensures text == Spaced(words[i + 1..j])
  {
    text, j := [], i + 1;
    while j < |words| && !EndsQuestionText(words[j], n)
      invariant i + 1 <= j <= |words|
      invariant QuestionTextEnd(words, n, j) == QuestionTextEnd(words, n, i + 1)
      invariant text == Spaced(words[i + 1..j])
      decreases |words| - j
    {
      assert words[i + 1..j + 1][..j - i - 1] == words[i + 1..j];
      text := text + words[j] + " ";
      j := j + 1;
    }
  }

  /** The `while` that collects an option's text from index `start`. */
  method ScanOptionText(words: seq<String>, start: nat) returns (text: String, k: nat)
    requires start <= |words|
    ensures k == OptionTextEnd(words, start)
    ensures text == Spaced(words[start..k])
  {
    text, k := [], start;
    while k < |words| && !EndsOptionText(words[k])
      invariant start <= k <= |words|
      invariant OptionTextEnd(words, k) == OptionTextEnd(words, start)
      invariant text == Spaced(words[start..k])
      decreases |words| - k
    {
      assert words[start..k + 1][..k - start] == words[start..k];
      text := text + words[k] + " ";
      k := k + 1;
    }
  }

  /** The `while` that collects a fill-in problem's text from index `start`. */
  method ScanFillInText(words: seq<String>, start: nat) returns (text: String, j: nat)
    requires start <= |words|
    ensures j == FillInTextEnd(words, start)
    ensures text == Spaced(words[start..j])
  {
    text, j := [], start;
    while j < |words| && !IsFillInMarker(words[j])
      invariant start <= j <= |words|
      invariant FillInTextEnd(words, j) == FillInTextEnd(words, start)
      invariant text == Spaced(words[start..j])
      decreases |words| - j
    {
      assert words[start..j + 1][..j - start] == words[start..j];
      text := text + words[j] + " ";
      j := j + 1;
    }
  }

  /** `findIndex` over the words: the first index at or after `from` holding `target`. */
  method FindWordFrom(words: seq<String>, target: String, from: nat) returns (r: Option<nat>)
    ensures r == FindWord(words, target, from)
  {
    var idx := 0;
    while idx < |words|
      invariant idx <= |words|
      invariant forall k :: from <= k < idx ==> words[k] != target
      decreases |words| - idx
    {
      if idx >= from && words[idx] == target {
        FindWordFirst(words, target, from, idx);
        return Some(idx);
      }
      idx := idx + 1;
    }
    FindWordNone(words, target, from);
    return None;
  }

  lemma {:induction false} FindWordFirst(words: seq<String>, target: String, from: nat, idx: nat)
    requires from <= idx < |words| && words[idx] == target
    requires forall k :: from <= k < idx ==> words[k] != target
    ensures FindWord(words, target, from) == Some(idx)
    decreases idx - from
  {
    if from < idx { FindWordFirst(words, target, from + 1, idx); }
  }

  lemma {:induction false} FindWordNone(words: seq<String>, target: String, from: nat)
    requires forall k :: from <= k < |words| ==> words[k] != target
    ensures FindWord(words, target, from) == None
    decreases |words| - from
  {
    if from < |words| { FindWordNone(words, target, from + 1); }
  }

  /** One option lookup: `findIndex` for `letter.` after `j`, then its text. */
  method FindOption(words: seq<String>, j: nat, letter: char) returns (c: Option<Choice>)
    ensures c == OptionFor(words, j, letter)
  {
    c := None;
    var idx := FindWordFrom(words, [letter, '.'], j + 1);
    if idx.Some? {
      var text, k := ScanOptionText(words, idx.value + 1);
      var t := Trim(text);
      if JsLength(t) > 2 {
        c := Some(Choice(letter, t));
      }
    }
  }

  lemma OptionsForStep(words: seq<String>, j: nat, letters: seq<char>, li: nat)
    requires li < |letters|
    ensures OptionsFor(words, j, letters[..li + 1])
      == OptionsFor(words, j, letters[..li]) + ToSeq(OptionFor(words, j, letters[li]))
  {
    assert letters[..li + 1][..li] == letters[..li];
  }

  /** The `for (const letter of optionLetters)` loop. */
  method CollectOptions(words: seq<String>, j: nat) returns (options: seq<Choice>)
    ensures options == OptionsFor(words, j, OptionLetters)
  {
    options := [];
    var li := 0;
    while li < |OptionLetters|
      invariant li <= |OptionLetters|
      invariant options == OptionsFor(words, j, OptionLetters[..li])
    {
      var c := FindOption(words, j, OptionLetters[li]);
      OptionsForStep(words, j, OptionLetters, li);
      options := options + ToSeq(c);
      li := li + 1;
    }
    assert OptionLetters[..|OptionLetters|] == OptionLetters;
  }

  /** One visit of the outer loop of `extractMultipleChoiceQuestions`: the record it pushes, if any. */
  method QuestionAt(words: seq<String>, i: nat, format: String) returns (r: Option<Question>)
    requires i < |words|
    ensures r == McRecordAt(words, i, format)
  {
    r := None;
    var w := words[i];
    if IsNumberToken(w) {
      var n := NumberTokenValue(w);
      if 1 <= n <= 40 {
        var text, j := ScanQuestionText(words, i, n);
        var options := CollectOptions(words, j);
        var t := Trim(text);
        if JsLength(t) > 10 {
          r := Some(MultipleChoice(n, t, options, 1, format));
        }
      }
    }
  }

  /** One fill-in letter: `findIndex` for `L.`, its text, and the parts found in it. */
  method FillInAt(words: seq<String>, letter: char, format: String) returns (r: Option<Question>)
    ensures r == FillInFor(words, letter, format)
  {
    r := None;
    var idx := FindWordFrom(words, [letter, '.'], 0);
    if idx.Some? {
      var raw, j := ScanFillInText(words, idx.value + 1);
      var parts := ExtractParts(raw);
      var t := Trim(raw);
      FillInForFound(words, letter, format, idx.value, raw);
      if JsLength(t) > 10 {
        r := Some(FillIn(letter, t, parts, 5 * |parts|, format));
      }
    }
  }

  /** `FillInFor` once the letter is found at `idx`, with `raw` the text after it. */
  lemma FillInForFound(words: seq<String>, letter: char, format: String, idx: nat, raw: String)
    requires FindWord(words, [letter, '.'], 0) == Some(idx)
    requires raw == Spaced(words[idx + 1..FillInTextEnd(words, idx + 1)])
    ensures FillInFor(words, letter, format)
      == if JsLength(Trim(raw)) > 10
         then Some(FillIn(letter, Trim(raw), KeptParts(PartMatches(raw, 0)), 5 * |KeptParts(PartMatches(raw, 0))|, format))
         else None
  {
  }

  lemma FillInUpToStep(words: seq<String>, letters: seq<char>, li: nat, format: String)
    requires li < |letters|
    ensures FillInUpTo(words, letters[..li + 1], format)
      == FillInUpTo(words, letters[..li], format) + ToSeq(FillInFor(words, letters[li], format))
  {
    assert letters[..li + 1][..li] == letters[..li];
  }
}
