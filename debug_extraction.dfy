/**
 * The top-level scan of debug_extraction.js: any line `N. text` opens a
 * question and saves the previous one if it collected options; a line
 * holding an option marker contributes the pairs its options pattern
 * captures; any other line extends the open question's text.
 *
 * The options pattern is
 * `([ABCDE])\.\s*([^ABCDE]*?)(?:\s+([ABCDE])\.\s*([^ABCDE]*?)(?:...)?)?`,
 * nested five deep. Its lazy text groups first try the empty string, and
 * the optional tail after them must begin with `\s+` exactly where the
 * greedy `\s*` stopped, so the tail never matches and every text group is
 * empty. The scan is modelled as written and, beside it, with the
 * evidently intended pairs (each letter with the text up to the next
 * marker).
 */
module DebugExtraction {
  import opened Wrappers
  import opened JsText
  import opened LineQuestions

  /** A saved record: `{ text, options }`. */
  datatype Saved = Saved(text: String, options: map<String, String>)

  // ---------------------------------------------------------------------
  // The options pattern as written

  /** The leftmost `[ABCDE]\.` at or after `from`. */
  function FirstMarker(s: String, from: nat): (r: Option<nat>)
    requires from <= |s|
    ensures r.Some? ==> from <= r.value && MarkerAt(s, r.value)
    ensures r.None? ==> forall k :: from <= k < |s| ==> !MarkerAt(s, k)
    decreases |s| - from
  {
    if from == |s| then None else if MarkerAt(s, from) then Some(from) else FirstMarker(s, from + 1)
  }

  /**
   * The groups of the optional tails, `depth` levels deep, tried at `k`
   * (where the previous greedy `\s*` stopped) after the lazy text group
   * took the empty string: each level needs `\s+`, a marker and `\s*`;
   * an unmatched level leaves its groups and all deeper ones undefined.
   */
  function TailCaptures(s: String, k: nat, depth: nat): (r: seq<Option<String>>)
    requires k <= |s|
    ensures |r| == 2 * depth
    decreases depth
  {
    if depth == 0 then []
    else
      var w := SkipSpaces(s, k);
      if w > k && MarkerAt(s, w) then [Some([s[w]]), Some([])] + TailCaptures(s, SkipSpaces(s, w + 2), depth - 1)
      else seq(2 * depth, _ => None)
  }

  /** The ten groups of the match, `optMatch[1..10]`, when the line holds a marker. */
  function OptCaptures(line: String): (r: Option<seq<Option<String>>>)
    ensures r.Some? ==> |r.value| == 10
  {
    match FirstMarker(line, 0)
    case None => None
    case Some(p) => Some([Some([line[p]]), Some([])] + TailCaptures(line, SkipSpaces(line, p + 2), 4))
  }

  /** `for (j = 1; j < optMatch.length; j += 2) if (optMatch[j] && optMatch[j + 1]) push(...)`. */
  function PairsOfCaptures(caps: seq<Option<String>>, j: nat): seq<(String, String)>
    decreases |caps| - j
  {
    if j + 1 >= |caps| then []
    else
      var pair := if caps[j].Some? && caps[j].value != [] && caps[j + 1].Some? && caps[j + 1].value != []
        then [(caps[j].value, Trim(caps[j + 1].value))] else [];
      pair + PairsOfCaptures(caps, j + 2)
  }

  /** The pairs an options line yields as written. */
  function WrittenPairs(line: String): seq<(String, String)> {
    match OptCaptures(line)
    case None => []
    case Some(caps) => PairsOfCaptures(caps, 0)
  }

  lemma SkipSpacesAgain(s: String, k: nat)
    requires k <= |s|
    ensures SkipSpaces(s, SkipSpaces(s, k)) == SkipSpaces(s, k)
  {
  }

  /** The groups `\s+` cannot open where `\s*` already stopped: all undefined. */
  lemma TailNeverMatches(s: String, k: nat, depth: nat)
    requires k <= |s| && SkipSpaces(s, k) == k
    ensures forall i :: 0 <= i < 2 * depth ==> TailCaptures(s, k, depth)[i].None?
  {
  }

  lemma {:induction false} NoPairsWithoutText(caps: seq<Option<String>>, j: nat)
    requires forall i :: j <= i < |caps| && i % 2 == 1 ==> caps[i].None? || caps[i].value == []
    requires j % 2 == 0
    ensures PairsOfCaptures(caps, j) == []
    decreases |caps| - j
  {
    if j + 1 < |caps| {
      NoPairsWithoutText(caps, j + 2);
    }
  }

  /** As written, no options line ever yields a pair. */
  lemma WrittenPairsEmpty(line: String)
    ensures WrittenPairs(line) == []
  {
    match FirstMarker(line, 0)
    case None =>
    case Some(p) =>
      var k := SkipSpaces(line, p + 2);
      SkipSpacesAgain(line, p + 2);
      TailNeverMatches(line, k, 4);
      var caps := OptCaptures(line).value;
      assert caps == [Some([line[p]]), Some([])] + TailCaptures(line, k, 4);
      forall i | 0 <= i < |caps| && i % 2 == 1
        ensures caps[i].None? || caps[i].value == []
      {
        if i >= 2 { assert caps[i] == TailCaptures(line, k, 4)[i - 2]; }
      }
      NoPairsWithoutText(caps, 0);
  }

  // ---------------------------------------------------------------------
  // The pairs the pattern evidently means

  /** The letters of the markers among `parts` from `i` on, each with its trimmed text, skipping empty texts, at most `room`. */
  function MarkedPairs(parts: seq<String>, i: nat, room: nat): (r: seq<(String, String)>)
    requires MarkersOdd(parts) && i % 2 == 1
    ensures |r| <= room
    ensures forall k :: 0 <= k < |r| ==> r[k].0 in Letters && r[k].1 != []
    decreases |parts| - i
  {
    if i + 1 >= |parts| || room == 0 then []
    else
      var text := Trim(parts[i + 1]);
      assert IsMarker(parts[i]);
      assert [parts[i][0]] in Letters;
      if text == [] then MarkedPairs(parts, i + 2, room)
      else [([parts[i][0]], text)] + MarkedPairs(parts, i + 2, room - 1)
  }

  /** At most five pairs: each marker's letter with the trimmed text up to the next marker, when non-empty. */
  function IntendedPairs(line: String): (r: seq<(String, String)>)
    ensures |r| <= 5
    ensures forall k :: 0 <= k < |r| ==> r[k].0 in Letters && r[k].1 != []
  {
    SplitFromMarkers(line, 0, 0);
    MarkedPairs(SplitFrom(line, 0, 0), 1, 5)
  }

  /** The first marker opens the pairs when its text is not blank. */
  lemma IntendedFirstPair(line: String)
    requires |SplitFrom(line, 0, 0)| >= 3 && Trim(SplitFrom(line, 0, 0)[2]) != []
    ensures IntendedPairs(line) != []
  {
    SplitFromMarkers(line, 0, 0);
  }

  // ---------------------------------------------------------------------
  // The scan

  /** The loop's variables: `questions`, `currentQuestion`, `questionText` and `options`. */
  datatype Scan = Scan(questions: map<String, Saved>, current: Option<String>, text: String, options: map<String, String>)

  const Start: Scan := Scan(map[], None, [], map[])

  /** The previous (or final) question is saved only if it collected at least one option. */
  function SavePending(st: Scan): map<String, Saved> {
    if st.current.Some? && |st.options| > 0 then st.questions[st.current.value := Saved(st.text, st.options)]
    else st.questions
  }

  function AddPairs(options: map<String, String>, pairs: seq<(String, String)>): map<String, String>
    decreases |pairs|
  {
    if pairs == [] then options else AddPairs(options[pairs[0].0 := pairs[0].1], pairs[1..])
  }

  /** The pairs of an options line, as written or as intended. */
  function Pairs(line: String, intended: bool): seq<(String, String)> {
    if intended then IntendedPairs(line) else WrittenPairs(line)
  }

  /** One turn of the loop on the raw line. */
  function Step(st: Scan, raw: String, intended: bool): Scan {
    var line := Trim(raw);
    if line == [] then st
    else match QuestionLine(line)
      case Some(o) => Scan(SavePending(st), Some(o.key), o.text, map[])
      case None =>
        if FirstMarker(line, 0).Some? && st.current.Some? then st.(options := AddPairs(st.options, Pairs(line, intended)))
        else if st.current.Some? && !MarkerAt(line, 0) then st.(text := st.text + " " + line)
        else st
  }

  function ScanUpTo(lines: seq<String>, n: nat, intended: bool): Scan
    requires n <= |lines|
  {
    if n == 0 then Start else Step(ScanUpTo(lines, n - 1, intended), lines[n - 1], intended)
  }

  /** The `questions` the script ends with, as written (`intended` false) or with the intended pairs. */
  function Extracted(content: String, intended: bool): map<String, Saved> {
    var lines := Split(content, '\n');
    SavePending(ScanUpTo(lines, |lines|, intended))
  }

  /** The inner loop over the groups, building `optionPairs`. */
  method CollectPairs(caps: seq<Option<String>>) returns (optionPairs: seq<(String, String)>)
    ensures optionPairs == PairsOfCaptures(caps, 0)
  {
    optionPairs := [];
    var j := 0;
    while j + 1 < |caps|
      invariant optionPairs + PairsOfCaptures(caps, j) == PairsOfCaptures(caps, 0)
      decreases |caps| - j
    {
      if caps[j].Some? && caps[j].value != [] && caps[j + 1].Some? && caps[j + 1].value != [] {
        optionPairs := optionPairs + [(caps[j].value, Trim(caps[j + 1].value))];
      }
      j := j + 2;
    }
  }

  /** `optionPairs.forEach(([letter, text]) => { options[letter] = text; })`. */
  method AddAll(options: map<String, String>, optionPairs: seq<(String, String)>) returns (options': map<String, String>)
    ensures options' == AddPairs(options, optionPairs)
  {
    options' := options;
    var k := 0;
    while k < |optionPairs|
      invariant k <= |optionPairs|
      invariant AddPairs(options', optionPairs[k..]) == AddPairs(options, optionPairs)
    {
      assert optionPairs[k..][1..] == optionPairs[k + 1..];
      options' := options'[optionPairs[k].0 := optionPairs[k].1];
      k := k + 1;
    }
  }

  /** The body of the loop for one raw line, as written; `return` plays the part of `continue`. */
  method ReadLine(questions: map<String, Saved>, currentQuestion: Option<String>, questionText: String,
                  options: map<String, String>, raw: String)
    returns (questions': map<String, Saved>, currentQuestion': Option<String>, questionText': String,
             options': map<String, String>)
    ensures Scan(questions', currentQuestion', questionText', options')
      == Step(Scan(questions, currentQuestion, questionText, options), raw, false)
  {
    questions', currentQuestion', questionText', options' := questions, currentQuestion, questionText, options;
    var line := Trim(raw);
    if line == [] {
      return;
    }
    var qMatch := QuestionLine(line);
    if qMatch.Some? {
      if currentQuestion.Some? && |options| > 0 {
        questions' := questions[currentQuestion.value := Saved(questionText, options)];
      }
      currentQuestion' := Some(qMatch.value.key);
      questionText' := qMatch.value.text;
      options' := map[];
      return;
    }
    var optMatch := OptCaptures(line);
    if optMatch.Some? && currentQuestion.Some? {
      var optionPairs := CollectPairs(optMatch.value);
      options' := AddAll(options, optionPairs);
      return;
    }
    if currentQuestion.Some? && !MarkerAt(line, 0) && |line| > 0 {
      questionText' := questionText + " " + line;
    }
  }

  lemma ScanUpToNext(lines: seq<String>, i: nat, before: Scan, after: Scan)
    requires i < |lines| && before == ScanUpTo(lines, i, false) && after == Step(before, lines[i], false)
    ensures after == ScanUpTo(lines, i + 1, false)
  {
  }

  lemma ExtractedIsSaved(content: String, intended: bool, last: Scan)
    requires var lines := Split(content, '\n'); last == ScanUpTo(lines, |lines|, intended)
    ensures Extracted(content, intended) == SavePending(last)
  {
  }

  /** The scan of debug_extraction.js as written. */
  method ExtractAsWritten(content: String) returns (questions: map<String, Saved>)
    ensures questions == Extracted(content, false)
  {
    var lines := Split(content, '\n');
    questions := map[];
    var currentQuestion: Option<String> := None;
    var questionText: String := [];
    var options: map<String, String> := map[];
    var i := 0;
    while i < |lines|
      invariant i <= |lines|
      invariant ScanUpTo(lines, i, false) == Scan(questions, currentQuestion, questionText, options)
    {
      ghost var before := Scan(questions, currentQuestion, questionText, options);
      questions, currentQuestion, questionText, options := ReadLine(questions, currentQuestion, questionText, options, lines[i]);
      ScanUpToNext(lines, i, before, Scan(questions, currentQuestion, questionText, options));
      i := i + 1;
    }
    ExtractedIsSaved(content, false, Scan(questions, currentQuestion, questionText, options));
    if currentQuestion.Some? && |options| > 0 {
      questions := questions[currentQuestion.value := Saved(questionText, options)];
    }
  }

  // ---------------------------------------------------------------------
  // What the scan guarantees

  /** Options as the scan gathers them: letters A–E with non-empty texts. */
  predicate LetterOptions(options: map<String, String>) {
    options.Keys <= Letters && forall l :: l in options ==> options[l] != []
  }

  lemma {:induction false} AddPairsLetters(options: map<String, String>, pairs: seq<(String, String)>)
    requires LetterOptions(options)
    requires forall k :: 0 <= k < |pairs| ==> pairs[k].0 in Letters && pairs[k].1 != []
    ensures LetterOptions(AddPairs(options, pairs))
    ensures |AddPairs(options, pairs)| >= |options|
    ensures pairs != [] ==> |AddPairs(options, pairs)| > 0
    decreases |pairs|
  {
    if pairs != [] {
      AddPairsLetters(options[pairs[0].0 := pairs[0].1], pairs[1..]);
      assert options.Keys <= options[pairs[0].0 := pairs[0].1].Keys;
      SubsetCard(options.Keys, options[pairs[0].0 := pairs[0].1].Keys);
    }
  }

  /** Every saved record has at least one option, each a letter A–E with non-empty text. */
  predicate SavedWell(m: map<String, Saved>) {
    forall key :: key in m ==> |m[key].options| > 0 && LetterOptions(m[key].options)
  }

  predicate Accounted(st: Scan) {
    SavedWell(st.questions) && LetterOptions(st.options)
  }

  lemma SavePendingWell(st: Scan)
    requires Accounted(st)
    ensures SavedWell(SavePending(st))
  {
  }

  lemma StepAccounted(st: Scan, raw: String, intended: bool)
    requires Accounted(st)
    ensures Accounted(Step(st, raw, intended))
  {
    var line := Trim(raw);
    if line != [] && QuestionLine(line).None? && FirstMarker(line, 0).Some? && st.current.Some? {
      if intended {
        AddPairsLetters(st.options, IntendedPairs(line));
      } else {
        WrittenPairsEmpty(line);
      }
    }
  }

  lemma ScanStep(lines: seq<String>, n: nat, intended: bool)
    requires n < |lines| && Accounted(ScanUpTo(lines, n, intended))
    ensures Accounted(ScanUpTo(lines, n + 1, intended))
  {
    StepAccounted(ScanUpTo(lines, n, intended), lines[n], intended);
  }

  lemma {:induction false} ScanAccounted(lines: seq<String>, n: nat, intended: bool)
    requires n <= |lines|
    ensures Accounted(ScanUpTo(lines, n, intended))
  {
    if n > 0 {
      ScanAccounted(lines, n - 1, intended);
      ScanStep(lines, n - 1, intended);
    }
  }

  /** Either way, every saved record has at least one option, each a letter A–E with non-empty text. */
  lemma ExtractedWell(content: String, intended: bool)
    ensures SavedWell(Extracted(content, intended))
  {
    var lines := Split(content, '\n');
    ScanAccounted(lines, |lines|, intended);
  }

  /** As written, a line never adds options, and so never saves. */
  lemma WrittenStepEmpty(st: Scan, raw: String)
    requires st.options == map[] && st.questions == map[]
    ensures Step(st, raw, false).options == map[] && Step(st, raw, false).questions == map[]
  {
    var line := Trim(raw);
    if line != [] {
      WrittenPairsEmpty(line);
    }
  }

  /** As written, options are never collected. */
  lemma {:induction false} WrittenNoOptions(lines: seq<String>, n: nat)
    requires n <= |lines|
    ensures ScanUpTo(lines, n, false).options == map[] && ScanUpTo(lines, n, false).questions == map[]
  {
    if n > 0 {
      WrittenNoOptions(lines, n - 1);
      WrittenStepEmpty(ScanUpTo(lines, n - 1, false), lines[n - 1]);
    }
  }

  /** As written, the script saves no question at all, whatever the input. */
  lemma WrittenSavesNothing(content: String)
    ensures Extracted(content, false) == map[]
  {
    var lines := Split(content, '\n');
    WrittenNoOptions(lines, |lines|);
  }

  /**
   * With the intended pairs, an options line with a non-blank first text
   * gives the open question an option, so the next question line or the
   * end of input saves it.
   */
  lemma IntendedSaves(st: Scan, raw: String)
    requires st.current.Some? && Trim(raw) != [] && QuestionLine(Trim(raw)).None?
    requires FirstMarker(Trim(raw), 0).Some? && IntendedPairs(Trim(raw)) != []
    requires LetterOptions(st.options)
    ensures var next := Step(st, raw, true);
      next.current == st.current && st.current.value in SavePending(next)
  {
    AddPairsLetters(st.options, IntendedPairs(Trim(raw)));
  }
}
