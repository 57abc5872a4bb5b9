/**
 * The post-processing steps of the AI-only extractor
 * (`services/aiOnlyExtractor.js`): mending a truncated JSON reply
 * (`fixCommonJSONIssues`), counting questions, splitting questions the AI
 * merged into one (`detectAndSplitMergedQuestions`), filling in missing
 * options, images and points (`validateAndFixQuestions`), and converting to
 * the legacy two-section format (`convertToLegacyFormat`).
 */
module AiOnlyExtractor {
  import opened Wrappers
  import opened JsText
  import Points

  // =====================================================================
  // fixCommonJSONIssues

  /** The number of times `c` occurs in `s` (the length of `s.match(/c/g) || []`). */
  function CountChar(s: String, c: char): (n: nat)
    ensures n <= |s|
    decreases |s|
  {
    if s == [] then 0 else (if s[0] == c then 1 else 0) + CountChar(s[1..], c)
  }

  lemma {:induction false} CountCharAppend(a: String, b: String, c: char)
    ensures CountChar(a + b, c) == CountChar(a, c) + CountChar(b, c)
    decreases |a|
  {
    if a == [] {
      assert a + b == b;
    } else {
      assert (a + b)[0] == a[0] && (a + b)[1..] == a[1..] + b;
      CountCharAppend(a[1..], b, c);
    }
  }

  lemma {:induction false} CountCharAbsent(s: String, c: char)
    requires forall k :: 0 <= k < |s| ==> s[k] != c
    ensures CountChar(s, c) == 0
    decreases |s|
  {
    if s != [] {
      CountCharAbsent(s[1..], c);
    }
  }

  /** `n` closing braces. */
  function Closers(n: nat): (r: String)
    ensures |r| == n && forall k :: 0 <= k < n ==> r[k] == '}'
  {
    seq(n, _ => '}')
  }

  lemma {:induction false} ClosersCount(n: nat)
    ensures CountChar(Closers(n), '}') == n && CountChar(Closers(n), '{') == 0
    decreases n
  {
    if n > 0 {
      ClosersCount(n - 1);
      assert Closers(n)[1..] == Closers(n - 1);
    }
  }

  /** How many closing braces the balancing loop appends: the surplus of `{` over `}`, if any. */
  function MissingClosers(s: String): nat {
    var d := CountChar(s, '{') - CountChar(s, '}');
    if d > 0 then d else 0
  }

  /** The balancing loop: append one `}` per unmatched `{`. */
  function Balance(s: String): String {
    s + Closers(MissingClosers(s))
  }

  predicate BracesClosed(s: String) { CountChar(s, '}') >= CountChar(s, '{') }

  /**
   * After balancing there are at least as many `}` as `{`, exactly as many
   * when there were fewer before; a text that was already closed is left alone.
   */
  lemma BalanceCloses(s: String)
    ensures BracesClosed(Balance(s))
    ensures CountChar(s, '{') >= CountChar(s, '}') ==> CountChar(Balance(s), '}') == CountChar(Balance(s), '{')
    ensures BracesClosed(s) ==> Balance(s) == s
  {
    var n := MissingClosers(s);
    CountCharAppend(s, Closers(n), '{');
    CountCharAppend(s, Closers(n), '}');
    ClosersCount(n);
  }

  /** `,(\s*[}\]])` matches at `i`: a comma that only whitespace separates from a closer. */
  predicate TrailingCommaAt(s: String, i: nat)
    requires i < |s|
  {
    s[i] == ',' && var w := SkipSpaces(s, i + 1); w < |s| && (s[w] == '}' || s[w] == ']')
  }

  /**
   * `replace(/,(\s*[}\]])/g, '$1')` on `s[i..]`: every comma the pattern
   * matches is dropped and everything else stays (the whitespace and the
   * closer it consumes hold no comma, so the global scan sees every one).
   */
  function DropTrailingCommasFrom(s: String, i: nat): String
    requires i <= |s|
    decreases |s| - i
  {
    if i == |s| then []
    else (if TrailingCommaAt(s, i) then [] else [s[i]]) + DropTrailingCommasFrom(s, i + 1)
  }

  function DropTrailingCommas(s: String): String {
    DropTrailingCommasFrom(s, 0)
  }

  /** Dropping trailing commas keeps every other character, as many times as it occurred. */
  lemma {:induction false} DropTrailingCommasKeeps(s: String, i: nat, c: char)
    requires i <= |s| && c != ','
    ensures CountChar(DropTrailingCommasFrom(s, i), c) == CountChar(s[i..], c)
    decreases |s| - i
  {
    if i < |s| {
      DropTrailingCommasKeeps(s, i + 1, c);
      var head: String := if TrailingCommaAt(s, i) then [] else [s[i]];
      CountCharAppend(head, DropTrailingCommasFrom(s, i + 1), c);
      assert s[i..][1..] == s[i + 1..];
    }
  }

  /** A text without commas goes through unchanged. */
  lemma {:induction false} DropTrailingCommasNone(s: String, i: nat)
    requires i <= |s|
    requires forall k :: 0 <= k < |s| ==> s[k] != ','
    ensures DropTrailingCommasFrom(s, i) == s[i..]
    decreases |s| - i
  {
    if i < |s| {
      DropTrailingCommasNone(s, i + 1);
      assert s[i..] == [s[i]] + s[i + 1..];
    }
  }

  /** `:\s*"[^"]*$` matches at `p`: a colon, whitespace, then the text's last quote. */
  predicate IncompleteAt(s: String, p: nat) {
    p < |s| && s[p] == ':'
    && var w := SkipSpaces(s, p + 1);
       w < |s| && s[w] == '"' && forall k :: w < k < |s| ==> s[k] != '"'
  }

  /** The leftmost place at or after `from` where `:\s*"[^"]*$` matches. */
  function FirstIncomplete(s: String, from: nat): (r: Option<nat>)
    requires from <= |s|
    ensures r.Some? ==> from <= r.value < |s| && IncompleteAt(s, r.value)
    ensures forall k :: from <= k < |s| && (r.None? || k < r.value) ==> !IncompleteAt(s, k)
    decreases |s| - from
  {
    if from == |s| then None
    else if IncompleteAt(s, from) then Some(from)
    else FirstIncomplete(s, from + 1)
  }

  const Incomplete: String := ": \"incomplete\""

  /** `replace(/:\s*"[^"]*$/, ': "incomplete"')`: an unterminated final string value is closed. */
  function CloseIncompleteString(s: String): String {
    match FirstIncomplete(s, 0)
    case None => s
    case Some(p) => s[..p] + Incomplete
  }

  /** Closing an unterminated string leaves nothing for a second pass to close. */
  lemma CloseIncompleteIdempotent(s: String)
    ensures CloseIncompleteString(CloseIncompleteString(s)) == CloseIncompleteString(s)
  {
    var r := CloseIncompleteString(s);
    if FirstIncomplete(s, 0).Some? {
      var p := FirstIncomplete(s, 0).value;
      assert r == s[..p] + Incomplete;
      assert r[|r| - 1] == '"' && r[|r| - 2] == 'e';
      assert !IsSpace(r[|r| - 2]);
      forall k | 0 <= k < |r|
        ensures !IncompleteAt(r, k)
      {
      }
    }
  }

  /** `,\s*$` matches at `p`: a comma followed by nothing but whitespace. */
  predicate EndCommaAt(s: String, p: nat) {
    p < |s| && s[p] == ',' && SkipSpaces(s, p + 1) == |s|
  }

  function FirstEndComma(s: String, from: nat): (r: Option<nat>)
    requires from <= |s|
    ensures r.Some? ==> from <= r.value < |s| && EndCommaAt(s, r.value)
    ensures forall k :: from <= k < |s| && (r.None? || k < r.value) ==> !EndCommaAt(s, k)
    decreases |s| - from
  {
    if from == |s| then None
    else if EndCommaAt(s, from) then Some(from)
    else FirstEndComma(s, from + 1)
  }

  /** `replace(/,\s*$/, '')`: a dangling final comma and the whitespace after it go. */
  function DropEndComma(s: String): String {
    match FirstEndComma(s, 0)
    case None => s
    case Some(p) => s[..p]
  }

  /** Dropping the end comma removes a comma and whitespace only, so no other character's count changes. */
  lemma DropEndCommaKeeps(s: String, c: char)
    requires c != ',' && !IsSpace(c)
    ensures CountChar(DropEndComma(s), c) == CountChar(s, c)
  {
    if FirstEndComma(s, 0).Some? {
      var p := FirstEndComma(s, 0).value;
      assert s == s[..p] + s[p..];
      CountCharAppend(s[..p], s[p..], c);
      CountCharAbsent(s[p..], c);
    }
  }

  const SectionsKey: String := "\"sections\":"
  const SectionsFoundKey: String := "\"sectionsFound\":"

  /**
   * Where the lazy `(.*?)\]` that starts at `i` stops: at the first `]`; `.`
   * crosses line ends only under the `s` flag (`dotAll`).
   */
  function ListEnd(s: String, i: nat, dotAll: bool): (r: Option<nat>)
    requires i <= |s|
    ensures r.Some? ==> i <= r.value < |s| && s[r.value] == ']'
    ensures r.Some? ==> forall k :: i <= k < r.value ==> s[k] != ']' && (dotAll || !IsLineTerminator(s[k]))
    decreases |s| - i
  {
    if i == |s| then None
    else if s[i] == ']' then Some(i)
    else if !dotAll && IsLineTerminator(s[i]) then None
    else ListEnd(s, i + 1, dotAll)
  }

  /** The capture of `key\s*\[(.*?)\]` anchored at `p`. */
  function ListAt(s: String, key: String, p: nat, dotAll: bool): (r: Option<String>)
    requires p <= |s|
    ensures r.Some? ==> forall k :: 0 <= k < |r.value| ==> r.value[k] != ']' && (dotAll || !IsLineTerminator(r.value[k]))
  {
    if !OccursAt(s, key, p) then None
    else
      var w := SkipSpaces(s, p + |key|);
      if w < |s| && s[w] == '[' then
        match ListEnd(s, w + 1, dotAll)
        case Some(e) => Some(s[w + 1..e])
        case None => None
      else None
  }

  /** `s.match(/key\s*\[(.*?)\]/)[1]`: the capture at the leftmost place the pattern matches. */
  function FirstList(s: String, key: String, from: nat, dotAll: bool): (r: Option<String>)
    requires from <= |s|
    ensures r.Some? ==> exists p :: from <= p < |s| && ListAt(s, key, p, dotAll) == r
    decreases |s| - from
  {
    if from == |s| then None
    else match ListAt(s, key, from, dotAll)
      case Some(c) => Some(c)
      case None => FirstList(s, key, from + 1, dotAll)
  }

  /** The skeleton the reply is rebuilt into, around the two captured lists. */
  const SkeletonHead: String := "{\n          \"metadata\": {\n            \"language\": \"auto-detected\",\n            \"totalQuestions\": 0,\n            \"documentType\": \"exam\",\n            \"extractionConfidence\": 95,\n            \"sectionsFound\": ["
  const SkeletonMiddle: String := "]\n          },\n          \"content\": {\n            \"sections\": ["
  const SkeletonTail: String := "]\n          }\n        }"

  function Skeleton(sectionsFound: String, sectionsContent: String): String {
    SkeletonHead + sectionsFound + SkeletonMiddle + sectionsContent + SkeletonTail
  }

  /** The two openings the reply is expected to start with. */
  predicate HasMetadataRoot(s: String) {
    StartsWith(Trim(s), "{\"metadata\"") || StartsWith(Trim(s), "{\n  \"metadata\"")
  }

  /**
   * The reconstruction step: a reply without its metadata root is rebuilt
   * around whatever `"sections"` and `"sectionsFound"` lists it holds; the
   * first is searched across lines, the second within one line.
   */
  function Reconstruct(s: String): (r: String)
    ensures HasMetadataRoot(s) ==> r == s
  {
    if HasMetadataRoot(s) then s
    else
      var sections := FirstList(s, SectionsKey, 0, true);
      var found := FirstList(s, SectionsFoundKey, 0, false);
      if sections.None? && found.None? then s
      else Skeleton(if found.Some? then found.value else "\"Unknown\"",
                    if sections.Some? then sections.value else "[]")
  }

  /** `fixCommonJSONIssues` as written: balance the braces first, close an unterminated string afterwards. */
  function FixJsonAsWritten(s: String): String {
    DropEndComma(CloseIncompleteString(DropTrailingCommas(Balance(Reconstruct(s)))))
  }

  /** `fixCommonJSONIssues`, with the loop that appends the missing braces. */
  method FixCommonJSONIssues(jsonString: String) returns (fixed: String)
    ensures fixed == FixJsonAsWritten(jsonString)
  {
    fixed := Reconstruct(jsonString);
    var openBraces: int := CountChar(fixed, '{');
    var closeBraces: int := CountChar(fixed, '}');
    ghost var base := fixed;
    var i := 0;
    while i < openBraces - closeBraces
      invariant 0 <= i && (i <= openBraces - closeBraces || i == 0)
      invariant fixed == base + Closers(i)
    {
      fixed := fixed + "}";
      i := i + 1;
      assert Closers(i) == Closers(i - 1) + "}";
      AppendAssoc(base, Closers(i - 1), "}");
    }
    assert i == MissingClosers(base);
    fixed := DropTrailingCommas(fixed);
    fixed := CloseIncompleteString(fixed);
    fixed := DropEndComma(fixed);
  }

  /**
   * When the reply holds no unterminated string, the repaired text has every
   * `{` closed; the string fix is what can undo the balancing.
   */
  lemma FixJsonAsWrittenCloses(s: String)
    requires FirstIncomplete(DropTrailingCommas(Balance(Reconstruct(s))), 0).None?
    ensures BracesClosed(FixJsonAsWritten(s))
  {
    var b := Balance(Reconstruct(s));
    BalanceCloses(Reconstruct(s));
    DropTrailingCommasKeeps(b, 0, '{');
    DropTrailingCommasKeeps(b, 0, '}');
    assert b[0..] == b;
    var d := DropTrailingCommas(b);
    DropEndCommaKeeps(d, '{');
    DropEndCommaKeeps(d, '}');
  }

  /** A truncated reply whose last value is an unterminated string. */
  const TruncatedReply: String := "{\"metadata\": \"abc"

  /** The number of `{` in a text that starts with one and holds no other. */
  lemma OneOpener(s: String)
    requires |s| > 0 && s[0] == '{'
    requires forall k :: 0 < k < |s| ==> s[k] != '{' && s[k] != '}'
    ensures CountChar(s, '{') == 1 && CountChar(s, '}') == 0
  {
    assert s == "{" + s[1..];
    CountCharAppend("{", s[1..], '{');
    CountCharAbsent(s[1..], '{');
    CountCharAbsent(s, '}');
  }

  lemma TruncatedRooted(s: String)
    requires s == TruncatedReply
    ensures Reconstruct(s) == s
  {
    assert SkipSpaces(s, 0) == 0;
    assert TrimEndFrom(s, 0, |s|) == |s|;
    assert Trim(s) == s;
    assert s[..11] == "{\"metadata\"";
  }

  lemma TruncatedBalanced(s: String)
    requires s == TruncatedReply
    ensures Balance(s) == s + "}"
  {
    OneOpener(s);
    assert Closers(1) == "}";
  }

  lemma TruncatedClosed(b: String)
    requires b == TruncatedReply + "}"
    ensures CloseIncompleteString(DropTrailingCommas(b)) == "{\"metadata\"" + Incomplete
  {
    DropTrailingCommasNone(b, 0);
    assert b[0..] == b;
    assert SkipSpaces(b, 13) == 13;
    assert SkipSpaces(b, 12) == 13;
    assert IncompleteAt(b, 11);
    forall k | 0 <= k < 11
      ensures !IncompleteAt(b, k)
    {
      assert b[k] != ':';
    }
    assert b[..11] == "{\"metadata\"";
  }

  lemma ClosedReplyKept(c: String)
    requires c == "{\"metadata\"" + Incomplete
    ensures DropEndComma(c) == c && !BracesClosed(c)
  {
    forall k | 0 <= k < |c|
      ensures !EndCommaAt(c, k)
    {
      assert c[k] != ',';
    }
    OneOpener(c);
  }

  /**
   * On `{"metadata": "abc` the brace loop appends `}`, and the string fix then
   * replaces everything from the colon, that brace included: the result
   * `{"metadata": "incomplete"` still has an unclosed `{`.
   */
  lemma FixJsonAsWrittenLeavesOpen(s: String)
    requires s == TruncatedReply
    ensures FixJsonAsWritten(s) == "{\"metadata\"" + Incomplete
    ensures !BracesClosed(FixJsonAsWritten(s))
  {
    TruncatedRooted(s);
    TruncatedBalanced(s);
    TruncatedClosed(s + "}");
    var c := "{\"metadata\"" + Incomplete;
    assert CloseIncompleteString(DropTrailingCommas(Balance(Reconstruct(s)))) == c;
    ClosedReplyKept(c);
  }

  /** The repair with the string fix moved before the balancing loop, as the loop evidently intends. */
  function FixJsonBalanced(s: String): String {
    DropEndComma(DropTrailingCommas(Balance(CloseIncompleteString(Reconstruct(s)))))
  }

  /** With the string closed first, every `{` of the repaired text is closed. */
  lemma FixJsonBalancedCloses(s: String)
    ensures BracesClosed(FixJsonBalanced(s))
  {
    var b := Balance(CloseIncompleteString(Reconstruct(s)));
    BalanceCloses(CloseIncompleteString(Reconstruct(s)));
    DropTrailingCommasKeeps(b, 0, '{');
    DropTrailingCommasKeeps(b, 0, '}');
    assert b[0..] == b;
    var d := DropTrailingCommas(b);
    DropEndCommaKeeps(d, '{');
    DropEndCommaKeeps(d, '}');
  }

  // =====================================================================
  // Questions and sections as the AI reply gives them

  /**
   * A question of the AI reply. A missing `options`, `questionImages` or
   * `subparts` array is the empty sequence, since every step below treats a
   * missing array and an empty one alike; a missing `points` is 0.
   */
  datatype AiQuestion = AiQuestion(id: int, question: String, options: seq<String>,
                                   questionImages: seq<String>, points: int, subparts: seq<String>)

  /**
   * A section of the reply. `listed` says whether its `questions` key holds
   * an array; an absent or null `questions` is modelled as an empty list
   * that is not listed.
   */
  datatype AiSection = AiSection(id: String, name: Option<String>, listed: bool, questions: seq<AiQuestion>)

  /** Every section's questions, in order. */
  function AllQuestions(sections: seq<AiSection>): seq<AiQuestion>
    decreases |sections|
  {
    if sections == [] then []
    else AllQuestions(sections[..|sections| - 1]) + sections[|sections| - 1].questions
  }

  /** `countQuestions`: the sum of the sections' question counts. */
  function CountQuestions(sections: seq<AiSection>): nat
    decreases |sections|
  {
    if sections == [] then 0
    else CountQuestions(sections[..|sections| - 1]) + |sections[|sections| - 1].questions|
  }

  /** The count is the number of questions the sections hold together. */
  lemma {:induction false} CountQuestionsAll(sections: seq<AiSection>)
    ensures CountQuestions(sections) == |AllQuestions(sections)|
    decreases |sections|
  {
    if sections != [] {
      CountQuestionsAll(sections[..|sections| - 1]);
    }
  }

  /** Counting the sections of two lists one after the other adds their counts. */
  lemma {:induction false} CountQuestionsAppend(a: seq<AiSection>, b: seq<AiSection>)
    ensures CountQuestions(a + b) == CountQuestions(a) + CountQuestions(b)
    decreases |b|
  {
    if b == [] {
      assert a + b == a;
    } else {
      var b' := b[..|b| - 1];
      assert (a + b)[..|a + b| - 1] == a + b';
      CountQuestionsAppend(a, b');
    }
  }

  // =====================================================================
  // detectAndSplitMergedQuestions

  /**
   * Where `\b(\d+)\s*[.．]` matched: the digits are `s[start..digitsEnd]` and
   * read `number`; the match ends at `end`.
   */
  datatype Mark = Mark(start: nat, digitsEnd: nat, end: nat, number: nat)

  predicate IsMarkDot(c: char) { c == '.' || c == '\U{FF0E}' }

  /**
   * `\b(\d+)\s*[.．]` tried at `p`: a digit run that starts a word, then
   * whitespace, then a full stop (ASCII or full-width). Giving back digits or
   * whitespace never helps, so the greedy runs decide.
   */
  function MarkAt(s: String, p: nat): (r: Option<Mark>)
    ensures r.Some? ==> r.value.start == p < r.value.digitsEnd < r.value.end <= |s|
    ensures r.Some? ==> AllDigits(s[p..r.value.digitsEnd]) && r.value.number == DigitsValue(s[p..r.value.digitsEnd])
  {
    if p < |s| && IsDigit(s[p]) && (p == 0 || !IsWordChar(s[p - 1])) then
      var d := SkipDigits(s, p);
      var w := SkipSpaces(s, d);
      if w < |s| && IsMarkDot(s[w]) then Some(Mark(p, d, w + 1, DigitsValue(s[p..d]))) else None
    else None
  }

  /** Marks at or after `from`, each a match of the pattern where it starts. */
  predicate MarksMatch(s: String, marks: seq<Mark>, from: nat) {
    forall i :: 0 <= i < |marks| ==> from <= marks[i].start && MarkAt(s, marks[i].start) == Some(marks[i])
  }

  /** Marks in order, none overlapping a later one. */
  predicate MarksOrdered(marks: seq<Mark>) {
    forall i, j :: 0 <= i < j < |marks| ==> marks[i].end <= marks[j].start
  }

  /** The global scan of `\b(\d+)\s*[.．]` from `from`: the matches `match(/…/g)` lists and `split` cuts at. */
  function MarksFrom(s: String, from: nat): (r: seq<Mark>)
    requires from <= |s|
    ensures r != [] ==> from <= r[0].start < r[0].end <= |s|
    decreases |s| - from
  {
    if from == |s| then []
    else match MarkAt(s, from)
      case Some(m) => [m] + MarksFrom(s, m.end)
      case None => MarksFrom(s, from + 1)
  }

  /** Every mark the scan finds is a match where it starts. */
  lemma {:induction false} MarksFromMatch(s: String, from: nat)
    requires from <= |s|
    ensures MarksMatch(s, MarksFrom(s, from), from)
    decreases |s| - from
  {
    if from < |s| {
      match MarkAt(s, from)
      case Some(m) =>
        MarksFromMatch(s, m.end);
        MatchPrepend(s, from, m, MarksFrom(s, m.end));
      case None =>
        MarksFromMatch(s, from + 1);
    }
  }

  lemma MatchPrepend(s: String, from: nat, m: Mark, rest: seq<Mark>)
    requires MarkAt(s, from) == Some(m) && MarksMatch(s, rest, m.end)
    ensures MarksMatch(s, [m] + rest, from)
  {
    var r := [m] + rest;
    forall i | 0 <= i < |r|
      ensures from <= r[i].start && MarkAt(s, r[i].start) == Some(r[i])
    {
      if i > 0 {
        assert r[i] == rest[i - 1];
      }
    }
  }

  /** The marks the scan finds come in order, each ending before the next begins. */
  lemma {:induction false} MarksFromOrdered(s: String, from: nat)
    requires from <= |s|
    ensures MarksOrdered(MarksFrom(s, from))
    decreases |s| - from
  {
    if from < |s| {
      match MarkAt(s, from)
      case Some(m) =>
        MarksFromOrdered(s, m.end);
        MarksFromMatch(s, m.end);
        OrderedPrepend(m, MarksFrom(s, m.end));
      case None =>
        MarksFromOrdered(s, from + 1);
    }
  }

  lemma OrderedPrepend(m: Mark, rest: seq<Mark>)
    requires MarksOrdered(rest) && forall i :: 0 <= i < |rest| ==> m.end <= rest[i].start
    ensures MarksOrdered([m] + rest)
  {
    var r := [m] + rest;
    forall i, j | 0 <= i < j < |r|
      ensures r[i].end <= r[j].start
    {
      assert r[j] == rest[j - 1];
      if i > 0 {
        assert r[i] == rest[i - 1];
      }
    }
  }

  /**
   * The text `split` puts after the `i`th mark: up to the next mark or the
   * end (the guard always holds for the marks `MarksFrom` finds).
   */
  function Segment(s: String, marks: seq<Mark>, i: nat): String
    requires i < |marks|
  {
    var next := if i + 1 < |marks| then marks[i + 1].start else |s|;
    if marks[i].end <= next <= |s| then s[marks[i].end..next] else []
  }

  /** `split(/\b\d+\s*[.．]/)[0]`: the text before the first mark. */
  function FirstPart(s: String): (r: String)
    ensures |r| <= |s| && r == s[..|r|]
  {
    var marks := MarksFrom(s, 0);
    if marks == [] then s else s[..marks[0].start]
  }

  /** The points a split piece gets: the 1/2/3 table in the first section, 7 elsewhere. */
  function PiecePoints(sectionId: String, n: nat): int {
    if sectionId == "section1" then Points.SplitPoints(n) else 7
  }

  /** What every split piece is: the question with a new number, text, no images and table points. */
  predicate IsPieceOf(q: AiQuestion, sectionId: String, p: AiQuestion) {
    p.id >= 0 && p.questionImages == [] && p.points == PiecePoints(sectionId, p.id)
    && p.options == q.options && p.subparts == q.subparts
  }

  /**
   * A number `split` captured and the text that follows it, with that text
   * trimmed (`content`) and the trimmed first part of the content (`head`).
   */
  datatype Part = Part(number: nat, text: String, content: String, head: String)

  function PartOf(number: nat, text: String): (r: Part)
    ensures r.content == Trim(text) && r.head == Trim(FirstPart(Trim(text)))
  {
    var content := Trim(text);
    Part(number, text, content, Trim(FirstPart(content)))
  }

  /** `questionText.split(/\b(\d+)\s*[.．]/)` read in pairs: each mark's number and segment. */
  function Parts(s: String, marks: seq<Mark>): (r: seq<Part>)
    ensures |r| == |marks|
    ensures forall i :: 0 <= i < |marks| ==> r[i] == PartOf(marks[i].number, Segment(s, marks, i))
  {
    seq(|marks|, i requires 0 <= i < |marks| => PartOf(marks[i].number, Segment(s, marks, i)))
  }

  /** The piece a part becomes, when its trimmed text is longer than 20. */
  function PieceOf(q: AiQuestion, part: Part, sectionId: String): Option<AiQuestion> {
    if part.text != [] && JsLength(part.content) > 20 then
      Some(q.(id := part.number, question := part.head, questionImages := [],
              points := PiecePoints(sectionId, part.number)))
    else None
  }

  /** A piece carries the number of its part, and the part's trimmed text is longer than 20. */
  lemma PieceOfShape(q: AiQuestion, part: Part, sectionId: String)
    ensures var r := PieceOf(q, part, sectionId);
      r.Some? ==>
        && IsPieceOf(q, sectionId, r.value)
        && JsLength(part.content) > 20
        && r.value.id == part.number
  {
  }

  /** The pieces of the first `n` parts. */
  function Pieces(q: AiQuestion, parts: seq<Part>, n: nat, sectionId: String): seq<AiQuestion>
    requires n <= |parts|
  {
    if n == 0 then [] else Pieces(q, parts, n - 1, sectionId) + ToSeq(PieceOf(q, parts[n - 1], sectionId))
  }

  /** At most one piece per part, and every piece is a piece of the question. */
  lemma {:induction false} PiecesShape(q: AiQuestion, parts: seq<Part>, n: nat, sectionId: String)
    requires n <= |parts|
    ensures var r := Pieces(q, parts, n, sectionId);
      |r| <= n && forall k :: 0 <= k < |r| ==> IsPieceOf(q, sectionId, r[k])
  {
    if n > 0 {
      var prev := Pieces(q, parts, n - 1, sectionId);
      var piece := PieceOf(q, parts[n - 1], sectionId);
      var r := prev + ToSeq(piece);
      assert Pieces(q, parts, n, sectionId) == r;
      PiecesShape(q, parts, n - 1, sectionId);
      PieceOfShape(q, parts[n - 1], sectionId);
      forall k | 0 <= k < |r|
        ensures IsPieceOf(q, sectionId, r[k])
      {
        if k < |prev| {
          assert r[k] == prev[k];
        } else {
          assert r[k] == piece.value;
        }
      }
    }
  }

  lemma PiecesNext(q: AiQuestion, parts: seq<Part>, i: nat, sectionId: String)
    requires i < |parts|
    ensures Pieces(q, parts, i + 1, sectionId) == Pieces(q, parts, i, sectionId) + ToSeq(PieceOf(q, parts[i], sectionId))
  {
  }

  /** `detectAndSplitMergedQuestions` */
  function SplitMerged(q: AiQuestion, sectionId: String): seq<AiQuestion> {
    if JsLength(q.question) > 500 then
      var marks := MarksFrom(q.question, 0);
      if |marks| > 1 then
        var parts := Parts(q.question, marks);
        var pieces := Pieces(q, parts, |parts|, sectionId);
        if |pieces| > 1 then pieces else [q]
      else [q]
    else [q]
  }

  /**
   * A question comes back whole, or, only when its text is longer than 500
   * and holds at least two pieces, as those pieces: each with the number of
   * its mark, no images and the points of the table.
   */
  lemma SplitMergedShape(q: AiQuestion, sectionId: String)
    ensures |SplitMerged(q, sectionId)| >= 1
    ensures JsLength(q.question) <= 500 ==> SplitMerged(q, sectionId) == [q]
    ensures var r := SplitMerged(q, sectionId);
      r == [q] || (JsLength(q.question) > 500 && |r| > 1 && forall k :: 0 <= k < |r| ==> IsPieceOf(q, sectionId, r[k]))
  {
    if JsLength(q.question) > 500 {
      var marks := MarksFrom(q.question, 0);
      if |marks| > 1 {
        PiecesShape(q, Parts(q.question, marks), |marks|, sectionId);
      }
    }
  }

  /** The loop over the marks of `detectAndSplitMergedQuestions`, keeping the pieces long enough to be questions. */
  method CollectPieces(question: AiQuestion, parts: seq<Part>, sectionId: String) returns (splitQuestions: seq<AiQuestion>)
    ensures splitQuestions == Pieces(question, parts, |parts|, sectionId)
  {
    splitQuestions := [];
    var i := 0;
    while i < |parts|
      invariant i <= |parts|
      invariant splitQuestions == Pieces(question, parts, i, sectionId)
    {
      var piece := PieceOf(question, parts[i], sectionId);
      PiecesNext(question, parts, i, sectionId);
      if piece.Some? {
        splitQuestions := splitQuestions + [piece.value];
      }
      i := i + 1;
    }
  }

  /** `detectAndSplitMergedQuestions` */
  method DetectAndSplitMergedQuestions(question: AiQuestion, sectionId: String) returns (r: seq<AiQuestion>)
    ensures r == SplitMerged(question, sectionId)
  {
    r := [question];
    if JsLength(question.question) > 500 {
      var numberMatches := MarksFrom(question.question, 0);
      if |numberMatches| > 1 {
        var parts := Parts(question.question, numberMatches);
        var splitQuestions := CollectPieces(question, parts, sectionId);
        if |splitQuestions| > 1 {
          r := splitQuestions;
        }
      }
    }
  }

  /** With the marks the scan finds, each segment is exactly the text between a mark and the next one. */
  lemma SegmentBetweenMarks(s: String, i: nat)
    requires i < |MarksFrom(s, 0)|
    ensures var marks := MarksFrom(s, 0);
      var next := if i + 1 < |marks| then marks[i + 1].start else |s|;
      marks[i].end <= next <= |s| && Segment(s, marks, i) == s[marks[i].end..next]
  {
    var marks := MarksFrom(s, 0);
    MarksFromMatch(s, 0);
    MarksFromOrdered(s, 0);
    assert MarkAt(s, marks[i].start) == Some(marks[i]);
    if i + 1 < |marks| {
      assert MarkAt(s, marks[i + 1].start) == Some(marks[i + 1]);
    }
  }

  // =====================================================================
  // validateAndFixQuestions

  /** `splitQuestions` for every question of a section, in order. */
  function SplitAll(questions: seq<AiQuestion>, sectionId: String): seq<AiQuestion>
    decreases |questions|
  {
    if questions == [] then []
    else SplitAll(questions[..|questions| - 1], sectionId) + SplitMerged(questions[|questions| - 1], sectionId)
  }

  /** Splitting never loses a question: each one yields at least one. */
  lemma {:induction false} SplitAllKeepsCount(questions: seq<AiQuestion>, sectionId: String)
    ensures |SplitAll(questions, sectionId)| >= |questions|
    decreases |questions|
  {
    if questions != [] {
      SplitAllKeepsCount(questions[..|questions| - 1], sectionId);
      SplitMergedShape(questions[|questions| - 1], sectionId);
    }
  }

  /** The options given to a multiple-choice question that came without any. */
  const NotExtracted: seq<String> := [
    "A. [Option not extracted]", "B. [Option not extracted]", "C. [Option not extracted]",
    "D. [Option not extracted]", "E. [Option not extracted]"
  ]

  /** The section is the first one or its name mentions `choice`: its questions need options. */
  predicate NeedsOptions(section: AiSection) {
    section.id == "section1" || (section.name.Some? && Contains(Lower(section.name.value), "choice"))
  }

  /** The points a question without any gets: 1 in the first section, 7 elsewhere. */
  function DefaultPoints(sectionId: String): int {
    if sectionId == "section1" then 1 else 7
  }

  /** The images a question keeps, and the set of URLs used so far. */
  datatype Kept = Kept(images: seq<String>, used: set<String>)

  /** The image loop: keep each non-empty URL not used before, in order, and record it. */
  function KeepNew(urls: seq<String>, used: set<String>): Kept
    decreases |urls|
  {
    if urls == [] then Kept([], used)
    else
      var k := KeepNew(urls[..|urls| - 1], used);
      var url := urls[|urls| - 1];
      if url != [] && url !in k.used then Kept(k.images + [url], k.used + {url}) else k
  }

  predicate Distinct(s: seq<String>) {
    forall i, j :: 0 <= i < j < |s| ==> s[i] != s[j]
  }

  /**
   * The kept images are distinct, non-empty, taken from the question and new
   * to `used`; the used set grows by exactly them; and every non-empty URL
   * of the question ends up used.
   */
  lemma {:induction false} KeepNewSound(urls: seq<String>, used: set<String>)
    ensures var k := KeepNew(urls, used);
      && Distinct(k.images)
      && (forall u :: u in k.images ==> u != [] && u !in used && u in urls)
      && (forall u :: u in k.used <==> u in used || u in k.images)
      && (forall u :: u in urls && u != [] ==> u in k.used)
    decreases |urls|
  {
    if urls != [] {
      var init := urls[..|urls| - 1];
      KeepNewSound(init, used);
      var k := KeepNew(init, used);
      var url := urls[|urls| - 1];
      assert urls == init + [url];
      if url != [] && url !in k.used {
        var images := k.images + [url];
        forall i, j | 0 <= i < j < |images|
          ensures images[i] != images[j]
        {
          if j < |k.images| {
            assert images[i] == k.images[i] && images[j] == k.images[j];
          } else {
            assert images[i] == k.images[i];
          }
        }
      }
    }
  }

  /** The question after the fixes: options filled in where needed, the kept images, default points. */
  function Repair(q: AiQuestion, section: AiSection, images: seq<String>): AiQuestion {
    q.(options := if NeedsOptions(section) && q.options == [] then NotExtracted else q.options,
       questionImages := images,
       points := if q.points == 0 then DefaultPoints(section.id) else q.points)
  }

  /** What repairing promises about one question. */
  predicate Repaired(q: AiQuestion, r: AiQuestion, section: AiSection) {
    && r.id == q.id && r.question == q.question && r.subparts == q.subparts
    && (NeedsOptions(section) ==> |r.options| > 0)
    && (q.options != [] ==> r.options == q.options)
    && r.points != 0
    && r.points == (if q.points == 0 then DefaultPoints(section.id) else q.points)
    && (forall u :: u in r.questionImages ==> u in q.questionImages)
  }

  /** The questions fixed so far and the URLs used so far. */
  datatype Fixed = Fixed(questions: seq<AiQuestion>, used: set<String>)

  /** The loop over a section's (already split) questions. */
  function FixQuestions(questions: seq<AiQuestion>, section: AiSection, used: set<String>): Fixed
    decreases |questions|
  {
    if questions == [] then Fixed([], used)
    else
      var f := FixQuestions(questions[..|questions| - 1], section, used);
      var q := questions[|questions| - 1];
      var k := KeepNew(q.questionImages, f.used);
      Fixed(f.questions + [Repair(q, section, k.images)], k.used)
  }

  /** Every image of a list of questions, in order. */
  function Images(questions: seq<AiQuestion>): seq<String>
    decreases |questions|
  {
    if questions == [] then []
    else Images(questions[..|questions| - 1]) + questions[|questions| - 1].questionImages
  }

  lemma DistinctAppend(a: seq<String>, b: seq<String>)
    requires Distinct(a) && Distinct(b) && forall u :: u in b ==> u !in a
    ensures Distinct(a + b)
  {
    var c := a + b;
    forall i, j | 0 <= i < j < |c|
      ensures c[i] != c[j]
    {
      if j < |a| {
        assert c[i] == a[i] && c[j] == a[j];
      } else if i < |a| {
        assert c[i] == a[i] && c[j] == b[j - |a|];
        assert b[j - |a|] in b && a[i] in a;
      } else {
        assert c[i] == b[i - |a|] && c[j] == b[j - |a|];
      }
    }
  }

  /** The images a fixing pass keeps, and how the used set grows: the invariant of the loop. */
  ghost predicate ImagesAccounted(input: seq<String>, kept: seq<String>, used: set<String>, used': set<String>) {
    && Distinct(kept)
    && (forall u :: u in kept ==> u != [] && u !in used && u in input)
    && (forall u :: u in used' <==> u in used || u in kept)
    && (forall u :: u in input && u != [] ==> u in used')
  }

  /** Two passes one after the other account for the images of both. */
  lemma ImagesAccountedAppend(input: seq<String>, kept: seq<String>, used: set<String>, mid: set<String>,
                              input2: seq<String>, kept2: seq<String>, used': set<String>)
    requires ImagesAccounted(input, kept, used, mid)
    requires ImagesAccounted(input2, kept2, mid, used')
    ensures ImagesAccounted(input + input2, kept + kept2, used, used')
  {
    DistinctAppend(kept, kept2);
  }

  lemma KeepNewAccounted(urls: seq<String>, used: set<String>)
    ensures ImagesAccounted(urls, KeepNew(urls, used).images, used, KeepNew(urls, used).used)
  {
    KeepNewSound(urls, used);
  }

  /**
   * Fixing a section's questions repairs each one in place and keeps its
   * images so that no URL is kept twice or kept again after an earlier use.
   */
  lemma {:induction false} FixQuestionsSound(questions: seq<AiQuestion>, section: AiSection, used: set<String>)
    ensures var f := FixQuestions(questions, section, used);
      && |f.questions| == |questions|
      && (forall i :: 0 <= i < |questions| ==> Repaired(questions[i], f.questions[i], section))
      && ImagesAccounted(Images(questions), Images(f.questions), used, f.used)
    decreases |questions|
  {
    if questions != [] {
      var init := questions[..|questions| - 1];
      var q := questions[|questions| - 1];
      FixQuestionsSound(init, section, used);
      var f := FixQuestions(init, section, used);
      var k := KeepNew(q.questionImages, f.used);
      var r := Repair(q, section, k.images);
      var out := f.questions + [r];
      assert FixQuestions(questions, section, used) == Fixed(out, k.used);
      KeepNewSound(q.questionImages, f.used);
      assert Repaired(q, r, section);
      forall i | 0 <= i < |questions|
        ensures Repaired(questions[i], out[i], section)
      {
        if i < |init| {
          assert questions[i] == init[i] && out[i] == f.questions[i];
        }
      }
      assert out[..|out| - 1] == f.questions;
      assert Images(out) == Images(f.questions) + k.images;
      assert Images(questions) == Images(init) + q.questionImages;
      KeepNewAccounted(q.questionImages, f.used);
      ImagesAccountedAppend(Images(init), Images(f.questions), used, f.used, q.questionImages, k.images, k.used);
    }
  }

  /** The sections fixed so far and the URLs used so far. */
  datatype FixedSections = FixedSections(sections: seq<AiSection>, used: set<String>)

  /** One section: its questions split, then fixed, with the URLs used by the sections before it. */
  function FixSection(section: AiSection, used: set<String>): Fixed {
    FixQuestions(SplitAll(section.questions, section.id), section, used)
  }

  /** The loop over the sections, one URL set shared by all of them. */
  function FixSections(sections: seq<AiSection>, used: set<String>): FixedSections
    decreases |sections|
  {
    if sections == [] then FixedSections([], used)
    else
      var f := FixSections(sections[..|sections| - 1], used);
      var section := sections[|sections| - 1];
      var g := FixSection(section, f.used);
      FixedSections(f.sections + [section.(questions := g.questions)], g.used)
  }

  /** `validateAndFixQuestions`: the sections with their questions split and fixed. */
  function ValidateAndFix(sections: seq<AiSection>): seq<AiSection> {
    FixSections(sections, {}).sections
  }

  /** Every image of every section, in order. */
  function SectionImages(sections: seq<AiSection>): seq<String>
    decreases |sections|
  {
    if sections == [] then []
    else SectionImages(sections[..|sections| - 1]) + Images(sections[|sections| - 1].questions)
  }

  /** Every image of the sections' questions once they are split. */
  function SplitImages(sections: seq<AiSection>): seq<String>
    decreases |sections|
  {
    if sections == [] then []
    else
      var section := sections[|sections| - 1];
      SplitImages(sections[..|sections| - 1]) + Images(SplitAll(section.questions, section.id))
  }

  /** A section came out with the same name and number, and each of its split questions repaired. */
  predicate SectionFixed(input: AiSection, output: AiSection) {
    var split := SplitAll(input.questions, input.id);
    && output.id == input.id && output.name == input.name
    && |output.questions| == |split|
    && forall k :: 0 <= k < |split| ==> Repaired(split[k], output.questions[k], input)
  }

  lemma FixSectionSound(section: AiSection, used: set<String>)
    ensures var g := FixSection(section, used);
      && SectionFixed(section, section.(questions := g.questions))
      && ImagesAccounted(Images(SplitAll(section.questions, section.id)), Images(g.questions), used, g.used)
  {
    FixQuestionsSound(SplitAll(section.questions, section.id), section, used);
  }

  lemma {:induction false} FixSectionsSound(sections: seq<AiSection>, used: set<String>)
    ensures var f := FixSections(sections, used);
      && |f.sections| == |sections|
      && (forall i :: 0 <= i < |sections| ==> SectionFixed(sections[i], f.sections[i]))
      && ImagesAccounted(SplitImages(sections), SectionImages(f.sections), used, f.used)
    decreases |sections|
  {
    if sections != [] {
      var init := sections[..|sections| - 1];
      FixSectionsSound(init, used);
      FixSectionsStep(sections, used);
    }
  }

  lemma FixSectionsStep(sections: seq<AiSection>, used: set<String>)
    requires sections != []
    requires var init := sections[..|sections| - 1]; var f := FixSections(init, used);
      && |f.sections| == |init|
      && (forall i :: 0 <= i < |init| ==> SectionFixed(init[i], f.sections[i]))
      && ImagesAccounted(SplitImages(init), SectionImages(f.sections), used, f.used)
    ensures var f := FixSections(sections, used);
      && |f.sections| == |sections|
      && (forall i :: 0 <= i < |sections| ==> SectionFixed(sections[i], f.sections[i]))
      && ImagesAccounted(SplitImages(sections), SectionImages(f.sections), used, f.used)
  {
    var init := sections[..|sections| - 1];
    var section := sections[|sections| - 1];
    var f := FixSections(init, used);
    var g := FixSection(section, f.used);
    var fixed := section.(questions := g.questions);
    var out := f.sections + [fixed];
    assert FixSections(sections, used) == FixedSections(out, g.used);
    FixSectionSound(section, f.used);
    forall i | 0 <= i < |sections|
      ensures SectionFixed(sections[i], out[i])
    {
      if i < |init| {
        assert sections[i] == init[i] && out[i] == f.sections[i];
      }
    }
    assert out[..|out| - 1] == f.sections;
    assert SectionImages(out) == SectionImages(f.sections) + Images(g.questions);
    assert SplitImages(sections) == SplitImages(init) + Images(SplitAll(section.questions, section.id));
    ImagesAccountedAppend(SplitImages(init), SectionImages(f.sections), used, f.used,
                          Images(SplitAll(section.questions, section.id)), Images(g.questions), g.used);
  }

  /**
   * After `validateAndFixQuestions` every question of every section is
   * repaired (a question number and text kept, points set, options present
   * where the section needs them), no image URL appears twice anywhere, every
   * kept URL is non-empty and comes from the split questions, and every
   * non-empty URL of the split questions is kept once.
   */
  lemma ValidateAndFixSound(sections: seq<AiSection>)
    ensures var r := ValidateAndFix(sections);
      && |r| == |sections|
      && (forall i :: 0 <= i < |sections| ==> SectionFixed(sections[i], r[i]))
      && Distinct(SectionImages(r))
      && (forall u :: u in SectionImages(r) ==> u != [] && u in SplitImages(sections))
      && (forall u :: u in SplitImages(sections) && u != [] ==> u in SectionImages(r))
  {
    FixSectionsSound(sections, {});
  }

  /** Fixing never loses a question: splitting only adds. */
  lemma {:induction false} ValidateAndFixKeepsCount(sections: seq<AiSection>)
    ensures CountQuestions(ValidateAndFix(sections)) >= CountQuestions(sections)
  {
    var r := ValidateAndFix(sections);
    FixSectionsSound(sections, {});
    CountAtLeast(sections, r, |sections|);
    assert r[..|r|] == r && sections[..|sections|] == sections;
  }

  lemma {:induction false} CountAtLeast(sections: seq<AiSection>, out: seq<AiSection>, n: nat)
    requires n <= |sections| == |out|
    requires forall i :: 0 <= i < |sections| ==> SectionFixed(sections[i], out[i])
    ensures CountQuestions(out[..n]) >= CountQuestions(sections[..n])
    decreases n
  {
    if n > 0 {
      CountAtLeast(sections, out, n - 1);
      assert out[..n][..n - 1] == out[..n - 1];
      assert sections[..n][..n - 1] == sections[..n - 1];
      SplitAllKeepsCount(sections[n - 1].questions, sections[n - 1].id);
      assert SectionFixed(sections[n - 1], out[n - 1]);
    } else {
      assert out[..0] == [] && sections[..0] == [];
    }
  }

  /** The image loop of `validateAndFixQuestions` for one question. */
  method KeepNewImages(questionImages: seq<String>, used: set<String>) returns (validImages: seq<String>, usedImageUrls: set<String>)
    ensures Kept(validImages, usedImageUrls) == KeepNew(questionImages, used)
  {
    validImages := [];
    usedImageUrls := used;
    var i := 0;
    while i < |questionImages|
      invariant i <= |questionImages|
      invariant Kept(validImages, usedImageUrls) == KeepNew(questionImages[..i], used)
    {
      var imageUrl := questionImages[i];
      assert questionImages[..i + 1][..i] == questionImages[..i];
      if imageUrl != [] && imageUrl !in usedImageUrls {
        usedImageUrls := usedImageUrls + {imageUrl};
        validImages := validImages + [imageUrl];
      }
      i := i + 1;
    }
    assert questionImages[..i] == questionImages;
  }

  /** The splitting loop of `validateAndFixQuestions` for one section. */
  method SplitSectionQuestions(questions: seq<AiQuestion>, sectionId: String) returns (fixedQuestions: seq<AiQuestion>)
    ensures fixedQuestions == SplitAll(questions, sectionId)
  {
    fixedQuestions := [];
    var i := 0;
    while i < |questions|
      invariant i <= |questions|
      invariant fixedQuestions == SplitAll(questions[..i], sectionId)
    {
      var splitQuestions := DetectAndSplitMergedQuestions(questions[i], sectionId);
      assert questions[..i + 1][..i] == questions[..i];
      fixedQuestions := fixedQuestions + splitQuestions;
      i := i + 1;
    }
    assert questions[..i] == questions;
  }

  /** The fixing loop of `validateAndFixQuestions` for one section's split questions. */
  method FixSectionQuestions(questions: seq<AiQuestion>, section: AiSection, used: set<String>)
    returns (fixedQuestions: seq<AiQuestion>, usedImageUrls: set<String>)
    ensures Fixed(fixedQuestions, usedImageUrls) == FixQuestions(questions, section, used)
  {
    fixedQuestions := [];
    usedImageUrls := used;
    var i := 0;
    while i < |questions|
      invariant i <= |questions|
      invariant Fixed(fixedQuestions, usedImageUrls) == FixQuestions(questions[..i], section, used)
    {
      var question := questions[i];
      var validImages;
      validImages, usedImageUrls := KeepNewImages(question.questionImages, usedImageUrls);
      assert questions[..i + 1][..i] == questions[..i];
      fixedQuestions := fixedQuestions + [Repair(question, section, validImages)];
      i := i + 1;
    }
    assert questions[..i] == questions;
  }

  /** `validateAndFixQuestions`: the loop over the sections, sharing one set of used URLs. */
  method ValidateAndFixQuestions(sections: seq<AiSection>) returns (fixedSections: seq<AiSection>)
    ensures fixedSections == ValidateAndFix(sections)
  {
    fixedSections := [];
    var usedImageUrls: set<String> := {};
    var i := 0;
    while i < |sections|
      invariant i <= |sections|
      invariant FixedSections(fixedSections, usedImageUrls) == FixSections(sections[..i], {})
    {
      var section := sections[i];
      var splitQuestions := SplitSectionQuestions(section.questions, section.id);
      var fixedQuestions;
      fixedQuestions, usedImageUrls := FixSectionQuestions(splitQuestions, section, usedImageUrls);
      assert sections[..i + 1][..i] == sections[..i];
      fixedSections := fixedSections + [section.(questions := fixedQuestions)];
      i := i + 1;
    }
    assert sections[..i] == sections;
  }

  // =====================================================================
  // convertToLegacyFormat

  predicate NameHas(section: AiSection, word: String) {
    section.name.Some? && Contains(Lower(section.name.value), word)
  }

  /** The multiple-choice section: numbered first, or named for choices. */
  predicate IsChoiceSection(section: AiSection) {
    section.id == "section1" || NameHas(section, "choice") || NameHas(section, "multiple") || NameHas(section, "сонгох")
  }

  /** The fill-in section: numbered second, or named for filling blanks. */
  predicate IsFillSection(section: AiSection) {
    section.id == "section2" || NameHas(section, "fill") || NameHas(section, "blank") || NameHas(section, "нөхөх")
  }

  /** `sections.find(p)`, as the index of the first section `p` accepts. */
  function FindSection(sections: seq<AiSection>, p: AiSection -> bool, from: nat): (r: Option<nat>)
    requires from <= |sections|
    ensures r.Some? ==> from <= r.value < |sections| && p(sections[r.value])
    ensures forall k :: from <= k < |sections| && (r.None? || k < r.value) ==> !p(sections[k])
    decreases |sections| - from
  {
    if from == |sections| then None
    else if p(sections[from]) then Some(from)
    else FindSection(sections, p, from + 1)
  }

  /** `section?.questions || []` */
  function QuestionsAt(sections: seq<AiSection>, found: Option<nat>): seq<AiQuestion> {
    if found.Some? && found.value < |sections| then sections[found.value].questions else []
  }

  /** The two lists the legacy format carries. */
  datatype Legacy = Legacy(section1: seq<AiQuestion>, section2: seq<AiQuestion>)

  /** The fallback rule: options or at most 3 points send a question to the first section, parts or 7 points to the second, anything else to the first. */
  predicate GoesToSection1(q: AiQuestion) {
    |q.options| > 0 || (q.points != 0 && q.points <= 3) || !(|q.subparts| > 0 || q.points == 7)
  }

  /** The categorising loop over all questions. */
  function Categorize(questions: seq<AiQuestion>): Legacy
    decreases |questions|
  {
    if questions == [] then Legacy([], [])
    else
      var l := Categorize(questions[..|questions| - 1]);
      var q := questions[|questions| - 1];
      if GoesToSection1(q) then Legacy(l.section1 + [q], l.section2) else Legacy(l.section1, l.section2 + [q])
  }

  /**
   * Whether `finalSection1` and `finalSection2` name one array: both `find`s
   * return the same section and its `questions` is an array, so neither
   * `|| []` makes a fresh one.
   */
  predicate SharedArray(sections: seq<AiSection>, choice: Option<nat>, fill: Option<nat>) {
    choice.Some? && choice == fill && choice.value < |sections| && sections[choice.value].listed
  }

  /**
   * `convertToLegacyFormat`: the sections found by name, or else every
   * question categorised. When the two names share one empty array, every
   * push of the categorising loop lands in it, so both lists are all the
   * questions.
   */
  function ConvertToLegacy(sections: seq<AiSection>): Legacy {
    var choice := FindSection(sections, IsChoiceSection, 0);
    var fill := FindSection(sections, IsFillSection, 0);
    var section1 := QuestionsAt(sections, choice);
    var section2 := QuestionsAt(sections, fill);
    if |section1| == 0 && |section2| == 0 then
      if SharedArray(sections, choice, fill) then Legacy(AllQuestions(sections), AllQuestions(sections))
      else Categorize(AllQuestions(sections))
    else Legacy(section1, section2)
  }

  /** Categorising splits the questions between the two lists, each by the rule, in order, losing none. */
  lemma {:induction false} CategorizePartition(questions: seq<AiQuestion>)
    ensures var l := Categorize(questions);
      && multiset(l.section1) + multiset(l.section2) == multiset(questions)
      && (forall q :: q in l.section1 ==> GoesToSection1(q))
      && (forall q :: q in l.section2 ==> !GoesToSection1(q))
    decreases |questions|
  {
    if questions != [] {
      var init := questions[..|questions| - 1];
      var q := questions[|questions| - 1];
      CategorizePartition(init);
      var l := Categorize(init);
      assert questions == init + [q];
      assert multiset(questions) == multiset(init) + multiset{q};
      if GoesToSection1(q) {
        assert Categorize(questions) == Legacy(l.section1 + [q], l.section2);
        assert multiset(l.section1 + [q]) == multiset(l.section1) + multiset{q};
      } else {
        assert Categorize(questions) == Legacy(l.section1, l.section2 + [q]);
        assert multiset(l.section2 + [q]) == multiset(l.section2) + multiset{q};
      }
    }
  }

  /**
   * The legacy lists are the questions of the first choice section and of
   * the first fill-in section; only when both are empty are all questions
   * categorised. Then, when the two lists share one array, both are all
   * the questions in order; otherwise each question lands in exactly one
   * list.
   */
  lemma ConvertToLegacySound(sections: seq<AiSection>)
    ensures var r := ConvertToLegacy(sections);
      var choice := FindSection(sections, IsChoiceSection, 0);
      var fill := FindSection(sections, IsFillSection, 0);
      && (QuestionsAt(sections, choice) != [] || QuestionsAt(sections, fill) != [] ==>
            r == Legacy(QuestionsAt(sections, choice), QuestionsAt(sections, fill)))
      && (QuestionsAt(sections, choice) == [] && QuestionsAt(sections, fill) == [] && SharedArray(sections, choice, fill) ==>
            r.section1 == r.section2 == AllQuestions(sections) && |r.section1| == CountQuestions(sections))
      && (QuestionsAt(sections, choice) == [] && QuestionsAt(sections, fill) == [] && !SharedArray(sections, choice, fill) ==>
            && multiset(r.section1) + multiset(r.section2) == multiset(AllQuestions(sections))
            && |r.section1| + |r.section2| == CountQuestions(sections)
            && (forall q :: q in r.section1 ==> GoesToSection1(q))
            && (forall q :: q in r.section2 ==> !GoesToSection1(q)))
  {
    var all := AllQuestions(sections);
    CategorizePartition(all);
    CountQuestionsAll(sections);
    var l := Categorize(all);
    assert |multiset(l.section1) + multiset(l.section2)| == |multiset(all)|;
  }

  /** `convertToLegacyFormat`, with its collecting and categorising loops. */
  method ConvertToLegacyFormat(sections: seq<AiSection>) returns (legacy: Legacy)
    ensures legacy == ConvertToLegacy(sections)
  {
    var choice := FindSection(sections, IsChoiceSection, 0);
    var fill := FindSection(sections, IsFillSection, 0);
    var finalSection1 := QuestionsAt(sections, choice);
    var finalSection2 := QuestionsAt(sections, fill);
    if |finalSection1| == 0 && |finalSection2| == 0 {
      var allQuestions := CollectAllQuestions(sections);
      legacy := CategorizeQuestions(allQuestions, SharedArray(sections, choice, fill));
    } else {
      legacy := Legacy(finalSection1, finalSection2);
    }
  }

  method CollectAllQuestions(sections: seq<AiSection>) returns (allQuestions: seq<AiQuestion>)
    ensures allQuestions == AllQuestions(sections)
  {
    allQuestions := [];
    var i := 0;
    while i < |sections|
      invariant i <= |sections|
      invariant allQuestions == AllQuestions(sections[..i])
    {
      assert sections[..i + 1][..i] == sections[..i];
      allQuestions := allQuestions + sections[i].questions;
      i := i + 1;
    }
    assert sections[..i] == sections;
  }

  /**
   * The categorising loop. With `shared`, the two lists are one array, so
   * a push to either lands in the same list, which both names then show.
   */
  method CategorizeQuestions(allQuestions: seq<AiQuestion>, shared: bool) returns (legacy: Legacy)
    ensures shared ==> legacy == Legacy(allQuestions, allQuestions)
    ensures !shared ==> legacy == Categorize(allQuestions)
  {
    var finalSection1: seq<AiQuestion> := [];
    var finalSection2: seq<AiQuestion> := [];
    var i := 0;
    while i < |allQuestions|
      invariant i <= |allQuestions|
      invariant shared ==> finalSection1 == allQuestions[..i]
      invariant !shared ==> Legacy(finalSection1, finalSection2) == Categorize(allQuestions[..i])
    {
      var q := allQuestions[i];
      assert allQuestions[..i + 1][..i] == allQuestions[..i];
      if shared || GoesToSection1(q) {
        finalSection1 := finalSection1 + [q];
      } else {
        finalSection2 := finalSection2 + [q];
      }
      i := i + 1;
    }
    assert allQuestions[..i] == allQuestions;
    legacy := Legacy(finalSection1, if shared then finalSection1 else finalSection2);
  }
}
