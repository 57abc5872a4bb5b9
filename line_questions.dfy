/**
 * The line-level patterns shared by the stand-alone extraction scripts
 * (final_test.js, simple_extraction.js, test_parser.js and
 * debug_extraction.js): the question line `/^(\d+)\.\s*(.+)/`, the
 * `.split('\n').map(trim).filter(...)` preparation of the text, and
 * `parseOptionsLine`, which final_test.js and simple_extraction.js define
 * with the same body.
 */
module LineQuestions {
  import opened Wrappers
  import opened JsText

  /** A saved multiple-choice record: `{ text, points, options }`, options keyed by letter. */
  datatype Choice = Choice(text: String, points: nat, options: map<String, String>)

  /** The option letters the scripts accept. */
  const Letters: set<String> := {"A", "B", "C", "D", "E"}

  lemma LettersCount()
    ensures |Letters| == 5
  {
    assert "A" != "B" && "A" != "C" && "A" != "D" && "A" != "E";
    assert "B" != "C" && "B" != "D" && "B" != "E";
    assert "C" != "D" && "C" != "E" && "D" != "E";
  }

  lemma {:induction false} SubsetCard<T>(a: set<T>, b: set<T>)
    requires a <= b
    ensures |a| <= |b|
    decreases |a|
  {
    if a != {} {
      var x :| x in a;
      SubsetCard(a - {x}, b - {x});
    }
  }

  /** A subset of the letters with five members is all of them. */
  lemma FiveLetters(keys: set<String>)
    requires keys <= Letters && |keys| == 5
    ensures keys == Letters
  {
    LettersCount();
    if keys != Letters {
      var x :| x in Letters && x !in keys;
      SubsetCard(keys, Letters - {x});
    }
  }

  // ---------------------------------------------------------------------
  // Lines

  /** `content.split('\n').map(line => line.trim()).filter(line => line)`. */
  function TrimmedLines(content: String): (r: seq<String>)
    ensures forall i :: 0 <= i < |r| ==> r[i] != [] && NoOuterSpace(r[i])
  {
    var trimmed := TrimAll(Split(content, '\n'));
    var r := NonEmpty(trimmed);
    assert forall w :: w in trimmed ==> NoOuterSpace(w);
    r
  }

  /** `parseInt` of a question key; a key of digits reads as its value. */
  function ParseInt(key: String): nat {
    if AllDigits(key) then DigitsValue(key) else 0
  }

  // ---------------------------------------------------------------------
  // `/^(\d+)\.\s*(.+)/`

  /** The match of the question pattern: the digits (kept as the key) and where the text starts. */
  datatype Opener = Opener(key: String, at: nat, text: String)

  /**
   * `line.match(/^(\d+)\.\s*(.+)/)`: the digits at the very start, a period,
   * then the rest of the line from its first character that `.` accepts
   * (the engine gives back trailing spaces of `\s*` when the line ends in
   * them). The text is a verbatim slice of the line.
   */
  function QuestionLine(line: String): (r: Option<Opener>)
    ensures r.Some? ==> 0 < |r.value.key| < r.value.at && r.value.at + |r.value.text| <= |line|
    ensures r.Some? ==> AllDigits(r.value.key) && r.value.key == line[..|r.value.key|]
    ensures r.Some? ==> line[|r.value.key|] == '.' && |r.value.text| > 0
    ensures r.Some? ==> r.value.text == line[r.value.at..r.value.at + |r.value.text|]
    ensures |line| == 0 || !IsDigit(line[0]) ==> r.None?
  {
    var d := SkipDigits(line, 0);
    if d == 0 || d == |line| || line[d] != '.' then None
    else
      var w := SkipSpaces(line, d + 1);
      match DotPlusStart(line, d + 1, w)
      case None => None
      case Some(c) => Some(Opener(line[..d], c, line[c..LineEnd(line, c)]))
  }

  // ---------------------------------------------------------------------
  // `line.split(/([ABCDE]\.)/)`

  /** `[ABCDE]\.` matches at `q`. */
  predicate MarkerAt(s: String, q: nat) {
    q + 1 < |s| && 'A' <= s[q] <= 'E' && s[q + 1] == '.'
  }

  predicate IsMarker(w: String) {
    |w| == 2 && 'A' <= w[0] <= 'E' && w[1] == '.'
  }

  /**
   * `split` with a capturing separator: the text before each match, then the
   * captured marker, and finally the text after the last match. `p` is where
   * the current piece began and `q` where the search stands.
   */
  function SplitFrom(s: String, p: nat, q: nat): (r: seq<String>)
    requires p <= q <= |s|
    ensures |r| % 2 == 1
    decreases |s| - q
  {
    if q == |s| then [s[p..]]
    else if MarkerAt(s, q) then [s[p..q], s[q..q + 2]] + SplitFrom(s, q + 2, q + 2)
    else SplitFrom(s, p, q + 1)
  }

  function Concat(ws: seq<String>): String {
    if ws == [] then [] else ws[0] + Concat(ws[1..])
  }

  lemma ConcatPrepend(a: String, b: String, ws: seq<String>)
    ensures Concat([a, b] + ws) == a + b + Concat(ws)
  {
    assert ([a, b] + ws)[1..] == [b] + ws;
    assert ([b] + ws)[1..] == ws;
  }

  /** Gluing the pieces back together gives the text the split started from. */
  lemma {:induction false} SplitFromConcat(s: String, p: nat, q: nat)
    requires p <= q <= |s|
    ensures Concat(SplitFrom(s, p, q)) == s[p..]
    decreases |s| - q
  {
    if q == |s| {
      assert Concat([s[p..]]) == s[p..] + Concat([]);
    } else if MarkerAt(s, q) {
      SplitFromConcat(s, q + 2, q + 2);
      ConcatPrepend(s[p..q], s[q..q + 2], SplitFrom(s, q + 2, q + 2));
      assert s[p..] == s[p..q] + s[q..q + 2] + s[q + 2..];
    } else {
      SplitFromConcat(s, p, q + 1);
    }
  }

  /** Every odd-numbered piece is a captured marker. */
  predicate MarkersOdd(r: seq<String>) {
    forall i :: 0 <= i < |r| && i % 2 == 1 ==> IsMarker(r[i])
  }

  lemma {:induction false} SplitFromMarkers(s: String, p: nat, q: nat)
    requires p <= q <= |s|
    ensures MarkersOdd(SplitFrom(s, p, q))
    decreases |s| - q
  {
    if q < |s| {
      if MarkerAt(s, q) {
        SplitFromMarkers(s, q + 2, q + 2);
        var rest := SplitFrom(s, q + 2, q + 2);
        var r := [s[p..q], s[q..q + 2]] + rest;
        assert SplitFrom(s, p, q) == r;
        assert IsMarker(s[q..q + 2]);
        assert MarkersOdd(rest);
        forall i | 0 <= i < |r| && i % 2 == 1
          ensures IsMarker(r[i])
        {
          if i == 1 {
            assert r[1] == s[q..q + 2];
          } else {
            assert (i - 2) % 2 == 1 && r[i] == rest[i - 2];
          }
        }
      } else {
        SplitFromMarkers(s, p, q + 1);
        assert SplitFrom(s, p, q) == SplitFrom(s, p, q + 1);
      }
    }
  }

  /** `.filter(part => part.trim())`: the pieces that are not blank. */
  function NotBlank(parts: seq<String>): (r: seq<String>)
    ensures forall i :: 0 <= i < |r| ==> Trim(r[i]) != []
    ensures |r| <= |parts|
  {
    if parts == [] then []
    else (if Trim(parts[0]) != [] then [parts[0]] else []) + NotBlank(parts[1..])
  }

  /** The pieces `parseOptionsLine` pairs up. */
  function OptionParts(line: String): seq<String> {
    NotBlank(SplitFrom(line, 0, 0))
  }

  // ---------------------------------------------------------------------
  // `parseOptionsLine`

  /** `w.replace('.', '')`: the first period removed. */
  function DropFirstPeriod(w: String): (r: String)
    ensures |r| == |w| || |r| == |w| - 1
  {
    if w == [] then [] else if w[0] == '.' then w[1..] else [w[0]] + DropFirstPeriod(w[1..])
  }

  /** One turn of the pairing loop: a known letter with non-empty trimmed text is stored, overwriting. */
  function AddPair(options: map<String, String>, marker: String, after: String): map<String, String> {
    var letter := DropFirstPeriod(marker);
    var text := Trim(after);
    if letter != [] && text != [] && letter in Letters then options[letter := text] else options
  }

  /** The pairing loop `for (i = from; i < parts.length - 1; i += 2)`. */
  function Fill(parts: seq<String>, i: nat, options: map<String, String>): map<String, String>
    decreases |parts| - i
  {
    if i + 1 >= |parts| then options else Fill(parts, i + 2, AddPair(options, parts[i], parts[i + 1]))
  }

  /** What `parseOptionsLine(line)` returns. */
  function ParseOptions(line: String): map<String, String> {
    Fill(OptionParts(line), 0, map[])
  }

  /** An options dictionary as `parseOptionsLine` builds it: known letters, non-empty trimmed texts. */
  predicate WellFormedOptions(options: map<String, String>) {
    options.Keys <= Letters && forall l :: l in options ==> options[l] != [] && NoOuterSpace(options[l])
  }

  lemma {:induction false} FillWellFormed(parts: seq<String>, i: nat, options: map<String, String>)
    requires WellFormedOptions(options)
    ensures WellFormedOptions(Fill(parts, i, options))
    decreases |parts| - i
  {
    if i + 1 < |parts| {
      FillWellFormed(parts, i + 2, AddPair(options, parts[i], parts[i + 1]));
    }
  }

  /** `parseOptionsLine` keeps only the letters A–E, each with non-empty trimmed text, so at most five keys. */
  lemma ParseOptionsWellFormed(line: String)
    ensures WellFormedOptions(ParseOptions(line))
    ensures |ParseOptions(line)| <= 5
  {
    FillWellFormed(OptionParts(line), 0, map[]);
    LettersCount();
    SubsetCard(ParseOptions(line).Keys, Letters);
  }

  /** Five keys from `parseOptionsLine` are exactly A–E. */
  lemma ParseOptionsFive(line: String)
    requires |ParseOptions(line)| == 5
    ensures ParseOptions(line).Keys == Letters
  {
    ParseOptionsWellFormed(line);
    assert |ParseOptions(line).Keys| == |ParseOptions(line)|;
    FiveLetters(ParseOptions(line).Keys);
  }

  /** The pieces of a well-formed line `A. a B. b C. c D. d E. e` fill all five letters. */
  lemma FiveMarkedParts(t: seq<String>)
    requires |t| == 5 && forall i :: 0 <= i < 5 ==> Trim(t[i]) != []
    ensures Fill(["A.", t[0], "B.", t[1], "C.", t[2], "D.", t[3], "E.", t[4]], 0, map[]).Keys == Letters
  {
    var parts := ["A.", t[0], "B.", t[1], "C.", t[2], "D.", t[3], "E.", t[4]];
    assert DropFirstPeriod("A.") == "A" && DropFirstPeriod("B.") == "B" && DropFirstPeriod("C.") == "C";
    assert DropFirstPeriod("D.") == "D" && DropFirstPeriod("E.") == "E";
    var m1 := AddPair(map[], parts[0], parts[1]);
    var m2 := AddPair(m1, parts[2], parts[3]);
    var m3 := AddPair(m2, parts[4], parts[5]);
    var m4 := AddPair(m3, parts[6], parts[7]);
    var m5 := AddPair(m4, parts[8], parts[9]);
    assert m5.Keys == {"A", "B", "C", "D", "E"};
    assert Fill(parts, 10, m5) == m5;
    assert Fill(parts, 8, m4) == m5;
    assert Fill(parts, 6, m3) == m5;
    assert Fill(parts, 4, m2) == m5;
    assert Fill(parts, 2, m1) == m5;
  }

  /** `parseOptionsLine`, with its pairing loop. */
  method ParseOptionsLine(line: String) returns (options: map<String, String>)
    ensures options == ParseOptions(line)
    ensures WellFormedOptions(options)
  {
    var parts := OptionParts(line);
    options := map[];
    var i := 0;
    while i + 1 < |parts|
      invariant Fill(parts, i, options) == ParseOptions(line)
      decreases |parts| - i
    {
      var letter := DropFirstPeriod(parts[i]);
      var text := Trim(parts[i + 1]);
      if letter != [] && text != [] && letter in Letters {
        options := options[letter := text];
      }
      i := i + 2;
    }
    ParseOptionsWellFormed(line);
  }
}
