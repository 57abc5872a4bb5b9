/**
 * The browser-side `DocumentToMarkdown` converter: each plain-text line is
 * turned into a Markdown line (question heading, option item, section or
 * exam title, formula or plain text), and the whole text is cleaned up by a
 * fixed sequence of regular-expression replacements. The choice of reader
 * depends on the text after the last dot of the file name.
 */
module DocumentToMarkdown {
  import opened Wrappers
  import opened JsText

  // ---------------------------------------------------------------------
  // One line

  /** `/^\d+[\.\)]/`: a question number. */
  predicate NumberedLine(t: String) {
    var p := SkipDigits(t, 0);
    0 < p < |t| && (t[p] == '.' || t[p] == ')')
  }

  /** `[A-EА-Д]`: a Latin or Cyrillic option letter. */
  predicate IsOptionLetter(c: char) { 'A' <= c <= 'E' || 'А' <= c <= 'Д' }

  /** `/^[A-EА-Д][\.\)]/`: an option line. */
  predicate OptionLine(t: String) {
    |t| >= 2 && IsOptionLetter(t[0]) && (t[1] == '.' || t[1] == ')')
  }

  predicate SectionLine(t: String) {
    Contains(t, "ДААЛГАВАР") || Contains(t, "хэсэг") || Contains(t, "ХЭСЭГ")
  }

  predicate ExamLine(t: String) {
    Contains(t, "шалгалт") || Contains(t, "ШАЛГАЛТ") || Contains(t, "Элсэлт")
  }

  predicate FormulaLine(t: String) {
    Contains(t, "∫") || Contains(t, "√") || Contains(t, "Σ") || Contains(t, "π")
  }

  /** The characters `processLine` adds around a line's own text. */
  const Markup: String := "#-*: $"

  /** What `processLine` takes a trimmed line for, in the order it tests. */
  datatype LineKind = Blank | Question | Item | Title | Formula | Plain

  function KindOf(t: String): (k: LineKind)
    ensures k == Item ==> |t| >= 2
  {
    if t == [] then Blank
    else if NumberedLine(t) then Question
    else if OptionLine(t) then Item
    else if SectionLine(t) || ExamLine(t) then Title
    else if FormulaLine(t) then Formula
    else Plain
  }

  /** The Markdown for a trimmed line of the given kind. */
  function Render(kind: LineKind, t: String): (r: String)
    requires kind == Item ==> |t| >= 2
    ensures forall c :: c in r ==> c in t || c in Markup
  {
    match kind
    case Blank => []
    case Question => "### " + t
    case Item =>
      TrimChars(t[2..]);
      "- **" + [t[0]] + ":** " + Trim(t[2..])
    case Title => "# " + t
    case Formula => "$" + t + "$"
    case Plain => t
  }

  /** `processLine`: the Markdown form of one line of text. */
  function ProcessLine(text: String): (r: String)
    ensures r == [] <==> Trim(text) == []
    ensures forall c :: c in r ==> c in text || c in Markup
  {
    var t := Trim(text);
    TrimChars(text);
    Render(KindOf(t), t)
  }

  lemma TrimChars(s: String)
    ensures forall c :: c in Trim(s) ==> c in s
  {
    var a := SkipSpaces(s, 0);
    var b := TrimEndFrom(s, a, |s|);
    forall c | c in Trim(s) ensures c in s {
      var i :| 0 <= i < |Trim(s)| && Trim(s)[i] == c;
      assert s[a + i] == c;
    }
  }

  /**
   * The Markdown marker shows which test the line passed first: a line that
   * does not itself start with a marker character becomes a `### ` heading
   * exactly when it is numbered, an option item exactly when it is a
   * lettered option that is not numbered, a `# ` title exactly when it
   * names a section or an exam and is neither, and a `$` formula exactly
   * when it holds a math symbol and is none of these.
   */
  lemma MarkerShowsKind(text: String)
    requires Trim(text) == [] || Trim(text)[0] !in "#-$"
    ensures var t, r := Trim(text), ProcessLine(text);
      && (StartsWith(r, "### ") <==> NumberedLine(t))
      && (StartsWith(r, "- **") <==> !NumberedLine(t) && OptionLine(t))
      && (StartsWith(r, "# ") <==> !NumberedLine(t) && !OptionLine(t) && (SectionLine(t) || ExamLine(t)))
      && ((r != [] && r[0] == '$') <==>
            !NumberedLine(t) && !OptionLine(t) && !SectionLine(t) && !ExamLine(t) && FormulaLine(t))
  {
    var t := Trim(text);
    MarkerOf(KindOf(t), t);
    KindOrder(t);
  }

  /** The tests in the order `processLine` makes them. */
  lemma KindOrder(t: String)
    ensures KindOf(t) == Question <==> NumberedLine(t)
    ensures KindOf(t) == Item <==> !NumberedLine(t) && OptionLine(t)
    ensures KindOf(t) == Title <==> !NumberedLine(t) && !OptionLine(t) && (SectionLine(t) || ExamLine(t))
    ensures KindOf(t) == Formula <==>
      !NumberedLine(t) && !OptionLine(t) && !SectionLine(t) && !ExamLine(t) && FormulaLine(t)
  {
  }

  /** Each kind's marker, for a text that does not start with one. */
  lemma MarkerOf(kind: LineKind, t: String)
    requires kind == Item ==> |t| >= 2
    requires kind != Blank ==> t != [] && t[0] !in "#-$"
    ensures var r := Render(kind, t);
      && (StartsWith(r, "### ") <==> kind == Question)
      && (StartsWith(r, "- **") <==> kind == Item)
      && (StartsWith(r, "# ") <==> kind == Title)
      && ((r != [] && r[0] == '$') <==> kind == Formula)
  {
    var r := Render(kind, t);
    match kind
    case Blank =>
    case Question =>
      assert r[..4] == "### " && r[1] != ' ' && r[0] != '-' && r[0] != '$';
    case Item =>
      assert r[..4] == "- **" && r[0] != '#' && r[0] != '$';
    case Title =>
      assert r[..2] == "# " && r[2] == t[0] && r[0] != '-' && r[0] != '$';
    case Formula =>
      assert r[0] == '$';
    case Plain =>
      assert r[0] == t[0];
  }

  /**
   * An option line's item: the letter, then the text after the letter and
   * its punctuation, trimmed.
   */
  lemma OptionItem(letter: char, punct: char, body: String)
    requires IsOptionLetter(letter) && (punct == '.' || punct == ')')
    ensures ProcessLine([letter, punct] + body) == "- **" + [letter] + ":** " + Trim(body)
  {
    var t := Trim([letter, punct] + body);
    TrimOptionLine(letter, punct, body);
    assert KindOf(t) == Item by {
      assert SkipDigits(t, 0) == 0;
    }
  }

  /** Trimming an option line keeps its letter and punctuation in front. */
  lemma TrimOptionLine(letter: char, punct: char, body: String)
    requires IsOptionLetter(letter) && (punct == '.' || punct == ')')
    ensures var t := Trim([letter, punct] + body);
      |t| >= 2 && t[0] == letter && t[1] == punct && Trim(t[2..]) == Trim(body)
  {
    var s := [letter, punct] + body;
    var b := TrimEndFrom(s, 0, |s|);
    TrimFromFirst(s);
    BodyAfterMarker(s, body, b);
  }

  /** A text that starts with two non-spaces keeps them under `trim`. */
  lemma TrimFromFirst(s: String)
    requires |s| >= 2 && !IsSpace(s[0]) && !IsSpace(s[1])
    ensures Trim(s) == s[..TrimEndFrom(s, 0, |s|)] && TrimEndFrom(s, 0, |s|) >= 2
  {
    assert SkipSpaces(s, 0) == 0;
  }

  /** What follows the two marker characters, cut where `trim` cuts, trims like the whole body. */
  lemma BodyAfterMarker(s: String, body: String, b: nat)
    requires |s| == |body| + 2 && s[2..] == body && 2 <= b <= |s|
    requires forall k :: b <= k < |s| ==> IsSpace(s[k])
    ensures s[..b][2..] == body[..b - 2] && Trim(body[..b - 2]) == Trim(body)
  {
    forall k | b - 2 <= k < |body| ensures IsSpace(body[k]) { assert body[k] == s[k + 2]; }
    TrimIgnoresTrailingSpaces(body, b - 2);
  }

  /** Cutting whitespace off the end before trimming changes nothing. */
  lemma TrimIgnoresTrailingSpaces(s: String, n: nat)
    requires n <= |s| && forall k :: n <= k < |s| ==> IsSpace(s[k])
    ensures Trim(s[..n]) == Trim(s)
  {
    var x := s[..n];
    var a := SkipSpaces(s, 0);
    assert forall k :: 0 <= k < n ==> x[k] == s[k];
    if a < n {
      SkipSpacesExact(x, 0, a);
      var b := TrimEndFrom(s, a, |s|);
      assert a < b <= n by {
        assert !IsSpace(s[a]);
      }
      TrimEndFromExact(x, a, n, b);
      assert x[a..b] == s[a..b];
    } else {
      SkipSpacesExact(x, 0, n);
      assert TrimEndFrom(x, n, n) == n;
      SkipSpacesExact(s, 0, |s|);
    }
  }

  lemma TrimEndFromExact(s: String, lo: nat, hi: nat, b: nat)
    requires lo <= b <= hi <= |s| && (forall k :: b <= k < hi ==> IsSpace(s[k]))
    requires b == lo || !IsSpace(s[b - 1])
    ensures TrimEndFrom(s, lo, hi) == b
    decreases hi
  {
    if b < hi { TrimEndFromExact(s, lo, hi - 1, b); }
  }

  // ---------------------------------------------------------------------
  // The clean-up replacements

  /** End of the run of line feeds that starts at `i`. */
  function LineFeedsEnd(s: String, i: nat): (j: nat)
    requires i <= |s|
    ensures i <= j <= |s| && forall k :: i <= k < j ==> s[k] == '\n'
    ensures j == |s| || s[j] != '\n'
    decreases |s| - i
  {
    if i < |s| && s[i] == '\n' then LineFeedsEnd(s, i + 1) else i
  }

  /** Three line feeds in a row. */
  predicate HasBlankRun(s: String) {
    exists i :: 0 <= i && i + 2 < |s| && s[i] == '\n' && s[i + 1] == '\n' && s[i + 2] == '\n'
  }

  /** `replace(/\n{3,}/g, '\n\n')`: every run of three or more line feeds becomes two. */
  function SqueezeBlankLines(s: String): (r: String)
    ensures s != [] ==> r != [] && r[0] == s[0]
    ensures s != [] && s[0] == '\n' ==> LineFeedsEnd(r, 0) == (if LineFeedsEnd(s, 0) >= 3 then 2 else LineFeedsEnd(s, 0))
    decreases |s|
  {
    if s == [] then []
    else if s[0] == '\n' && LineFeedsEnd(s, 0) >= 3 then
      var e := LineFeedsEnd(s, 0);
      assert e == |s| || s[e..][0] != '\n';
      var r := "\n\n" + SqueezeBlankLines(s[e..]);
      assert LineFeedsEnd(r, 2) == 2;
      assert LineFeedsEnd(r, 0) == 2;
      r
    else
      var rest := SqueezeBlankLines(s[1..]);
      assert s[0] == '\n' ==> LineFeedsEnd(s, 1) == LineFeedsEnd(s, 0);
      assert s[0] == '\n' && s[1..] != [] && s[1..][0] == '\n' ==> LineFeedsEnd(s[1..], 0) == LineFeedsEnd(s, 0) - 1
        by { if s[0] == '\n' && s[1..] != [] && s[1..][0] == '\n' { LineFeedsShift(s); } }
      LineFeedsPrepend(s[0], rest);
      [s[0]] + rest
  }

  lemma LineFeedsShift(s: String)
    requires s != []
    ensures LineFeedsEnd(s[1..], 0) == LineFeedsEnd(s, 1) - 1
  {
    var e := LineFeedsEnd(s, 1);
    var e' := LineFeedsEnd(s[1..], 0);
    assert forall k :: 0 <= k < |s| - 1 ==> s[1..][k] == s[k + 1];
    assert e' == e - 1;
  }

  lemma LineFeedsPrepend(c: char, r: String)
    ensures c == '\n' ==> LineFeedsEnd([c] + r, 0) == LineFeedsEnd(r, 0) + 1
    ensures c != '\n' ==> LineFeedsEnd([c] + r, 0) == 0
  {
    if c == '\n' {
      LineFeedsShift([c] + r);
      assert ([c] + r)[1..] == r;
    }
  }

  /** After squeezing, no three line feeds follow each other. */
  lemma {:induction false} SqueezedHasNoBlankRun(s: String)
    ensures !HasBlankRun(SqueezeBlankLines(s))
    decreases |s|
  {
    var r := SqueezeBlankLines(s);
    if s != [] {
      if s[0] == '\n' && LineFeedsEnd(s, 0) >= 3 {
        var e := LineFeedsEnd(s, 0);
        var rest := SqueezeBlankLines(s[e..]);
        SqueezedHasNoBlankRun(s[e..]);
        assert r == "\n\n" + rest;
        assert rest == [] || rest[0] != '\n' by {
          if rest != [] { assert rest[0] == s[e..][0] == s[e]; }
        }
        forall i | 0 <= i && i + 2 < |r| ensures !(r[i] == '\n' && r[i + 1] == '\n' && r[i + 2] == '\n') {
          if i >= 2 {
            assert r[i] == rest[i - 2] && r[i + 1] == rest[i - 1] && r[i + 2] == rest[i];
          } else {
            assert r[2] == rest[0];
          }
        }
      } else {
        var rest := SqueezeBlankLines(s[1..]);
        SqueezedHasNoBlankRun(s[1..]);
        assert r == [s[0]] + rest;
        forall i | 0 <= i && i + 2 < |r| ensures !(r[i] == '\n' && r[i + 1] == '\n' && r[i + 2] == '\n') {
          if i >= 1 {
            assert r[i] == rest[i - 1] && r[i + 1] == rest[i] && r[i + 2] == rest[i + 1];
          } else if s[0] == '\n' {
            var e := LineFeedsEnd(r, 0);
            assert e < 3 && r[e] != '\n';
          }
        }
      }
    }
  }

  /** A text without three line feeds in a row is left as it is. */
  lemma {:induction false} SqueezeKeeps(s: String)
    requires !HasBlankRun(s)
    ensures SqueezeBlankLines(s) == s
    decreases |s|
  {
    if s != [] {
      assert s[0] != '\n' || LineFeedsEnd(s, 0) < 3 by {
        if |s| >= 3 { assert !(s[0] == '\n' && s[1] == '\n' && s[2] == '\n'); }
      }
      forall i | 0 <= i && i + 2 < |s| - 1
        ensures !(s[1..][i] == '\n' && s[1..][i + 1] == '\n' && s[1..][i + 2] == '\n')
      {
        assert s[1..][i] == s[i + 1] && s[1..][i + 1] == s[i + 2] && s[1..][i + 2] == s[i + 3];
        assert !(s[i + 1] == '\n' && s[i + 2] == '\n' && s[i + 3] == '\n');
      }
      SqueezeKeeps(s[1..]);
      assert s == [s[0]] + s[1..];
    }
  }

  /** The match of `(\d+)\s*\^\s*(\d+)` at the start of `s`: base end, exponent start, exponent end. */
  function PowerAt(s: String): (r: Option<(nat, nat, nat)>)
    ensures r.Some? ==> 0 < r.value.0 < r.value.1 < r.value.2 <= |s|
  {
    var d1 := SkipDigits(s, 0);
    var j := SkipSpaces(s, d1);
    if d1 > 0 && j < |s| && s[j] == '^' then
      var k := SkipSpaces(s, j + 1);
      var d2 := SkipDigits(s, k);
      if d2 > k then Some((d1, k, d2)) else None
    else None
  }

  /** `replace(/(\d+)\s*\^\s*(\d+)/g, '$1^$2')`: the spaces around a power's caret are dropped. */
  function Powers(s: String): String
    decreases |s|
  {
    if s == [] then [] else var step := PowerStep(s); step.0 + Powers(s[step.1..])
  }

  /** One turn of the power replacement: what it writes and how far it moves. */
  function PowerStep(s: String): (step: (String, nat))
    requires s != []
    ensures 0 < step.1 <= |s|
  {
    match PowerAt(s)
    case Some((d1, k, d2)) => (s[..d1] + "^" + s[k..d2], d2)
    case None => ([s[0]], 1)
  }

  /** A text without a caret is left as it is. */
  lemma {:induction false} PowersWithoutCaret(s: String)
    requires '^' !in s
    ensures Powers(s) == s
    decreases |s|
  {
    if s != [] {
      assert PowerAt(s).None? by {
        var d1 := SkipDigits(s, 0);
        var j := SkipSpaces(s, d1);
        if j < |s| { assert s[j] in s; }
      }
      assert PowerStep(s) == ([s[0]], 1);
      assert '^' !in s[1..] by { assert forall c :: c in s[1..] ==> c in s; }
      PowersWithoutCaret(s[1..]);
      assert s == [s[0]] + s[1..];
    }
  }

  /** A power written with spaces, `a ^ b`, comes out as `a^b`. */
  lemma PowerJoined(a: String, gap1: String, gap2: String, b: String)
    requires a != [] && AllDigits(a) && b != [] && AllDigits(b)
    requires forall k :: 0 <= k < |gap1| ==> IsSpace(gap1[k])
    requires forall k :: 0 <= k < |gap2| ==> IsSpace(gap2[k])
    ensures Powers(a + gap1 + "^" + gap2 + b) == a + "^" + b
  {
    PowerStepJoined(a, gap1, gap2, b);
    PowersWhole(a + gap1 + "^" + gap2 + b);
  }

  /** A replacement whose first turn consumes the whole text writes only that turn's output. */
  lemma PowersWhole(s: String)
    requires s != [] && PowerStep(s).1 == |s|
    ensures Powers(s) == PowerStep(s).0
  {
    assert s[|s|..] == [];
  }

  lemma PowerStepJoined(a: String, gap1: String, gap2: String, b: String)
    requires a != [] && AllDigits(a) && b != [] && AllDigits(b)
    requires forall k :: 0 <= k < |gap1| ==> IsSpace(gap1[k])
    requires forall k :: 0 <= k < |gap2| ==> IsSpace(gap2[k])
    ensures PowerStep(a + gap1 + "^" + gap2 + b) == (a + "^" + b, |a + gap1 + "^" + gap2 + b|)
  {
    var front := a + gap1 + "^" + gap2;
    var s := front + b;
    var j := |a| + |gap1|;
    var k := |front|;
    assert s[k..|s|] == s[k..] == b;
    assert s[..|a|] == a by {
      assert s[..|a|] == front[..|a|];
      assert front[..|a|] == (a + gap1)[..|a|];
    }
    assert PowerStep(s) == (a + "^" + b, |s|) by {
      PowerLayout(a, gap1, gap2, b);
      PowerAtExact(s, |a|, j, k);
    }
  }

  lemma PowerLayout(a: String, gap1: String, gap2: String, b: String)
    ensures var s, j := a + gap1 + "^" + gap2 + b, |a| + |gap1|;
      && |s| == j + 1 + |gap2| + |b|
      && (forall i :: 0 <= i < |a| ==> s[i] == a[i])
      && (forall i :: |a| <= i < j ==> s[i] == gap1[i - |a|])
      && s[j] == '^'
      && (forall i :: j + 1 <= i < j + 1 + |gap2| ==> s[i] == gap2[i - j - 1])
      && (forall i :: j + 1 + |gap2| <= i < |s| ==> s[i] == b[i - j - 1 - |gap2|])
  {
  }

  /** Where `(\d+)\s*\^\s*(\d+)` matches a whole text. */
  lemma PowerAtExact(s: String, d1: nat, j: nat, k: nat)
    requires 0 < d1 <= j < k < |s| && s[j] == '^'
    requires forall i :: 0 <= i < d1 ==> IsDigit(s[i])
    requires forall i :: d1 <= i < j ==> IsSpace(s[i])
    requires forall i :: j + 1 <= i < k ==> IsSpace(s[i])
    requires forall i :: k <= i < |s| ==> IsDigit(s[i])
    ensures PowerAt(s) == Some((d1, k, |s|))
  {
    assert !IsDigit(s[d1]);
    SkipDigitsExact(s, 0, d1);
    assert !IsSpace(s[j]);
    SkipSpacesExact(s, d1, j);
    assert !IsSpace(s[k]);
    SkipSpacesExact(s, j + 1, k);
    SkipDigitsExact(s, k, |s|);
  }

  lemma SkipDigitsExact(s: String, i: nat, j: nat)
    requires i <= j <= |s| && (forall k :: i <= k < j ==> IsDigit(s[k])) && (j == |s| || !IsDigit(s[j]))
    ensures SkipDigits(s, i) == j
    decreases j - i
  {
    if i < j { SkipDigitsExact(s, i + 1, j); }
  }

  lemma SkipSpacesExact(s: String, i: nat, j: nat)
    requires i <= j <= |s| && (forall k :: i <= k < j ==> IsSpace(s[k])) && (j == |s| || !IsSpace(s[j]))
    ensures SkipSpaces(s, i) == j
    decreases j - i
  {
    if i < j { SkipSpacesExact(s, i + 1, j); }
  }

  /** The match of `√(\d+)` at the start of `s`: the end of the digits. */
  function RootAt(s: String): (r: Option<nat>)
    ensures r.Some? ==> 1 < r.value <= |s|
  {
    if s != [] && s[0] == '√' && SkipDigits(s, 1) > 1 then Some(SkipDigits(s, 1)) else None
  }

  /** `replace(/√(\d+)/g, '√$1')`. */
  function Roots(s: String): String
    decreases |s|
  {
    if s == [] then [] else var step := RootStep(s); step.0 + Roots(s[step.1..])
  }

  /** One turn of the root replacement. */
  function RootStep(s: String): (step: (String, nat))
    requires s != []
    ensures 0 < step.1 <= |s| && step.0 == s[..step.1]
  {
    match RootAt(s)
    case Some(d) => assert "√" + s[1..d] == s[..d]; ("√" + s[1..d], d)
    case None => ([s[0]], 1)
  }

  /** The root replacement writes back exactly what it matched: it changes nothing. */
  lemma {:induction false} RootsChangeNothing(s: String)
    ensures Roots(s) == s
    decreases |s|
  {
    if s != [] {
      var k := RootStep(s).1;
      RootsChangeNothing(s[k..]);
      RootsRejoin(s, k);
    }
  }

  /** One replacement step, then the rest unchanged, gives back the text. */
  lemma RootsRejoin(s: String, k: nat)
    requires s != [] && k == RootStep(s).1 && Roots(s[k..]) == s[k..]
    ensures Roots(s) == s
  {
    RootsUnfold(s);
    assert s[..k] + s[k..] == s;
  }

  lemma RootsUnfold(s: String)
    requires s != []
    ensures Roots(s) == RootStep(s).0 + Roots(s[RootStep(s).1..])
  {
  }

  /** The match of `(\d+)\/(\d+)` at the start of `s`: numerator end, denominator end. */
  function FractionAt(s: String): (r: Option<(nat, nat)>)
    ensures r.Some? ==> 0 < r.value.0 && r.value.0 + 1 < r.value.1 <= |s| && s[r.value.0] == '/'
    ensures r.Some? ==> forall k :: r.value.0 < k < r.value.1 ==> IsDigit(s[k])
  {
    var d1 := SkipDigits(s, 0);
    if 0 < d1 < |s| && s[d1] == '/' then
      var d2 := SkipDigits(s, d1 + 1);
      if d2 > d1 + 1 then Some((d1, d2)) else None
    else None
  }

  /** `$\frac{a}{b}$` */
  function Fraction(a: String, b: String): String {
    "$\\frac{" + a + "}{" + b + "}$"
  }

  /** `replace(/(\d+)\/(\d+)/g, '$\frac{$1}{$2}$')`. */
  function Fractions(s: String): String
    decreases |s|
  {
    if s == [] then [] else var step := FractionStep(s); step.0 + Fractions(s[step.1..])
  }

  /** One turn of the fraction replacement. */
  function FractionStep(s: String): (step: (String, nat))
    requires s != []
    ensures 0 < step.1 <= |s|
  {
    match FractionAt(s)
    case Some((d1, d2)) => (Fraction(s[..d1], s[d1 + 1..d2]), d2)
    case None => ([s[0]], 1)
  }

  /** A fraction of two numbers becomes a LaTeX `\frac`. */
  lemma FractionRewritten(a: String, b: String)
    requires a != [] && AllDigits(a) && b != [] && AllDigits(b)
    ensures Fractions(a + "/" + b) == Fraction(a, b)
  {
    var s := a + "/" + b;
    assert SkipDigits(s, 0) == |a| by {
      assert forall i :: 0 <= i < |a| ==> s[i] == a[i];
      SkipDigitsExact(s, 0, |a|);
    }
    assert SkipDigits(s, |a| + 1) == |s| by {
      assert forall i :: |a| + 1 <= i < |s| ==> s[i] == b[i - |a| - 1];
      SkipDigitsExact(s, |a| + 1, |s|);
    }
    assert FractionAt(s) == Some((|a|, |s|));
    assert s[..|a|] == a && s[|a| + 1..|s|] == b;
    FractionsWhole(s);
  }

  /** A replacement step that consumes the whole text is the whole result. */
  lemma FractionsWhole(s: String)
    requires s != [] && FractionStep(s).1 == |s|
    ensures Fractions(s) == FractionStep(s).0
  {
    assert s[|s|..] == [];
  }

  /** A text without a slash is left as it is. */
  lemma {:induction false} FractionsWithoutSlash(s: String)
    requires '/' !in s
    ensures Fractions(s) == s
    decreases |s|
  {
    if s != [] {
      assert FractionAt(s).None? by {
        var d1 := SkipDigits(s, 0);
        if d1 < |s| { assert s[d1] in s; }
      }
      assert FractionStep(s) == ([s[0]], 1);
      assert '/' !in s[1..] by { assert forall c :: c in s[1..] ==> c in s; }
      FractionsWithoutSlash(s[1..]);
      assert s == [s[0]] + s[1..];
    }
  }

  /**
   * Text is rewritten piece by piece: when the first piece ends in a
   * character that is neither a digit nor a slash, no fraction straddles the
   * two pieces.
   */
  lemma {:induction false} FractionsAppend(x: String, y: String)
    requires x != [] && !IsDigit(x[|x| - 1]) && x[|x| - 1] != '/'
    ensures Fractions(x + y) == Fractions(x) + Fractions(y)
    decreases |x|
  {
    var out, n := FractionStep(x).0, FractionStep(x).1;
    FractionsAppendStep(x, y);
    if n < |x| {
      FractionsAppend(x[n..], y);
      AppendAssoc(out, Fractions(x[n..]), Fractions(y));
    }
  }

  /** The first turn of the replacement is the same on `x` and on `x + y`. */
  lemma FractionsAppendStep(x: String, y: String)
    requires x != [] && !IsDigit(x[|x| - 1]) && x[|x| - 1] != '/'
    ensures var step := FractionStep(x);
      && Fractions(x + y) == step.0 + Fractions(x[step.1..] + y)
      && Fractions(x) == step.0 + Fractions(x[step.1..])
      && (step.1 < |x| ==> !IsDigit(x[step.1..][|x| - step.1 - 1]) && x[step.1..][|x| - step.1 - 1] != '/')
      && (step.1 >= |x| ==> step.1 == |x| && Fractions(x[step.1..]) == [] && x[step.1..] + y == y)
  {
    var s := x + y;
    var out, n := FractionStep(x).0, FractionStep(x).1;
    assert n < |x| || |x| == 1 by { FractionStepPrefix(x, y); }
    assert Fractions(s) == out + Fractions(x[n..] + y) by {
      FractionStepPrefix(x, y);
      FractionsUnfold(s);
      assert s[n..] == x[n..] + y;
    }
    assert Fractions(x) == out + Fractions(x[n..]) by { FractionsUnfold(x); }
    if n < |x| {
      assert x[n..][|x| - n - 1] == x[|x| - 1];
    } else {
      assert x[n..] == [];
    }
  }

  lemma FractionsUnfold(s: String)
    requires s != []
    ensures Fractions(s) == FractionStep(s).0 + Fractions(s[FractionStep(s).1..])
  {
  }

  lemma FractionStepPrefix(x: String, y: String)
    requires x != [] && !IsDigit(x[|x| - 1]) && x[|x| - 1] != '/'
    ensures FractionStep(x + y) == FractionStep(x)
    ensures FractionStep(x).1 < |x| || |x| == 1
  {
    FractionAtPrefix(x, y);
    var s := x + y;
    match FractionAt(x)
    case Some((d1, d2)) =>
      assert s[..d1] == x[..d1] && s[d1 + 1..d2] == x[d1 + 1..d2];
      assert d2 < |x| by { assert !IsDigit(x[|x| - 1]); }
    case None =>
  }

  lemma FractionAtPrefix(x: String, y: String)
    requires x != [] && !IsDigit(x[|x| - 1]) && x[|x| - 1] != '/'
    ensures FractionAt(x + y) == FractionAt(x)
  {
    var s := x + y;
    SkipDigitsPrefix(x, y, 0);
    var d1 := SkipDigits(x, 0);
    if 0 < d1 < |x| && x[d1] == '/' {
      assert d1 + 1 < |x|;
      SkipDigitsPrefix(x, y, d1 + 1);
    }
  }

  lemma SkipDigitsPrefix(x: String, y: String, i: nat)
    requires i < |x| && !IsDigit(x[|x| - 1])
    ensures SkipDigits(x + y, i) == SkipDigits(x, i)
  {
    var j := SkipDigits(x, i);
    assert j < |x|;
    SkipDigitsExact(x + y, i, j);
  }

  /**
   * `cleanMarkdown` as written: after the math rewrites, every whitespace
   * run, line feeds included, becomes one space, and the ends are trimmed.
   * With no line terminator left, `replace(/^\s+|\s+$/gm, '')` removes
   * exactly the outer whitespace, as `trim` does.
   */
  function CleanMarkdownAsWritten(markdown: String): (r: String)
    ensures Collapsed(r) && NoOuterSpace(r)
    ensures '\n' !in r
  {
    var math := Fractions(Roots(Powers(SqueezeBlankLines(markdown))));
    var r := Normalize(math);
    forall i | 0 <= i < |r| ensures r[i] != '\n' {
      assert IsSpace(r[i]) ==> r[i] == ' ';
    }
    r
  }

  /** As written, the cleaned Markdown is always a single line, however many lines went in. */
  lemma CleanMarkdownAsWrittenIsOneLine(markdown: String)
    ensures Split(CleanMarkdownAsWritten(markdown), '\n') == [CleanMarkdownAsWritten(markdown)]
  {
    SplitNoSep(CleanMarkdownAsWritten(markdown), '\n');
  }

  /** `trim` and whitespace collapsing for each line, keeping the lines. */
  function NormalizeLines(ls: seq<String>): (r: seq<String>)
    ensures |r| == |ls| && forall i :: 0 <= i < |ls| ==> r[i] == Normalize(ls[i])
  {
    seq(|ls|, i requires 0 <= i < |ls| => Normalize(ls[i]))
  }

  /**
   * `cleanMarkdown` as its comments describe it: the same math rewrites,
   * then every line is trimmed and its whitespace runs collapsed, while the
   * line feeds between lines stay.
   */
  function CleanMarkdown(markdown: String): String {
    var math := Fractions(Roots(Powers(SqueezeBlankLines(markdown))));
    Join(NormalizeLines(Split(math, '\n')), "\n")
  }

  /** Each line of the cleaned Markdown is the normalised line it came from. */
  lemma CleanMarkdownKeepsLines(markdown: String)
    ensures var math := Fractions(Roots(Powers(SqueezeBlankLines(markdown))));
      Split(CleanMarkdown(markdown), '\n') == NormalizeLines(Split(math, '\n'))
    ensures forall l :: l in Split(CleanMarkdown(markdown), '\n') ==> Collapsed(l) && NoOuterSpace(l)
  {
    var math := Fractions(Roots(Powers(SqueezeBlankLines(markdown))));
    var ls := NormalizeLines(Split(math, '\n'));
    forall i | 0 <= i < |ls| ensures '\n' !in ls[i] {
      NormalizedHasNoLineFeed(Split(math, '\n')[i]);
    }
    SplitJoin(ls, '\n');
  }

  lemma NormalizedHasNoLineFeed(s: String)
    ensures '\n' !in Normalize(s)
  {
    var r := Normalize(s);
    forall i | 0 <= i < |r| ensures r[i] != '\n' {
      assert IsSpace(r[i]) ==> r[i] == ' ';
    }
  }

  /** Joining pieces that hold no separator and splitting again gives the pieces back. */
  lemma {:induction false} SplitJoin(ws: seq<String>, sep: char)
    requires |ws| >= 1 && forall i :: 0 <= i < |ws| ==> sep !in ws[i]
    ensures Split(Join(ws, [sep]), sep) == ws
    decreases |ws|
  {
    if |ws| == 1 {
      SplitNoSep(ws[0], sep);
    } else {
      SplitJoin(ws[1..], sep);
      SplitNoSep(ws[0], sep);
      SplitAtSep(ws[0], Join(ws[1..], [sep]), sep);
      assert [ws[0]] + ws[1..] == ws;
    }
  }

  // ---------------------------------------------------------------------
  // A whole text

  /** One processed line and its line feed. */
  function ProcessedLine(line: String): String { ProcessLine(line) + "\n" }

  /** `g` of every line, in order. */
  function MapLines(ls: seq<String>, g: String -> String): (r: seq<String>)
    ensures |r| == |ls| && forall i :: 0 <= i < |ls| ==> r[i] == g(ls[i])
  {
    seq(|ls|, i requires 0 <= i < |ls| => g(ls[i]))
  }

  /**
   * `textToMarkdown`, given the file's text: each line of `split('\n')` is
   * processed and followed by a line feed, then the whole goes through
   * `cleanMarkdown` as written, so the result is a single line.
   */
  method TextToMarkdown(text: String) returns (md: String)
    ensures md == CleanMarkdownAsWritten(FlatMap(Split(text, '\n'), ProcessedLine))
    ensures Collapsed(md) && NoOuterSpace(md) && '\n' !in md
  {
    var markdown := ProcessLines(Split(text, '\n'));
    md := CleanMarkdownAsWritten(markdown);
  }

  /** The `forEach` of `textToMarkdown`: every line's Markdown and a line feed, in order. */
  method ProcessLines(lines: seq<String>) returns (markdown: String)
    ensures markdown == FlatMap(lines, ProcessedLine)
  {
    markdown := [];
    var i := 0;
    while i < |lines|
      invariant i <= |lines|
      invariant markdown == FlatMap(lines[..i], ProcessedLine)
    {
      var piece := ProcessLine(lines[i]) + "\n";
      assert markdown + piece == FlatMap(lines[..i + 1], ProcessedLine) by {
        FlatMapAppend(lines[..i], [lines[i]], ProcessedLine);
        FlatMapOne(lines[i], ProcessedLine);
        assert lines[..i + 1] == lines[..i] + [lines[i]];
      }
      markdown := markdown + piece;
      i := i + 1;
    }
    assert lines[..i] == lines;
  }

  /**
   * `textToMarkdown` with the corrected clean-up: every line of the text
   * gives one line of Markdown, trimmed and with its whitespace runs
   * collapsed.
   */
  function TextToMarkdownIntended(text: String): (r: String)
    ensures forall l :: l in Split(r, '\n') ==> Collapsed(l) && NoOuterSpace(l)
  {
    var md := CleanMarkdown(FlatMap(Split(text, '\n'), ProcessedLine));
    CleanMarkdownKeepsLines(FlatMap(Split(text, '\n'), ProcessedLine));
    md
  }

  /**
   * Before the clean-up, the Markdown holds one line per input line, in
   * order, each the `processLine` of its input line, and ends with a line
   * feed.
   */
  lemma MarkdownLines(text: String)
    ensures Split(FlatMap(Split(text, '\n'), ProcessedLine), '\n') == MapLines(Split(text, '\n'), ProcessLine) + [[]]
  {
    forall l | '\n' !in l ensures '\n' !in ProcessLine(l) {
      ProcessedHasNoLineFeed(l);
    }
    LinesThenTail(Split(text, '\n'), [], ProcessedLine, ProcessLine);
    assert FlatMap(Split(text, '\n'), ProcessedLine) + [] == FlatMap(Split(text, '\n'), ProcessedLine);
  }

  lemma ProcessedHasNoLineFeed(line: String)
    requires '\n' !in line
    ensures '\n' !in ProcessLine(line)
  {
    assert '\n' !in Markup;
  }

  /**
   * Lines that each end in a line feed, then a last piece: splitting at the
   * line feeds gives the lines back, then the piece.
   */
  lemma {:induction false} LinesThenTail(ls: seq<String>, tail: String, f: String -> String, g: String -> String)
    requires forall l :: f(l) == g(l) + "\n"
    requires forall l :: '\n' !in l ==> '\n' !in g(l)
    requires forall i :: 0 <= i < |ls| ==> '\n' !in ls[i]
    requires '\n' !in tail
    ensures Split(FlatMap(ls, f) + tail, '\n') == MapLines(ls, g) + [tail]
    decreases |ls|
  {
    if ls == [] {
      SplitNoSep(tail, '\n');
      assert FlatMap(ls, f) + tail == tail;
      assert MapLines(ls, g) + [tail] == [tail];
    } else {
      var init, last := ls[..|ls| - 1], ls[|ls| - 1];
      var p := g(last);
      var before := FlatMap(init, f);
      assert Split(before + p, '\n') == MapLines(init, g) + [p] by {
        assert forall i :: 0 <= i < |init| ==> init[i] == ls[i];
        LinesThenTail(init, p, f, g);
      }
      assert FlatMap(ls, f) + tail == (before + p) + ['\n'] + tail by {
        assert FlatMap(ls, f) == before + (p + "\n");
        AppendAssoc(before, p, "\n");
      }
      SplitAtSep(before + p, tail, '\n');
      SplitNoSep(tail, '\n');
      assert MapLines(ls, g) == MapLines(init, g) + [p];
    }
  }

  // ---------------------------------------------------------------------
  // Choosing the reader

  datatype Reader = PdfReader | DocReader | TextReader

  /** The reader `convertToMarkdown` calls, or the message of the error it throws. */
  datatype Choice = Reads(reader: Reader) | Refused(message: String)

  /** `file.name.split('.').pop().toLowerCase()`. */
  function FileType(name: String): String {
    var pieces := Split(name, '.');
    Lower(pieces[|pieces| - 1])
  }

  /** The `switch` of `convertToMarkdown`: the reader for a file type, or the error it throws. */
  function ReaderFor(fileType: String): (r: Choice)
    ensures r.Refused? <==> fileType !in ["pdf", "doc", "docx", "txt", "md"]
  {
    match fileType
    case "pdf" => Reads(PdfReader)
    case "doc" => Reads(DocReader)
    case "docx" => Reads(DocReader)
    case "txt" => Reads(TextReader)
    case "md" => Reads(TextReader)
    case _ => Refused("Дэмжигдээгүй файл төрөл: " + fileType)
  }

  /** The file type is the lowercased text after the last dot of the name. */
  lemma FileTypeIsLastExtension(stem: String, ext: String)
    requires '.' !in ext
    ensures FileType(stem + "." + ext) == Lower(ext)
  {
    SplitAtSep(stem, ext, '.');
    SplitNoSep(ext, '.');
  }

  /** A name without a dot is its own file type, so it is refused unless it is one of the type names. */
  lemma NameWithoutDot(name: String)
    requires '.' !in name
    ensures FileType(name) == Lower(name)
  {
    SplitNoSep(name, '.');
  }
}
