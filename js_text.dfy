/**
 * The JavaScript string operations the extraction scripts are built from:
 * the `\s` class and `String.prototype.trim`, `replace(/\s+/g, ' ')`,
 * `split(' ')`, `split(/\s+/)`, decimal digits and `parseInt`, `.length`
 * counted in UTF-16 code units, and upper/lower case for the alphabets the
 * exam papers use (Latin, Russian and Mongolian Cyrillic).
 */
module JsText {
  import opened Wrappers

  type String = seq<char>

  // ---------------------------------------------------------------------
  // Character classes

  /** The characters JavaScript's `\s` matches and `trim` removes. */
  predicate IsSpace(c: char) {
    c == '\t' || c == '\n' || c == '\U{B}' || c == '\U{C}' || c == '\r' || c == ' '
    || c == '\U{A0}' || c == '\U{1680}' || ('\U{2000}' <= c <= '\U{200A}')
    || c == '\U{2028}' || c == '\U{2029}' || c == '\U{202F}' || c == '\U{205F}'
    || c == '\U{3000}' || c == '\U{FEFF}'
  }

  /** The characters JavaScript's `.` refuses to match. */
  predicate IsLineTerminator(c: char) {
    c == '\n' || c == '\r' || c == '\U{2028}' || c == '\U{2029}'
  }

  predicate IsDigit(c: char) { '0' <= c <= '9' }

  /** `\w` (no `u` flag). */
  predicate IsWordChar(c: char) {
    ('a' <= c <= 'z') || ('A' <= c <= 'Z') || IsDigit(c) || c == '_'
  }

  predicate AllDigits(s: String) { forall i :: 0 <= i < |s| ==> IsDigit(s[i]) }

  predicate NoSpace(s: String) { forall i :: 0 <= i < |s| ==> !IsSpace(s[i]) }

  // ---------------------------------------------------------------------
  // Length as JavaScript counts it

  /** `s.length`: characters outside the Basic Multilingual Plane count twice. */
  function JsLength(s: String): (n: nat)
    ensures |s| <= n <= 2 * |s|
  {
    if s == [] then 0 else (if s[0] as int > 0xFFFF then 2 else 1) + JsLength(s[1..])
  }

  /** Regrouping a concatenation of three sequences. */
  lemma AppendAssoc<T>(a: seq<T>, b: seq<T>, c: seq<T>)
    ensures a + (b + c) == (a + b) + c
  {
  }

  lemma {:induction false} JsLengthAppend(a: String, b: String)
    ensures JsLength(a + b) == JsLength(a) + JsLength(b)
  {
    if a != [] {
      var w := if a[0] as int > 0xFFFF then 2 else 1;
      assert (a + b)[0] == a[0];
      assert (a + b)[1..] == a[1..] + b;
      JsLengthAppend(a[1..], b);
      assert JsLength(a + b) == w + JsLength(a[1..] + b);
      assert JsLength(a) == w + JsLength(a[1..]);
    } else {
      assert a + b == b;
    }
  }

  // ---------------------------------------------------------------------
  // Searching

  predicate OccursAt(s: String, t: String, i: nat) {
    i + |t| <= |s| && s[i..i + |t|] == t
  }

  predicate StartsWith(s: String, t: String) { OccursAt(s, t, 0) }

  predicate EndsWith(s: String, t: String) { |t| <= |s| && s[|s| - |t|..] == t }

  /** `s.indexOf(t, from)`, as an option. */
  function Find(s: String, t: String, from: nat): (r: Option<nat>)
    requires from <= |s|
    ensures r.Some? ==> from <= r.value <= |s| && OccursAt(s, t, r.value)
    ensures forall k :: from <= k && (r.None? || k < r.value) ==> !OccursAt(s, t, k)
    decreases |s| - from
  {
    if OccursAt(s, t, from) then Some(from)
    else if from == |s| then None
    else Find(s, t, from + 1)
  }

  /** `s.includes(t)`. */
  predicate Contains(s: String, t: String) { Find(s, t, 0).Some? }

  // ---------------------------------------------------------------------
  // Case

  function UpperChar(c: char): char {
    if 'a' <= c <= 'z' then (c as int - 32) as char
    else if 'а' <= c <= 'я' then (c as int - 32) as char
    else if c == 'ё' then 'Ё'
    else if c == 'ө' then 'Ө'
    else if c == 'ү' then 'Ү'
    else c
  }

  function LowerChar(c: char): char {
    if 'A' <= c <= 'Z' then (c as int + 32) as char
    else if 'А' <= c <= 'Я' then (c as int + 32) as char
    else if c == 'Ё' then 'ё'
    else if c == 'Ө' then 'ө'
    else if c == 'Ү' then 'ү'
    else c
  }

  /** `toUpperCase()`. */
  function Upper(s: String): (r: String)
    ensures |r| == |s| && forall i :: 0 <= i < |s| ==> r[i] == UpperChar(s[i])
  {
    seq(|s|, i requires 0 <= i < |s| => UpperChar(s[i]))
  }

  /** `toLowerCase()`. */
  function Lower(s: String): (r: String)
    ensures |r| == |s| && forall i :: 0 <= i < |s| ==> r[i] == LowerChar(s[i])
  {
    seq(|s|, i requires 0 <= i < |s| => LowerChar(s[i]))
  }

  /** Character equality under a regex's `i` flag. */
  predicate SameLetter(a: char, b: char) { UpperChar(a) == UpperChar(b) }

  predicate OccursAtIgnoringCase(s: String, t: String, i: nat) {
    i + |t| <= |s| && forall k :: 0 <= k < |t| ==> SameLetter(s[i + k], t[k])
  }

  /** The first place at or after `from` where `/t/i` matches. */
  function FindIgnoringCase(s: String, t: String, from: nat): (r: Option<nat>)
    requires from <= |s|
    ensures r.Some? ==> from <= r.value <= |s| && OccursAtIgnoringCase(s, t, r.value)
    ensures forall k :: from <= k && (r.None? || k < r.value) ==> !OccursAtIgnoringCase(s, t, k)
    decreases |s| - from
  {
    if OccursAtIgnoringCase(s, t, from) then Some(from)
    else if from == |s| then None
    else FindIgnoringCase(s, t, from + 1)
  }

  /** `/t/i.test(s)`. */
  predicate ContainsIgnoringCase(s: String, t: String) { FindIgnoringCase(s, t, 0).Some? }

  // ---------------------------------------------------------------------
  // Greedy scanners shared by the regular-expression models

  /** End of the greedy `\s*` that starts at `i`. */
  function SkipSpaces(s: String, i: nat): (j: nat)
    requires i <= |s|
    ensures i <= j <= |s|
    ensures forall k :: i <= k < j ==> IsSpace(s[k])
    ensures j == |s| || !IsSpace(s[j])
    decreases |s| - i
  {
    if i < |s| && IsSpace(s[i]) then SkipSpaces(s, i + 1) else i
  }

  /** End of the greedy `\S*` that starts at `i`. */
  function SkipNonSpaces(s: String, i: nat): (j: nat)
    requires i <= |s|
    ensures i <= j <= |s|
    ensures forall k :: i <= k < j ==> !IsSpace(s[k])
    ensures j == |s| || IsSpace(s[j])
    decreases |s| - i
  {
    if i < |s| && !IsSpace(s[i]) then SkipNonSpaces(s, i + 1) else i
  }

  /** End of the greedy `\d*` that starts at `i`. */
  function SkipDigits(s: String, i: nat): (j: nat)
    requires i <= |s|
    ensures i <= j <= |s|
    ensures forall k :: i <= k < j ==> IsDigit(s[k])
    ensures j == |s| || !IsDigit(s[j])
    decreases |s| - i
  {
    if i < |s| && IsDigit(s[i]) then SkipDigits(s, i + 1) else i
  }

  /** `/^\d+\./`: a number and a dot open the text. */
  predicate StartsWithNumberDot(t: String) {
    var p := SkipDigits(t, 0);
    p > 0 && p < |t| && t[p] == '.'
  }

  /** End of the greedy `.*` that starts at `i`: the next line terminator. */
  function LineEnd(s: String, i: nat): (j: nat)
    requires i <= |s|
    ensures i <= j <= |s|
    ensures forall k :: i <= k < j ==> !IsLineTerminator(s[k])
    ensures j == |s| || IsLineTerminator(s[j])
    decreases |s| - i
  {
    if i < |s| && !IsLineTerminator(s[i]) then LineEnd(s, i + 1) else i
  }

  /**
   * Where `(.+)` starts after a greedy whitespace run that began at `lo`:
   * the engine tries the longest run first and gives back one character at
   * a time (never going below `lo`) until `.` can match.
   */
  function DotPlusStart(s: String, lo: nat, c: nat): (r: Option<nat>)
    requires lo <= c <= |s|
    ensures r.Some? ==> lo <= r.value <= c && r.value < |s| && !IsLineTerminator(s[r.value])
    ensures r.Some? ==> forall k :: r.value < k <= c && k < |s| ==> IsLineTerminator(s[k])
    ensures r.None? ==> forall k :: lo <= k <= c && k < |s| ==> IsLineTerminator(s[k])
    decreases c
  {
    if c < |s| && !IsLineTerminator(s[c]) then Some(c)
    else if c > lo then DotPlusStart(s, lo, c - 1)
    else None
  }

  /**
   * The capture of `\s*(.+)` (when `atLeastOne` is false) or `\s+(.+)` (when
   * it is true) anchored at `q`.
   */
  function SpacesThenRest(s: String, q: nat, atLeastOne: bool): (r: Option<String>)
    requires q <= |s|
    ensures r.Some? ==> |r.value| > 0
  {
    var w := SkipSpaces(s, q);
    var lo := if atLeastOne then q + 1 else q;
    if w < lo then None
    else match DotPlusStart(s, lo, w)
      case None => None
      case Some(c) => Some(s[c..LineEnd(s, c)])
  }

  // ---------------------------------------------------------------------
  // trim and whitespace collapsing

  /** Where the trimmed text ends, searching back from `hi` but not below `lo`. */
  function TrimEndFrom(s: String, lo: nat, hi: nat): (b: nat)
    requires lo <= hi <= |s|
    ensures lo <= b <= hi
    ensures forall k :: b <= k < hi ==> IsSpace(s[k])
    ensures b == lo || !IsSpace(s[b - 1])
    decreases hi
  {
    if hi > lo && IsSpace(s[hi - 1]) then TrimEndFrom(s, lo, hi - 1) else hi
  }

  predicate NoOuterSpace(s: String) {
    s == [] || (!IsSpace(s[0]) && !IsSpace(s[|s| - 1]))
  }

  /** `String.prototype.trim`. */
  function Trim(s: String): (r: String)
    ensures NoOuterSpace(r)
    ensures |r| <= |s|
  {
    var a := SkipSpaces(s, 0);
    s[a..TrimEndFrom(s, a, |s|)]
  }

  /** `trim` removes only whitespace: what it drops on either side is all spaces. */
  lemma TrimDropsOnlySpaces(s: String)
    ensures exists a, b ::
      && 0 <= a <= b <= |s| && Trim(s) == s[a..b]
      && (forall k :: 0 <= k < a ==> IsSpace(s[k]))
      && (forall k :: b <= k < |s| ==> IsSpace(s[k]))
  {
    var a := SkipSpaces(s, 0);
    var b := TrimEndFrom(s, a, |s|);
    assert Trim(s) == s[a..b];
  }

  lemma TrimKeeps(s: String)
    requires NoOuterSpace(s)
    ensures Trim(s) == s
  {
    if s != [] {
      assert SkipSpaces(s, 0) == 0;
      assert TrimEndFrom(s, 0, |s|) == |s|;
    }
  }

  lemma TrimIdempotent(s: String)
    ensures Trim(Trim(s)) == Trim(s)
  {
    TrimKeeps(Trim(s));
  }

  /** No whitespace but single spaces, and never two whitespace characters in a row. */
  predicate Collapsed(s: String) {
    forall i :: 0 <= i < |s| && IsSpace(s[i]) ==> s[i] == ' ' && (i + 1 == |s| || !IsSpace(s[i + 1]))
  }

  /** `replace(/\s+/g, ' ')`: every maximal run of whitespace becomes one space. */
  function CollapseSpaces(s: String): (r: String)
    ensures Collapsed(r)
    ensures |r| <= |s|
    ensures |s| > 0 ==> |r| > 0 && (IsSpace(s[0]) <==> IsSpace(r[0]))
    ensures |s| > 0 ==> (IsSpace(s[|s| - 1]) <==> IsSpace(r[|r| - 1]))
    decreases |s|
  {
    if s == [] then []
    else if IsSpace(s[0]) then
      var j := SkipSpaces(s, 0);
      [' '] + CollapseSpaces(s[j..])
    else [s[0]] + CollapseSpaces(s[1..])
  }

  lemma CollapsedSlice(s: String, a: nat, b: nat)
    requires Collapsed(s) && a <= b <= |s|
    ensures Collapsed(s[a..b])
  {
    forall i | 0 <= i < b - a && IsSpace(s[a..b][i])
      ensures s[a..b][i] == ' ' && (i + 1 == b - a || !IsSpace(s[a..b][i + 1]))
    {
      assert s[a..b][i] == s[a + i];
      if i + 1 < b - a { assert s[a..b][i + 1] == s[a + i + 1]; }
    }
  }

  lemma {:induction false} CollapseKeeps(s: String)
    requires Collapsed(s)
    ensures CollapseSpaces(s) == s
    decreases |s|
  {
    if s != [] {
      CollapsedSlice(s, 1, |s|);
      CollapseKeeps(s[1..]);
      if IsSpace(s[0]) {
        assert SkipSpaces(s, 1) == 1;
        assert SkipSpaces(s, 0) == 1;
        assert s == [' '] + s[1..];
      } else {
        assert s == [s[0]] + s[1..];
      }
    }
  }

  /** `replace(/\s+/g, ' ').trim()`, the normalisation every extractor applies. */
  function Normalize(s: String): (r: String)
    ensures Collapsed(r) && NoOuterSpace(r)
  {
    var c := CollapseSpaces(s);
    CollapsedSlice(c, SkipSpaces(c, 0), TrimEndFrom(c, SkipSpaces(c, 0), |c|));
    Trim(c)
  }

  lemma NormalizeKeeps(s: String)
    requires Collapsed(s) && NoOuterSpace(s)
    ensures Normalize(s) == s
  {
    CollapseKeeps(s);
    TrimKeeps(s);
  }

  /** Normalising twice gives what normalising once gives. */
  lemma NormalizeIdempotent(s: String)
    ensures Normalize(Normalize(s)) == Normalize(s)
  {
    NormalizeKeeps(Normalize(s));
  }

  // ---------------------------------------------------------------------
  // Splitting and joining

  /** `s.split(sep)` for a one-character separator. */
  function Split(s: String, sep: char): (r: seq<String>)
    ensures |r| >= 1
    ensures forall i :: 0 <= i < |r| ==> sep !in r[i]
    decreases |s|
  {
    if s == [] then [[]]
    else
      var rest := Split(s[1..], sep);
      if s[0] == sep then [[]] + rest else [[s[0]] + rest[0]] + rest[1..]
  }

  /** `ws.join(sep)`. */
  function Join(ws: seq<String>, sep: String): String
    decreases |ws|
  {
    if |ws| == 0 then [] else if |ws| == 1 then ws[0] else ws[0] + sep + Join(ws[1..], sep)
  }

  /** Splitting on a character and joining back with it gives the text back. */
  lemma {:induction false} JoinSplit(s: String, sep: char)
    ensures Join(Split(s, sep), [sep]) == s
    decreases |s|
  {
    if s != [] {
      var rest := Split(s[1..], sep);
      JoinSplit(s[1..], sep);
      if s[0] == sep {
        assert Split(s, sep) == [[]] + rest;
      } else {
        if |rest| == 1 {
          assert Split(s, sep) == [[s[0]] + rest[0]];
        } else {
          assert Split(s, sep) == [[s[0]] + rest[0]] + rest[1..];
          assert Join(rest, [sep]) == rest[0] + [sep] + Join(rest[1..], [sep]);
          assert ([s[0]] + rest[0]) + [sep] + Join(rest[1..], [sep]) == [s[0]] + (rest[0] + [sep] + Join(rest[1..], [sep]));
        }
      }
    }
  }

  /** A text without the separator is one piece. */
  lemma {:induction false} SplitNoSep(s: String, sep: char)
    requires sep !in s
    ensures Split(s, sep) == [s]
    decreases |s|
  {
    if s != [] {
      assert s[0] != sep;
      SplitNoSep(s[1..], sep);
      assert [s[0]] + s[1..] == s;
    }
  }

  /** Splitting at a separator: the pieces before it, then the pieces after it. */
  lemma {:induction false} SplitAtSep(a: String, b: String, sep: char)
    ensures Split(a + [sep] + b, sep) == Split(a, sep) + Split(b, sep)
    decreases |a|
  {
    var s := a + [sep] + b;
    if a == [] {
      assert s == [sep] + b && s[1..] == b;
    } else {
      assert s[0] == a[0] && s[1..] == a[1..] + [sep] + b;
      SplitAtSep(a[1..], b, sep);
    }
  }

  /** `s.split(/\s+/)`: the pieces between maximal whitespace runs. */
  function SplitOnSpaceRuns(s: String): (r: seq<String>)
    ensures |r| >= 1
    ensures forall i :: 0 <= i < |r| ==> NoSpace(r[i])
    decreases |s|
  {
    if s == [] then [[]]
    else if IsSpace(s[0]) then [[]] + SplitOnSpaceRuns(s[SkipSpaces(s, 0)..])
    else
      var rest := SplitOnSpaceRuns(s[1..]);
      [[s[0]] + rest[0]] + rest[1..]
  }

  /** `.filter(c => c.length > 0)` */
  function NonEmpty(ws: seq<String>): (r: seq<String>)
    ensures forall i :: 0 <= i < |r| ==> |r[i]| > 0
    ensures forall w :: w in r ==> w in ws
  {
    if ws == [] then [] else (if ws[0] == [] then [] else [ws[0]]) + NonEmpty(ws[1..])
  }

  /** `.map(c => c.trim())` */
  function TrimAll(ws: seq<String>): (r: seq<String>)
    ensures |r| == |ws| && forall i :: 0 <= i < |ws| ==> r[i] == Trim(ws[i])
  {
    seq(|ws|, i requires 0 <= i < |ws| => Trim(ws[i]))
  }

  // ---------------------------------------------------------------------
  // Numbers

  function DigitValue(c: char): nat
    requires IsDigit(c)
  {
    c as int - '0' as int
  }

  /** `parseInt` of a string of decimal digits. */
  function DigitsValue(s: String): nat
    requires AllDigits(s)
    decreases |s|
  {
    if s == [] then 0 else 10 * DigitsValue(s[..|s| - 1]) + DigitValue(s[|s| - 1])
  }

  /** The decimal form of a number, as a template literal prints it. */
  function NatToString(n: nat): (s: String)
    ensures |s| > 0 && AllDigits(s)
    decreases n
  {
    if n < 10 then [('0' as int + n) as char]
    else NatToString(n / 10) + [('0' as int + n % 10) as char]
  }

  /** Printing a number and parsing it back gives the number. */
  lemma {:induction false} ParsePrinted(n: nat)
    ensures DigitsValue(NatToString(n)) == n
    decreases n
  {
    if n >= 10 {
      ParsePrinted(n / 10);
      var s := NatToString(n);
      assert s[..|s| - 1] == NatToString(n / 10);
    }
  }

  /** `/^\d+\.$/`: a token made of digits and one final period. */
  predicate IsNumberToken(w: String) {
    |w| >= 2 && w[|w| - 1] == '.' && AllDigits(w[..|w| - 1])
  }

  function NumberTokenValue(w: String): nat
    requires IsNumberToken(w)
  {
    DigitsValue(w[..|w| - 1])
  }

  /** `\d+\.\s` at `e`. */
  predicate NumberAhead(s: String, e: nat)
    requires e <= |s|
  {
    var d := SkipDigits(s, e);
    d > e && d + 1 < |s| && s[d] == '.' && IsSpace(s[d + 1])
  }

  /** The heading of the exam's second section, which ends the first section's last question. */
  const SectionTwo: String := "Хоёрдугаар хэсэг"
}
