/**
 * The HTML clean-up chains the extractors share: dropping `<script>` and
 * `<style>` blocks, replacing tags, collapsing whitespace, closing the gap
 * between adjacent tags, and escaping the five HTML special characters.
 */
module HtmlText {
  import opened Wrappers
  import opened JsText

  // ---------------------------------------------------------------------
  // Tags

  /** The first `c` at or after `i`, or `|s|`. */
  function FindChar(s: String, c: char, i: nat): (k: nat)
    requires i <= |s|
    ensures i <= k <= |s|
    ensures forall j :: i <= j < k ==> s[j] != c
    ensures k < |s| ==> s[k] == c
    decreases |s| - i
  {
    if i == |s| || s[i] == c then i else FindChar(s, c, i + 1)
  }

  /** No `<` is followed, anywhere later, by a `>`: no complete tag is left. */
  predicate NoCompleteTag(s: String) {
    forall i, j :: 0 <= i < j < |s| && s[i] == '<' ==> s[j] != '>'
  }

  lemma NoCompleteTagCons(x: char, r: String)
    ensures NoCompleteTag([x] + r) <==> (x == '<' ==> '>' !in r) && NoCompleteTag(r)
  {
    var s := [x] + r;
    if NoCompleteTag(s) {
      forall i, j | 0 <= i < j < |r| && r[i] == '<' ensures r[j] != '>' {
        assert s[i + 1] == r[i] && s[j + 1] == r[j];
      }
      if x == '<' {
        forall j | 0 <= j < |r| ensures r[j] != '>' {
          assert s[0] == '<' && s[j + 1] == r[j] && 0 < j + 1 < |s|;
        }
      }
    }
    if (x == '<' ==> '>' !in r) && NoCompleteTag(r) {
      forall i, j | 0 <= i < j < |s| && s[i] == '<' ensures s[j] != '>' {
        assert s[j] == r[j - 1];
        if i > 0 { assert s[i] == r[i - 1]; }
      }
    }
  }

  lemma NoCompleteTagAppend(a: String, r: String)
    requires NoCompleteTag(r) && '<' !in a && '>' !in a
    ensures NoCompleteTag(a + r)
  {
    var s := a + r;
    forall i, j | 0 <= i < j < |s| && s[i] == '<' ensures s[j] != '>' {
      if i >= |a| {
        assert s[i] == r[i - |a|];
        assert s[j] == r[j - |a|];
      }
    }
  }

  /**
   * `replace(/<[^>]*>/g, rep)`, or `replace(/<[^>]+>/g, rep)` when `nonEmpty`:
   * each `<` that has a `>` after it starts a tag reaching to the first such
   * `>`.
   */
  function ReplaceTags(s: String, rep: String, nonEmpty: bool): String
    decreases |s|
  {
    if s == [] then []
    else
      var k := FindChar(s, '>', 1);
      if s[0] == '<' && k < |s| && (!nonEmpty || k > 1) then rep + ReplaceTags(s[k + 1..], rep, nonEmpty)
      else [s[0]] + ReplaceTags(s[1..], rep, nonEmpty)
  }

  /** Text without `<` has no tag to replace. */
  lemma {:induction false} ReplaceTagsKeeps(s: String, rep: String, nonEmpty: bool)
    requires '<' !in s
    ensures ReplaceTags(s, rep, nonEmpty) == s
    decreases |s|
  {
    if s != [] {
      assert '<' !in s[1..];
      ReplaceTagsKeeps(s[1..], rep, nonEmpty);
      assert s == [s[0]] + s[1..];
    }
  }

  /** Text without `>` keeps none after its tags are replaced. */
  lemma {:induction false} ReplaceTagsNoGt(s: String, rep: String, nonEmpty: bool)
    requires '>' !in rep && '>' !in s
    ensures '>' !in ReplaceTags(s, rep, nonEmpty)
    decreases |s|
  {
    if s != [] {
      assert '>' !in s[1..];
      ReplaceTagsNoGt(s[1..], rep, nonEmpty);
    }
  }

  /**
   * After `replace(/<[^>]*>/g, rep)` with a replacement free of `<` and `>`,
   * no complete tag is left: every `<` that remains had no `>` after it.
   */
  lemma {:induction false} ReplaceTagsLeavesNoTag(s: String, rep: String)
    requires '<' !in rep && '>' !in rep
    ensures NoCompleteTag(ReplaceTags(s, rep, false))
    decreases |s|
  {
    if s != [] {
      var k := FindChar(s, '>', 1);
      if s[0] == '<' && k < |s| {
        ReplaceTagsLeavesNoTag(s[k + 1..], rep);
        NoCompleteTagAppend(rep, ReplaceTags(s[k + 1..], rep, false));
      } else {
        var r := ReplaceTags(s[1..], rep, false);
        ReplaceTagsLeavesNoTag(s[1..], rep);
        if s[0] == '<' {
          assert '>' !in s[1..] by {
            forall j | 0 <= j < |s| - 1 ensures s[1..][j] != '>' { assert s[1..][j] == s[j + 1]; }
          }
          ReplaceTagsNoGt(s[1..], rep, false);
        }
        NoCompleteTagCons(s[0], r);
      }
    }
  }

  lemma {:induction false} CollapseKeepsNoTag(s: String)
    ensures '>' !in s ==> '>' !in CollapseSpaces(s)
    ensures NoCompleteTag(s) ==> NoCompleteTag(CollapseSpaces(s))
    decreases |s|
  {
    if s != [] {
      if IsSpace(s[0]) {
        var j := SkipSpaces(s, 0);
        CollapseKeepsNoTag(s[j..]);
        if NoCompleteTag(s) {
          assert NoCompleteTag(s[j..]) by {
            forall a, b | 0 <= a < b < |s[j..]| && s[j..][a] == '<' ensures s[j..][b] != '>' {
              assert s[j..][a] == s[j + a] && s[j..][b] == s[j + b];
            }
          }
          NoCompleteTagCons(' ', CollapseSpaces(s[j..]));
        }
        if '>' !in s { assert '>' !in s[j..]; }
      } else {
        CollapseKeepsNoTag(s[1..]);
        if NoCompleteTag(s) {
          NoCompleteTagCons(s[0], s[1..]);
          assert s == [s[0]] + s[1..];
          NoCompleteTagCons(s[0], CollapseSpaces(s[1..]));
        }
        if '>' !in s { assert '>' !in s[1..]; }
      }
    }
  }

  lemma NoCompleteTagSlice(s: String, a: nat, b: nat)
    requires NoCompleteTag(s) && a <= b <= |s|
    ensures NoCompleteTag(s[a..b])
  {
    forall i, j | 0 <= i < j < b - a && s[a..b][i] == '<' ensures s[a..b][j] != '>' {
      assert s[a..b][i] == s[a + i] && s[a..b][j] == s[a + j];
    }
  }

  lemma NormalizeKeepsNoTag(s: String)
    requires NoCompleteTag(s)
    ensures NoCompleteTag(Normalize(s))
  {
    CollapseKeepsNoTag(s);
    var c := CollapseSpaces(s);
    var a := SkipSpaces(c, 0);
    NoCompleteTagSlice(c, a, TrimEndFrom(c, a, |c|));
  }

  /**
   * `replace(/<[^>]*>/g, '').replace(/\s+/g, ' ').trim()`: the text of an
   * HTML fragment with its tags deleted.
   */
  function StripTags(s: String): (r: String)
    ensures Collapsed(r) && NoOuterSpace(r)
    ensures NoCompleteTag(r)
  {
    var t := ReplaceTags(s, [], false);
    ReplaceTagsLeavesNoTag(s, []);
    NormalizeKeepsNoTag(t);
    Normalize(t)
  }

  // ---------------------------------------------------------------------
  // Script and style blocks

  /**
   * `replace(/<name\b[^<]*(?:(?!<\/name>)<[^<]*)*<\/name>/gi, '')`: an
   * opening `<name` (any case, followed by a non-word character) together
   * with everything up to the first `</name>` after it is deleted; an
   * opening with no closing after it stays.
   */
  function RemoveBlocks(s: String, name: String): (r: String)
    ensures |r| <= |s|
    decreases |s|
  {
    if s == [] then []
    else
      var open := ['<'] + name;
      var close := ['<', '/'] + name + ['>'];
      var boundary := |s| == |open| || (|open| < |s| && !IsWordChar(s[|open|]));
      if OccursAtIgnoringCase(s, open, 0) && boundary then
        match FindIgnoringCase(s, close, |open|)
        case Some(k) => RemoveBlocks(s[k + |close|..], name)
        case None => [s[0]] + RemoveBlocks(s[1..], name)
      else [s[0]] + RemoveBlocks(s[1..], name)
  }

  /** Text without any `<` passes through block removal unchanged. */
  lemma {:induction false} RemoveBlocksKeeps(s: String, name: String)
    requires '<' !in s
    ensures RemoveBlocks(s, name) == s
    decreases |s|
  {
    if s != [] {
      assert !OccursAtIgnoringCase(s, ['<'] + name, 0) by {
        assert (['<'] + name)[0] == '<';
        assert !SameLetter(s[0], '<');
      }
      assert '<' !in s[1..];
      RemoveBlocksKeeps(s[1..], name);
      assert s == [s[0]] + s[1..];
    }
  }

  /**
   * `extractTextFromHTML` of the smart and comprehensive extractors: script
   * blocks, then style blocks, are dropped, every tag becomes a space, and
   * the result is normalised.
   */
  function ExtractTextFromHtml(html: String): (r: String)
    ensures Collapsed(r) && NoOuterSpace(r)
    ensures NoCompleteTag(r)
  {
    var b := RemoveBlocks(RemoveBlocks(html, "script"), "style");
    var t := ReplaceTags(b, " ", false);
    ReplaceTagsLeavesNoTag(b, " ");
    NormalizeKeepsNoTag(t);
    Normalize(t)
  }

  // ---------------------------------------------------------------------
  // Entities (simple extractor)

  predicate IsEntityChar(c: char) {
    ('a' <= c <= 'z') || ('A' <= c <= 'Z') || IsDigit(c) || c == '#'
  }

  function SkipEntityChars(s: String, i: nat): (j: nat)
    requires i <= |s|
    ensures i <= j <= |s|
    ensures forall k :: i <= k < j ==> IsEntityChar(s[k])
    ensures j == |s| || !IsEntityChar(s[j])
    decreases |s| - i
  {
    if i < |s| && IsEntityChar(s[i]) then SkipEntityChars(s, i + 1) else i
  }

  /** `replace(/&[a-zA-Z0-9#]+;/g, ' ')`. */
  function ReplaceEntities(s: String): (r: String)
    ensures |r| <= |s|
    decreases |s|
  {
    if s == [] then []
    else
      var j := SkipEntityChars(s, 1);
      if s[0] == '&' && j > 1 && j < |s| && s[j] == ';' then [' '] + ReplaceEntities(s[j + 1..])
      else [s[0]] + ReplaceEntities(s[1..])
  }

  /** Text with no `&` keeps all of its characters. */
  lemma {:induction false} ReplaceEntitiesKeeps(s: String)
    requires '&' !in s
    ensures ReplaceEntities(s) == s
    decreases |s|
  {
    if s != [] {
      assert '&' !in s[1..];
      ReplaceEntitiesKeeps(s[1..]);
      assert s == [s[0]] + s[1..];
    }
  }

  // ---------------------------------------------------------------------
  // cleanHTML / cleanAndPreserveHTML

  /** No `>`, single space, `<` sequence (the only gap a collapsed text can have). */
  predicate NoGapBetweenTags(s: String) {
    forall i :: 0 <= i < |s| - 2 ==> !(s[i] == '>' && s[i + 1] == ' ' && s[i + 2] == '<')
  }

  /** `replace(/>\s+</g, '><')`. */
  function JoinTags(s: String): (r: String)
    ensures |s| > 0 ==> |r| > 0 && r[0] == s[0]
    ensures |r| <= |s|
    decreases |s|
  {
    if s == [] then []
    else
      var j := SkipSpaces(s, 1);
      if s[0] == '>' && j > 1 && j < |s| && s[j] == '<' then "><" + JoinTags(s[j + 1..])
      else [s[0]] + JoinTags(s[1..])
  }

  lemma CollapsedCons(x: char, r: String)
    ensures Collapsed([x] + r) <==>
      (IsSpace(x) ==> x == ' ' && (r == [] || !IsSpace(r[0]))) && Collapsed(r)
  {
    var s := [x] + r;
    if Collapsed(s) {
      forall i | 0 <= i < |r| && IsSpace(r[i]) ensures r[i] == ' ' && (i + 1 == |r| || !IsSpace(r[i + 1])) {
        assert s[i + 1] == r[i];
        if i + 1 < |r| { assert s[i + 2] == r[i + 1]; }
      }
      if IsSpace(x) && r != [] { assert s[0] == x && s[1] == r[0]; }
    }
    if (IsSpace(x) ==> x == ' ' && (r == [] || !IsSpace(r[0]))) && Collapsed(r) {
      forall i | 0 <= i < |s| && IsSpace(s[i]) ensures s[i] == ' ' && (i + 1 == |s| || !IsSpace(s[i + 1])) {
        if i > 0 {
          assert s[i] == r[i - 1];
          if i + 1 < |s| { assert s[i + 1] == r[i]; }
        } else if |s| > 1 {
          assert s[1] == r[0];
        }
      }
    }
  }

  lemma {:induction false} JoinTagsCollapsed(s: String)
    requires Collapsed(s)
    ensures Collapsed(JoinTags(s)) && NoGapBetweenTags(JoinTags(s))
    decreases |s|
  {
    if s != [] {
      var j := SkipSpaces(s, 1);
      CollapsedCons(s[0], s[1..]);
      assert s == [s[0]] + s[1..];
      if s[0] == '>' && j > 1 && j < |s| && s[j] == '<' {
        assert j == 2 by { assert IsSpace(s[1]); assert !IsSpace(s[2]) ; }
        CollapsedSlice(s, 3, |s|);
        JoinTagsCollapsed(s[3..]);
        var r := JoinTags(s[3..]);
        CollapsedCons('<', r);
        CollapsedCons('>', ['<'] + r);
        assert "><" + r == ['>'] + (['<'] + r);
      } else {
        JoinTagsCollapsed(s[1..]);
        var r := JoinTags(s[1..]);
        CollapsedCons(s[0], r);
        var out := [s[0]] + r;
        forall i | 0 <= i < |out| - 2 ensures !(out[i] == '>' && out[i + 1] == ' ' && out[i + 2] == '<') {
          if i == 0 && out[0] == '>' && out[1] == ' ' {
            assert s[1] == ' ';
            assert SkipSpaces(s, 2) == 2 by { assert |s| == 2 || !IsSpace(s[2]); }
            assert j == 2;
            assert r == [' '] + JoinTags(s[2..]);
            assert out[2] == s[2];
          } else if i > 0 {
            assert out[i] == r[i - 1] && out[i + 1] == r[i] && out[i + 2] == r[i + 1];
          }
        }
      }
    }
  }

  lemma {:induction false} JoinTagsKeeps(s: String)
    requires Collapsed(s) && NoGapBetweenTags(s)
    ensures JoinTags(s) == s
    decreases |s|
  {
    if s != [] {
      CollapsedSlice(s, 1, |s|);
      assert NoGapBetweenTags(s[1..]) by {
        forall i | 0 <= i < |s[1..]| - 2
          ensures !(s[1..][i] == '>' && s[1..][i + 1] == ' ' && s[1..][i + 2] == '<')
        {
          assert s[1..][i] == s[i + 1] && s[1..][i + 1] == s[i + 2] && s[1..][i + 2] == s[i + 3];
        }
      }
      JoinTagsKeeps(s[1..]);
      var j := SkipSpaces(s, 1);
      if s[0] == '>' && j > 1 {
        assert s[1] == ' ';
        assert j == 2 by { assert |s| == 2 || !IsSpace(s[2]); }
        assert |s| > 2 ==> s[2] != '<';
      }
      assert s == [s[0]] + s[1..];
    }
  }

  lemma NoGapSlice(s: String, a: nat, b: nat)
    requires NoGapBetweenTags(s) && a <= b <= |s|
    ensures NoGapBetweenTags(s[a..b])
  {
    forall i | 0 <= i < b - a - 2
      ensures !(s[a..b][i] == '>' && s[a..b][i + 1] == ' ' && s[a..b][i + 2] == '<')
    {
      assert s[a..b][i] == s[a + i] && s[a..b][i + 1] == s[a + i + 1] && s[a..b][i + 2] == s[a + i + 2];
    }
  }

  /**
   * `cleanHTML` / `cleanAndPreserveHTML`: whitespace runs become one space,
   * whitespace between a `>` and the next `<` disappears, and the ends are
   * trimmed.
   */
  function CleanHtml(html: String): (r: String)
    ensures Collapsed(r) && NoOuterSpace(r) && NoGapBetweenTags(r)
  {
    var c := CollapseSpaces(html);
    var g := JoinTags(c);
    JoinTagsCollapsed(c);
    var a := SkipSpaces(g, 0);
    var b := TrimEndFrom(g, a, |g|);
    CollapsedSlice(g, a, b);
    NoGapSlice(g, a, b);
    Trim(g)
  }

  /** Cleaning HTML a second time changes nothing. */
  lemma CleanHtmlIdempotent(html: String)
    ensures CleanHtml(CleanHtml(html)) == CleanHtml(html)
  {
    var t := CleanHtml(html);
    CollapseKeeps(t);
    JoinTagsKeeps(t);
    TrimKeeps(t);
  }

  // ---------------------------------------------------------------------
  // Escaping

  /** `replace(new RegExp(c, 'g'), rep)` for a single character `c`. */
  function ReplaceChar(s: String, c: char, rep: String): (r: String)
    ensures c !in s ==> r == s
    decreases |s|
  {
    if s == [] then [] else (if s[0] == c then rep else [s[0]]) + ReplaceChar(s[1..], c, rep)
  }

  lemma {:induction false} ReplaceCharAppend(a: String, b: String, c: char, rep: String)
    ensures ReplaceChar(a + b, c, rep) == ReplaceChar(a, c, rep) + ReplaceChar(b, c, rep)
    decreases |a|
  {
    if a == [] {
      assert a + b == b;
    } else {
      assert (a + b)[0] == a[0];
      assert (a + b)[1..] == a[1..] + b;
      ReplaceCharAppend(a[1..], b, c, rep);
    }
  }

  /**
   * `escapeHTML`: `&`, `<`, `>`, `"` and `'` are replaced, in that order, by
   * their entities.
   */
  function EscapeHtml(s: String): String {
    ReplaceChar(ReplaceChar(ReplaceChar(ReplaceChar(ReplaceChar(
      s, '&', "&amp;"), '<', "&lt;"), '>', "&gt;"), '"', "&quot;"), '\'', "&#39;")
  }

  /** The entity each special character turns into. */
  function EscapeChar(c: char): String {
    if c == '&' then "&amp;"
    else if c == '<' then "&lt;"
    else if c == '>' then "&gt;"
    else if c == '"' then "&quot;"
    else if c == '\'' then "&#39;"
    else [c]
  }

  /** Reference definition: every character escaped on its own. */
  function EscapeEach(s: String): String
    decreases |s|
  {
    if s == [] then [] else EscapeChar(s[0]) + EscapeEach(s[1..])
  }

  /** Reverses `EscapeEach`: each of the five entities becomes its character again. */
  function Unescape(s: String): String
    decreases |s|
  {
    if s == [] then []
    else if StartsWith(s, "&amp;") then ['&'] + Unescape(s[5..])
    else if StartsWith(s, "&lt;") then ['<'] + Unescape(s[4..])
    else if StartsWith(s, "&gt;") then ['>'] + Unescape(s[4..])
    else if StartsWith(s, "&quot;") then ['"'] + Unescape(s[6..])
    else if StartsWith(s, "&#39;") then ['\''] + Unescape(s[5..])
    else [s[0]] + Unescape(s[1..])
  }

  lemma ReplaceCharSingle(c: char, x: char, rep: String)
    ensures ReplaceChar([c], x, rep) == if c == x then rep else [c]
  {
    assert [c][1..] == [];
  }

  lemma EscapeCharSteps(c: char)
    ensures EscapeHtml([c]) == EscapeChar(c)
  {
    ReplaceCharSingle(c, '&', "&amp;");
    var s1 := ReplaceChar([c], '&', "&amp;");
    if c == '&' {
      assert '<' !in s1 && '>' !in s1 && '"' !in s1 && '\'' !in s1;
    } else {
      ReplaceCharSingle(c, '<', "&lt;");
      var s2 := ReplaceChar(s1, '<', "&lt;");
      if c == '<' {
        assert '>' !in s2 && '"' !in s2 && '\'' !in s2;
      } else {
        ReplaceCharSingle(c, '>', "&gt;");
        var s3 := ReplaceChar(s2, '>', "&gt;");
        if c == '>' {
          assert '"' !in s3 && '\'' !in s3;
        } else {
          ReplaceCharSingle(c, '"', "&quot;");
          var s4 := ReplaceChar(s3, '"', "&quot;");
          if c == '"' {
            assert '\'' !in s4;
          } else {
            ReplaceCharSingle(c, '\'', "&#39;");
          }
        }
      }
    }
  }

  lemma EscapeHtmlAppend(a: String, b: String)
    ensures EscapeHtml(a + b) == EscapeHtml(a) + EscapeHtml(b)
  {
    var s1a, s1b := ReplaceChar(a, '&', "&amp;"), ReplaceChar(b, '&', "&amp;");
    ReplaceCharAppend(a, b, '&', "&amp;");
    var s2a, s2b := ReplaceChar(s1a, '<', "&lt;"), ReplaceChar(s1b, '<', "&lt;");
    ReplaceCharAppend(s1a, s1b, '<', "&lt;");
    var s3a, s3b := ReplaceChar(s2a, '>', "&gt;"), ReplaceChar(s2b, '>', "&gt;");
    ReplaceCharAppend(s2a, s2b, '>', "&gt;");
    var s4a, s4b := ReplaceChar(s3a, '"', "&quot;"), ReplaceChar(s3b, '"', "&quot;");
    ReplaceCharAppend(s3a, s3b, '"', "&quot;");
    ReplaceCharAppend(s4a, s4b, '\'', "&#39;");
  }

  /**
   * Escaping in five passes equals escaping each character once: the
   * entities an early pass introduces are never escaped again.
   */
  lemma {:induction false} EscapeHtmlIsPerCharacter(s: String)
    ensures EscapeHtml(s) == EscapeEach(s)
    decreases |s|
  {
    if s == [] {
    } else {
      assert s == [s[0]] + s[1..];
      EscapeHtmlAppend([s[0]], s[1..]);
      EscapeCharSteps(s[0]);
      EscapeHtmlIsPerCharacter(s[1..]);
    }
  }

  lemma UnescapeStep(c: char, t: String)
    ensures Unescape(EscapeChar(c) + t) == [c] + Unescape(t)
  {
    var e := EscapeChar(c) + t;
    if c == '&' {
      assert StartsWith(e, "&amp;") && e[5..] == t;
    } else if c == '<' {
      assert e[1] == 'l';
      assert !StartsWith(e, "&amp;");
      assert StartsWith(e, "&lt;") && e[4..] == t;
    } else if c == '>' {
      assert e[1] == 'g';
      assert !StartsWith(e, "&amp;") && !StartsWith(e, "&lt;");
      assert StartsWith(e, "&gt;") && e[4..] == t;
    } else if c == '"' {
      assert e[1] == 'q';
      assert !StartsWith(e, "&amp;") && !StartsWith(e, "&lt;") && !StartsWith(e, "&gt;");
      assert StartsWith(e, "&quot;") && e[6..] == t;
    } else if c == '\'' {
      assert e[1] == '#';
      assert !StartsWith(e, "&amp;") && !StartsWith(e, "&lt;") && !StartsWith(e, "&gt;");
      assert !StartsWith(e, "&quot;");
      assert StartsWith(e, "&#39;") && e[5..] == t;
    } else {
      assert e[0] == c && e[1..] == t;
      assert !StartsWith(e, "&amp;") && !StartsWith(e, "&lt;") && !StartsWith(e, "&gt;");
      assert !StartsWith(e, "&quot;") && !StartsWith(e, "&#39;");
    }
  }

  /** Unescaping an escaped text gives the text back. */
  lemma {:induction false} UnescapeEscaped(s: String)
    ensures Unescape(EscapeEach(s)) == s
    decreases |s|
  {
    if s != [] {
      UnescapeEscaped(s[1..]);
      UnescapeStep(s[0], EscapeEach(s[1..]));
      assert s == [s[0]] + s[1..];
    }
  }

  /** The escaped text contains none of `<`, `>`, `"` or `'`. */
  lemma {:induction false} EscapedHasNoSpecials(s: String)
    ensures var e := EscapeHtml(s); '<' !in e && '>' !in e && '"' !in e && '\'' !in e
    decreases |s|
  {
    EscapeHtmlIsPerCharacter(s);
    EachHasNoSpecials(s);
  }

  lemma {:induction false} EachHasNoSpecials(s: String)
    ensures var e := EscapeEach(s); '<' !in e && '>' !in e && '"' !in e && '\'' !in e
    decreases |s|
  {
    if s != [] {
      EachHasNoSpecials(s[1..]);
      var e := EscapeChar(s[0]);
      assert '<' !in e && '>' !in e && '"' !in e && '\'' !in e;
      assert EscapeEach(s) == e + EscapeEach(s[1..]);
    }
  }

  /** A JavaScript value handed to the converters' `escapeHTML`. */
  datatype JsValue = JsString(text: String) | NonString

  /** `escapeHTML` of the PDF converters: anything but a string escapes to `''`. */
  function EscapeValue(v: JsValue): (r: String)
    ensures v.NonString? ==> r == []
    ensures v.JsString? ==> Unescape(r) == v.text
  {
    match v
    case NonString => []
    case JsString(t) => EscapeHtmlIsPerCharacter(t); UnescapeEscaped(t); EscapeHtml(t)
  }
}
