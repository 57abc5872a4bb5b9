/**
 * `validateImageUrls` of the exam service: every image URL is completed to
 * an absolute one, an image URL already used by an earlier question is
 * dropped (two reference diagrams excepted, in section-one question
 * images), and a multiple-choice question left without options gets five
 * placeholder options.
 */
module AnthropicValidation {
  import opened Wrappers
  import opened JsText

  // ---------------------------------------------------------------------
  // fixUrl

  /**
   * `fixUrl`: an empty URL is dropped, a protocol-relative one gets
   * `https:`, one not starting with `http` is taken to be relative to the
   * image CDN, and an absolute one is passed through `decode`
   * (`decodeURIComponent`).
   */
  function FixUrl(url: String, decode: String -> String): (r: Option<String>)
    ensures r.None? <==> url == []
    ensures r.Some? && !StartsWith(url, "http") ==> StartsWith(r.value, "https:") && EndsWith(r.value, url)
    ensures StartsWith(url, "//") ==> r == Some("https:" + url)
    ensures url != [] && !StartsWith(url, "//") && !StartsWith(url, "http") ==> r == Some("https://cdn.mathpix.com/" + url)
    ensures StartsWith(url, "http") ==> r == Some(decode(url))
  {
    if url == [] then None
    else if StartsWith(url, "//") then
      assert url[0] == url[..2][0] == '/';
      Joined("https:", url);
      Some("https:" + url)
    else if !StartsWith(url, "http") then
      Joined("https://cdn.mathpix.com/", url);
      assert ("https://cdn.mathpix.com/" + url)[..6] == "https:";
      Some("https://cdn.mathpix.com/" + url)
    else Some(decode(url))
  }

  lemma Joined(a: String, b: String)
    ensures StartsWith(a + b, a) && EndsWith(a + b, b)
  {
    assert (a + b)[..|a|] == a;
    assert (a + b)[|a|..] == b;
  }

  /** `urls.map(fixUrl).filter(Boolean)`: the fixed URLs that are neither null nor empty. */
  function FixUrls(urls: seq<String>, decode: String -> String): (r: seq<String>)
    ensures |r| <= |urls|
    ensures forall k :: 0 <= k < |r| ==> r[k] != []
  {
    if urls == [] then []
    else
      var fixed := FixUrl(urls[|urls| - 1], decode);
      FixUrls(urls[..|urls| - 1], decode) + (if fixed.Some? && fixed.value != [] then [fixed.value] else [])
  }

  lemma {:induction false} FixUrlsFrom(urls: seq<String>, decode: String -> String)
    ensures forall u | u in FixUrls(urls, decode) :: exists k :: 0 <= k < |urls| && FixUrl(urls[k], decode) == Some(u)
    ensures forall k | 0 <= k < |urls| && FixUrl(urls[k], decode).Some? && FixUrl(urls[k], decode).value != [] ::
      FixUrl(urls[k], decode).value in FixUrls(urls, decode)
  {
    if urls != [] {
      var init := urls[..|urls| - 1];
      FixUrlsFrom(init, decode);
      forall u | u in FixUrls(urls, decode)
        ensures exists k :: 0 <= k < |urls| && FixUrl(urls[k], decode) == Some(u)
      {
        if u in FixUrls(init, decode) {
          var k :| 0 <= k < |init| && FixUrl(init[k], decode) == Some(u);
          assert urls[k] == init[k];
        } else {
          assert FixUrl(urls[|urls| - 1], decode) == Some(u);
        }
      }
      forall k | 0 <= k < |urls| && FixUrl(urls[k], decode).Some? && FixUrl(urls[k], decode).value != []
        ensures FixUrl(urls[k], decode).value in FixUrls(urls, decode)
      {
        if k < |init| {
          assert urls[k] == init[k];
        }
      }
    }
  }

  // ---------------------------------------------------------------------
  // De-duplication against the shared `usedImageUrls` set

  /** The two reference images that may repeat: the main diagram and the header formulas. */
  predicate IsReference(url: String) {
    Contains(url, "height=1546") || Contains(url, "top_left_y=999")
  }

  /**
   * Whether `url` survives once `used` has been seen. Reference images are
   * exempt only where the source exempts them: in section-one question images.
   */
  predicate Keeps(url: String, used: set<String>, exemptReferences: bool) {
    url !in used || (exemptReferences && IsReference(url))
  }

  /** The URLs a list keeps, and the used set after it. */
  datatype Dedup = Dedup(kept: seq<String>, used: set<String>)

  /** The set after `url` is read: a kept URL is recorded unless it is an exempt reference image. */
  function Record(used: set<String>, url: String, exemptReferences: bool): set<String> {
    if Keeps(url, used, exemptReferences) && !(exemptReferences && IsReference(url)) then used + {url} else used
  }

  /** The `forEach` that keeps the URLs not used before. */
  function Dedupe(urls: seq<String>, used: set<String>, exemptReferences: bool): (r: Dedup)
    ensures |r.kept| <= |urls|
  {
    if urls == [] then Dedup([], used)
    else
      var r := Dedupe(urls[..|urls| - 1], used, exemptReferences);
      var url := urls[|urls| - 1];
      Dedup(r.kept + (if Keeps(url, r.used, exemptReferences) then [url] else []), Record(r.used, url, exemptReferences))
  }

  /** The de-duplication loop over one image list. */
  method DedupeImages(urls: seq<String>, used: set<String>, exemptReferences: bool)
    returns (kept: seq<String>, usedAfter: set<String>)
    ensures Dedup(kept, usedAfter) == Dedupe(urls, used, exemptReferences)
  {
    kept, usedAfter := [], used;
    for i := 0 to |urls|
      invariant Dedup(kept, usedAfter) == Dedupe(urls[..i], used, exemptReferences)
    {
      assert urls[..i + 1][..i] == urls[..i];
      var imgUrl := urls[i];
      var isReferenceImage := IsReference(imgUrl);
      if exemptReferences {
        if imgUrl !in usedAfter || isReferenceImage {
          if !isReferenceImage {
            usedAfter := usedAfter + {imgUrl};
          }
          kept := kept + [imgUrl];
        }
      } else if imgUrl !in usedAfter {
        usedAfter := usedAfter + {imgUrl};
        kept := kept + [imgUrl];
      }
    }
    assert urls[..|urls|] == urls;
  }

  /**
   * What the de-duplication keeps true of all images kept so far (`out`):
   * the used set holds only kept URLs and every kept non-reference URL,
   * and a URL kept twice is a reference image.
   */
  predicate Unique(out: seq<String>, used: set<String>) {
    (forall u | u in used :: u in out)
    && (forall k | 0 <= k < |out| && !IsReference(out[k]) :: out[k] in used)
    && (forall i, j | 0 <= i < j < |out| && out[i] == out[j] :: IsReference(out[i]))
  }

  lemma RecordUnique(out: seq<String>, used: set<String>, url: String, exemptReferences: bool)
    requires Unique(out, used)
    ensures Unique(out + (if Keeps(url, used, exemptReferences) then [url] else []), Record(used, url, exemptReferences))
    ensures url in out + (if Keeps(url, used, exemptReferences) then [url] else [])
  {
    if Keeps(url, used, exemptReferences) {
      var out' := out + [url];
      forall i, j | 0 <= i < j < |out'| && out'[i] == out'[j]
        ensures IsReference(out'[i])
      {
        if j == |out| {
          assert out[i] == url;
        }
      }
    }
  }

  /**
   * A list's de-duplication keeps the invariant; every URL of the list ends
   * up kept, now or before, and only URLs of the list are kept.
   */
  lemma {:induction false} DedupeUnique(out: seq<String>, urls: seq<String>, used: set<String>, exemptReferences: bool)
    requires Unique(out, used)
    ensures var r := Dedupe(urls, used, exemptReferences);
      Unique(out + r.kept, r.used)
      && (forall u | u in urls :: u in out + r.kept)
      && (forall u | u in r.kept :: u in urls)
  {
    var r := Dedupe(urls, used, exemptReferences);
    if urls == [] {
      assert out + r.kept == out;
    } else {
      var init := urls[..|urls| - 1];
      var url := urls[|urls| - 1];
      var p := Dedupe(init, used, exemptReferences);
      DedupeUnique(out, init, used, exemptReferences);
      var added := if Keeps(url, p.used, exemptReferences) then [url] else [];
      assert r.kept == p.kept + added && r.used == Record(p.used, url, exemptReferences);
      assert out + r.kept == (out + p.kept) + added by {
        AppendAssoc(out, p.kept, added);
      }
      RecordUnique(out + p.kept, p.used, url, exemptReferences);
      forall u | u in urls ensures u in out + r.kept {
        assert urls == init + [url];
        if u != url {
          assert u in init;
        }
      }
      forall u | u in r.kept ensures u in urls {
        assert u in p.kept || u == url;
        assert forall v :: v in init ==> v in urls;
      }
    }
  }

  // ---------------------------------------------------------------------
  // Placeholder options

  /** A section-one question as the enhancement step hands it over; a missing list is `None`. */
  datatype Item1 = Item1(
    questionNumber: int, question: String, kind: String, options: Option<seq<String>>,
    questionImages: Option<seq<String>>, optionImages: Option<seq<String>>)

  predicate HasOptions(q: Item1) { q.options.Some? && |q.options.value| > 0 }

  const GraphOptions: seq<String> := ["A. Graph A", "B. Graph B", "C. Graph C", "D. Graph D", "E. Graph E"]

  const SeeImageOptions: seq<String> := [
    "A. Option A (see image)", "B. Option B (see image)", "C. Option C (see image)",
    "D. Option D (see image)", "E. Option E (see image)"]

  const NotExtractedOptions: seq<String> := [
    "A. [Option not extracted]", "B. [Option not extracted]", "C. [Option not extracted]",
    "D. [Option not extracted]", "E. [Option not extracted]"]

  const ImageLinkStart: String := "![](https://"

  /** `/!\[\]\(https:\/\/[^)]+\)/` anchored at `p`: the end of the match. */
  function ImageLinkAt(s: String, p: nat): (r: Option<nat>)
    requires p <= |s|
    ensures r.Some? ==> p + |ImageLinkStart| + 2 <= r.value <= |s|
  {
    if !OccursAt(s, ImageLinkStart, p) then None
    else match Find(s, ")", p + |ImageLinkStart|)
      case Some(e) => if e > p + |ImageLinkStart| then Some(e + 1) else None
      case None => None
  }

  /** The number of matches of the global image-link pattern from `from` on. */
  function CountImageLinks(s: String, from: nat): (r: nat)
    requires from <= |s|
    ensures r * (|ImageLinkStart| + 2) <= |s| - from
    decreases |s| - from
  {
    if from == |s| then 0
    else match ImageLinkAt(s, from)
      case Some(e) => 1 + CountImageLinks(s, e)
      case None => CountImageLinks(s, from + 1)
  }

  /**
   * The option fixes: question 13 without options becomes an image-based
   * question when its text embeds at least four images and otherwise gets
   * "see image" placeholders; any other multiple-choice question without
   * options gets "not extracted" placeholders. Questions with options are
   * untouched, and nothing but the options and the kind ever changes.
   */
  function FixOptions(q: Item1): (r: Item1)
    ensures r.questionNumber == q.questionNumber && r.question == q.question
    ensures r.questionImages == q.questionImages && r.optionImages == q.optionImages
    ensures HasOptions(q) ==> r == q
    ensures !HasOptions(q) && (q.questionNumber == 13 || q.kind == "multiple_choice") ==> r.options.Some? && |r.options.value| == 5
    ensures !HasOptions(q) && q.questionNumber != 13 && q.kind != "multiple_choice" ==> r == q
    ensures !HasOptions(q) && q.questionNumber == 13 ==>
      (CountImageLinks(q.question, 0) >= 4 <==> r.kind == "image_based_multiple_choice" && r.options == Some(GraphOptions))
  {
    var q13 :=
      if q.questionNumber == 13 && !HasOptions(q) then
        if CountImageLinks(q.question, 0) >= 4 then q.(options := Some(GraphOptions), kind := "image_based_multiple_choice")
        else q.(options := Some(SeeImageOptions))
      else q;
    if q13.kind == "multiple_choice" && !HasOptions(q13) then q13.(options := Some(NotExtractedOptions)) else q13
  }

  // ---------------------------------------------------------------------
  // The whole pass

  /** A section-two question; only its images take part (its template rewriting is not modelled). */
  datatype Item2 = Item2(subQuestionNumber: int, questionImages: Option<seq<String>>)

  datatype Exam = Exam(section1: Option<seq<Item1>>, section2: Option<seq<Item2>>)

  /** The images of a list that may be missing. */
  function ListOf(images: Option<seq<String>>): seq<String> {
    if images.Some? then images.value else []
  }

  /** An image list, fixed and de-duplicated; a missing list stays missing. */
  datatype FixedList = FixedList(images: Option<seq<String>>, used: set<String>)

  function FixList(images: Option<seq<String>>, used: set<String>, exemptReferences: bool, decode: String -> String): FixedList {
    if images.None? then FixedList(None, used)
    else
      var r := Dedupe(FixUrls(images.value, decode), used, exemptReferences);
      FixedList(Some(r.kept), r.used)
  }

  datatype Fixed1 = Fixed1(items: seq<Item1>, used: set<String>)

  /** One section-one question: its question images, then its option images, then its options. */
  function FixItem1(q: Item1, used: set<String>, decode: String -> String): Fixed1 {
    var qi := FixList(q.questionImages, used, true, decode);
    var oi := FixList(q.optionImages, qi.used, false, decode);
    Fixed1([FixOptions(q.(questionImages := qi.images, optionImages := oi.images))], oi.used)
  }

  /** The section-one `forEach`. */
  function FixSection1(qs: seq<Item1>, used: set<String>, decode: String -> String): (r: Fixed1)
    ensures |r.items| == |qs|
  {
    if qs == [] then Fixed1([], used)
    else
      var r := FixSection1(qs[..|qs| - 1], used, decode);
      var f := FixItem1(qs[|qs| - 1], r.used, decode);
      Fixed1(r.items + f.items, f.used)
  }

  datatype Fixed2 = Fixed2(items: seq<Item2>, used: set<String>)

  /** The section-two `forEach`: question images only, with no reference exemption. */
  function FixSection2(qs: seq<Item2>, used: set<String>, decode: String -> String): (r: Fixed2)
    ensures |r.items| == |qs|
  {
    if qs == [] then Fixed2([], used)
    else
      var r := FixSection2(qs[..|qs| - 1], used, decode);
      var q := qs[|qs| - 1];
      var f := FixList(q.questionImages, r.used, false, decode);
      Fixed2(r.items + [q.(questionImages := f.images)], f.used)
  }

  /** `validateImageUrls(questions)`: section one first, then section two, sharing one used set. */
  function ValidateImages(exam: Exam, decode: String -> String): Exam {
    var s1 := FixSection1(Items1(exam.section1), {}, decode);
    var s2 := FixSection2(Items2(exam.section2), s1.used, decode);
    Exam(if exam.section1.Some? then Some(s1.items) else None, if exam.section2.Some? then Some(s2.items) else None)
  }

  /** The questions of a section that may be missing. */
  function Items1(section: Option<seq<Item1>>): seq<Item1> { if section.Some? then section.value else [] }

  function Items2(section: Option<seq<Item2>>): seq<Item2> { if section.Some? then section.value else [] }

  // ---------------------------------------------------------------------
  // The images of an exam, in the order the pass visits them

  function Images1(qs: seq<Item1>): seq<String> {
    if qs == [] then []
    else Images1(qs[..|qs| - 1]) + ListOf(qs[|qs| - 1].questionImages) + ListOf(qs[|qs| - 1].optionImages)
  }

  function Images2(qs: seq<Item2>): seq<String> {
    if qs == [] then [] else Images2(qs[..|qs| - 1]) + ListOf(qs[|qs| - 1].questionImages)
  }

  function ExamImages(exam: Exam): seq<String> {
    Images1(Items1(exam.section1)) + Images2(Items2(exam.section2))
  }

  /** The fixed form of every image URL of the input, in the same order. */
  function FixedImages1(qs: seq<Item1>, decode: String -> String): seq<String> {
    if qs == [] then []
    else
      FixedImages1(qs[..|qs| - 1], decode)
      + FixUrls(ListOf(qs[|qs| - 1].questionImages), decode) + FixUrls(ListOf(qs[|qs| - 1].optionImages), decode)
  }

  function FixedImages2(qs: seq<Item2>, decode: String -> String): seq<String> {
    if qs == [] then [] else FixedImages2(qs[..|qs| - 1], decode) + FixUrls(ListOf(qs[|qs| - 1].questionImages), decode)
  }

  function FixedExamImages(exam: Exam, decode: String -> String): seq<String> {
    FixedImages1(Items1(exam.section1), decode) + FixedImages2(Items2(exam.section2), decode)
  }

  /** What a pass over images keeps true: the invariant, nothing lost, nothing invented. */
  predicate Covers(out: seq<String>, used: set<String>, fixed: seq<String>, out': seq<String>, used': set<String>) {
    Unique(out + out', used')
    && (forall u | u in fixed :: u in out + out')
    && (forall u | u in out' :: u in fixed)
  }

  lemma FixListCovers(out: seq<String>, images: Option<seq<String>>, used: set<String>, exemptReferences: bool, decode: String -> String)
    requires Unique(out, used)
    ensures var f := FixList(images, used, exemptReferences, decode);
      Covers(out, used, FixUrls(ListOf(images), decode), ListOf(f.images), f.used)
  {
    if images.Some? {
      DedupeUnique(out, FixUrls(images.value, decode), used, exemptReferences);
    } else {
      assert out + [] == out;
    }
  }

  /** Two passes in a row compose. */
  lemma CoversAppend(out: seq<String>, used: set<String>, fixedA: seq<String>, a: seq<String>, usedA: set<String>,
      fixedB: seq<String>, b: seq<String>, usedB: set<String>)
    requires Covers(out, used, fixedA, a, usedA) && Covers(out + a, usedA, fixedB, b, usedB)
    ensures Covers(out, used, fixedA + fixedB, a + b, usedB)
  {
    AppendAssoc(out, a, b);
  }

  lemma FixItem1Covers(out: seq<String>, q: Item1, used: set<String>, decode: String -> String)
    requires Unique(out, used)
    ensures var f := FixItem1(q, used, decode);
      Covers(out, used, FixUrls(ListOf(q.questionImages), decode) + FixUrls(ListOf(q.optionImages), decode),
        ListOf(f.items[0].questionImages) + ListOf(f.items[0].optionImages), f.used)
  {
    var qi := FixList(q.questionImages, used, true, decode);
    var oi := FixList(q.optionImages, qi.used, false, decode);
    FixListCovers(out, q.questionImages, used, true, decode);
    FixListCovers(out + ListOf(qi.images), q.optionImages, qi.used, false, decode);
    CoversAppend(out, used, FixUrls(ListOf(q.questionImages), decode), ListOf(qi.images), qi.used,
      FixUrls(ListOf(q.optionImages), decode), ListOf(oi.images), oi.used);
  }

  lemma {:induction false} FixSection1Covers(out: seq<String>, qs: seq<Item1>, used: set<String>, decode: String -> String)
    requires Unique(out, used)
    ensures var r := FixSection1(qs, used, decode);
      Covers(out, used, FixedImages1(qs, decode), Images1(r.items), r.used)
  {
    var r := FixSection1(qs, used, decode);
    if qs == [] {
      assert out + [] == out;
    } else {
      var init, q := qs[..|qs| - 1], qs[|qs| - 1];
      var p := FixSection1(init, used, decode);
      FixSection1Covers(out, init, used, decode);
      FixItem1Covers(out + Images1(p.items), q, p.used, decode);
      var f := FixItem1(q, p.used, decode);
      CoversAppend(out, used, FixedImages1(init, decode), Images1(p.items), p.used,
        FixUrls(ListOf(q.questionImages), decode) + FixUrls(ListOf(q.optionImages), decode),
        ListOf(f.items[0].questionImages) + ListOf(f.items[0].optionImages), f.used);
      assert r.items[..|r.items| - 1] == p.items;
      AppendAssoc(FixedImages1(init, decode), FixUrls(ListOf(q.questionImages), decode), FixUrls(ListOf(q.optionImages), decode));
      AppendAssoc(Images1(p.items), ListOf(f.items[0].questionImages), ListOf(f.items[0].optionImages));
    }
  }

  lemma {:induction false} FixSection2Covers(out: seq<String>, qs: seq<Item2>, used: set<String>, decode: String -> String)
    requires Unique(out, used)
    ensures var r := FixSection2(qs, used, decode);
      Covers(out, used, FixedImages2(qs, decode), Images2(r.items), r.used)
  {
    var r := FixSection2(qs, used, decode);
    if qs == [] {
      assert out + [] == out;
    } else {
      var init, q := qs[..|qs| - 1], qs[|qs| - 1];
      var p := FixSection2(init, used, decode);
      FixSection2Covers(out, init, used, decode);
      FixListCovers(out + Images2(p.items), q.questionImages, p.used, false, decode);
      var f := FixList(q.questionImages, p.used, false, decode);
      CoversAppend(out, used, FixedImages2(init, decode), Images2(p.items), p.used,
        FixUrls(ListOf(q.questionImages), decode), ListOf(f.images), f.used);
      assert r.items[..|r.items| - 1] == p.items;
    }
  }

  /**
   * After `validateImageUrls`, a URL that is not a reference image appears
   * at most once among all image lists of the exam; every fixed image URL
   * of the input is still present somewhere (its first occurrence
   * survives), and no other URL is.
   */
  lemma ValidateImagesUnique(exam: Exam, decode: String -> String)
    ensures var images := ExamImages(ValidateImages(exam, decode));
      forall i, j | 0 <= i < j < |images| && images[i] == images[j] :: IsReference(images[i])
    ensures forall u | u in FixedExamImages(exam, decode) :: u in ExamImages(ValidateImages(exam, decode))
    ensures forall u | u in ExamImages(ValidateImages(exam, decode)) :: u in FixedExamImages(exam, decode)
  {
    var qs1, qs2 := Items1(exam.section1), Items2(exam.section2);
    var s1 := FixSection1(qs1, {}, decode);
    var s2 := FixSection2(qs2, s1.used, decode);
    var out := ValidateImages(exam, decode);
    assert Items1(out.section1) == s1.items && Items2(out.section2) == s2.items;
    assert Unique([], {});
    FixSection1Covers([], qs1, {}, decode);
    assert [] + Images1(s1.items) == Images1(s1.items);
    FixSection2Covers(Images1(s1.items), qs2, s1.used, decode);
    CoversAppend([], {}, FixedImages1(qs1, decode), Images1(s1.items), s1.used, FixedImages2(qs2, decode), Images2(s2.items), s2.used);
    assert [] + ExamImages(out) == ExamImages(out);
  }

  /** The placeholder fixes leave every section-one question with options when it is multiple choice or question 13. */
  lemma ValidateOptions(exam: Exam, decode: String -> String)
    requires exam.section1.Some?
    ensures var out := ValidateImages(exam, decode).section1.value;
      |out| == |exam.section1.value|
      && forall k | 0 <= k < |out| :: var q := exam.section1.value[k];
        out[k].questionNumber == q.questionNumber && out[k].question == q.question
        && (HasOptions(q) ==> out[k].options == q.options && out[k].kind == q.kind)
        && (!HasOptions(q) && (q.questionNumber == 13 || q.kind == "multiple_choice") ==>
          out[k].options.Some? && |out[k].options.value| == 5)
  {
    FixSection1Options(exam.section1.value, {}, decode);
  }

  lemma {:induction false} FixSection1Options(qs: seq<Item1>, used: set<String>, decode: String -> String)
    ensures var out := FixSection1(qs, used, decode).items;
      forall k | 0 <= k < |out| ::
        out[k].questionNumber == qs[k].questionNumber && out[k].question == qs[k].question
        && (HasOptions(qs[k]) ==> out[k].options == qs[k].options && out[k].kind == qs[k].kind)
        && (!HasOptions(qs[k]) && (qs[k].questionNumber == 13 || qs[k].kind == "multiple_choice") ==>
          out[k].options.Some? && |out[k].options.value| == 5)
  {
    if qs != [] {
      var init := qs[..|qs| - 1];
      FixSection1Options(init, used, decode);
      var r := FixSection1(init, used, decode);
      var out := FixSection1(qs, used, decode).items;
      forall k | 0 <= k < |out|
        ensures out[k].questionNumber == qs[k].questionNumber && out[k].question == qs[k].question
        && (HasOptions(qs[k]) ==> out[k].options == qs[k].options && out[k].kind == qs[k].kind)
        && (!HasOptions(qs[k]) && (qs[k].questionNumber == 13 || qs[k].kind == "multiple_choice") ==>
          out[k].options.Some? && |out[k].options.value| == 5)
      {
        if k < |init| {
          assert out[k] == r.items[k] && qs[k] == init[k];
        }
      }
    }
  }

  // ---------------------------------------------------------------------
  // The imperative pass

  /** One section-one question of the `forEach`. */
  method FixQuestion1(q: Item1, used: set<String>, decode: String -> String) returns (fixed: Item1, usedAfter: set<String>)
    ensures Fixed1([fixed], usedAfter) == FixItem1(q, used, decode)
  {
    fixed, usedAfter := q, used;
    if q.questionImages.Some? {
      var uniqueImages;
      uniqueImages, usedAfter := DedupeImages(FixUrls(q.questionImages.value, decode), usedAfter, true);
      fixed := fixed.(questionImages := Some(uniqueImages));
    }
    if q.optionImages.Some? {
      var uniqueOptionImages;
      uniqueOptionImages, usedAfter := DedupeImages(FixUrls(q.optionImages.value, decode), usedAfter, false);
      fixed := fixed.(optionImages := Some(uniqueOptionImages));
    }
    if fixed.questionNumber == 13 && !HasOptions(fixed) {
      if CountImageLinks(fixed.question, 0) >= 4 {
        fixed := fixed.(options := Some(GraphOptions), kind := "image_based_multiple_choice");
      } else {
        fixed := fixed.(options := Some(SeeImageOptions));
      }
    }
    if fixed.kind == "multiple_choice" && !HasOptions(fixed) {
      fixed := fixed.(options := Some(NotExtractedOptions));
    }
  }

  /** `validateImageUrls(questions)`, with `decode` for `decodeURIComponent`. */
  method ValidateImageUrls(questions: Exam, decode: String -> String) returns (fixed: Exam)
    ensures fixed == ValidateImages(questions, decode)
  {
    var usedImageUrls: set<String> := {};
    fixed := questions;
    assert FixSection1([], {}, decode).used == {};
    if questions.section1.Some? {
      var qs := questions.section1.value;
      var items: seq<Item1> := [];
      for index := 0 to |qs|
        invariant Fixed1(items, usedImageUrls) == FixSection1(qs[..index], {}, decode)
      {
        assert qs[..index + 1][..index] == qs[..index];
        var q, usedAfter := FixQuestion1(qs[index], usedImageUrls, decode);
        items, usedImageUrls := items + [q], usedAfter;
      }
      assert qs[..|qs|] == qs;
      fixed := fixed.(section1 := Some(items));
    }
    assert usedImageUrls == FixSection1(Items1(questions.section1), {}, decode).used;
    if questions.section2.Some? {
      var qs := questions.section2.value;
      ghost var start := usedImageUrls;
      var items: seq<Item2> := [];
      for index := 0 to |qs|
        invariant Fixed2(items, usedImageUrls) == FixSection2(qs[..index], start, decode)
      {
        assert qs[..index + 1][..index] == qs[..index];
        var q := qs[index];
        if q.questionImages.Some? {
          var uniqueImages;
          uniqueImages, usedImageUrls := DedupeImages(FixUrls(q.questionImages.value, decode), usedImageUrls, false);
          q := q.(questionImages := Some(uniqueImages));
        }
        items := items + [q];
      }
      assert qs[..|qs|] == qs;
      fixed := fixed.(section2 := Some(items));
    }
  }
}
