/**
 * Node's POSIX `path.extname`, as the converters use it to pick a file's
 * type: the text from the last dot of the last path component, unless that
 * dot starts the component or the component is `..`.
 */
module NodePath {
  import opened Wrappers
  import opened JsText

  /** Where the path ends once trailing slashes are ignored. */
  function PathEnd(p: String, n: nat): (e: nat)
    requires n <= |p|
    ensures e <= n && forall k :: e <= k < n ==> p[k] == '/'
    ensures e == 0 || p[e - 1] != '/'
  {
    if n > 0 && p[n - 1] == '/' then PathEnd(p, n - 1) else n
  }

  /** Where the last component, ending at `e`, starts. */
  function ComponentStart(p: String, e: nat): (s: nat)
    requires e <= |p|
    ensures s <= e && forall k :: s <= k < e ==> p[k] != '/'
    ensures s == 0 || p[s - 1] == '/'
  {
    if e > 0 && p[e - 1] != '/' then ComponentStart(p, e - 1) else e
  }

  /** The last component, trailing slashes ignored. */
  function Base(p: String): (b: String)
    ensures '/' !in b
  {
    var e := PathEnd(p, |p|);
    p[ComponentStart(p, e)..e]
  }

  /** The position of the last `c` in `s`, if any. */
  function LastIndex(s: String, c: char, n: nat): (r: Option<nat>)
    requires n <= |s|
    ensures r.Some? ==> r.value < n && s[r.value] == c && forall k :: r.value < k < n ==> s[k] != c
    ensures r.None? ==> forall k :: 0 <= k < n ==> s[k] != c
  {
    if n == 0 then None else if s[n - 1] == c then Some(n - 1) else LastIndex(s, c, n - 1)
  }

  /** `path.extname`. */
  function Extname(p: String): (ext: String)
    ensures ext == [] || (ext[0] == '.' && '/' !in ext)
    ensures ext != [] ==> EndsWith(Base(p), ext) && '.' !in ext[1..] && |ext| < |Base(p)|
  {
    var b := Base(p);
    match LastIndex(b, '.', |b|)
    case None => []
    case Some(d) => if d == 0 || b == ".." then [] else b[d..]
  }

  /** A plain file name with one extension: the extension is the dot and what follows it. */
  lemma ExtnameOfName(name: String, ext: String)
    requires name != [] && '/' !in name && '.' !in name && '/' !in ext && '.' !in ext
    ensures Extname(name + "." + ext) == "." + ext
  {
    var p := name + "." + ext;
    assert PathEnd(p, |p|) == |p| by {
      if ext == [] { assert p[|p| - 1] == '.'; } else { assert p[|p| - 1] == ext[|ext| - 1]; }
    }
    assert ComponentStart(p, |p|) == 0 by {
      ComponentStartAll(p, |p|);
    }
    assert Base(p) == p;
    var d := |name|;
    assert p[d] == '.';
    assert forall k :: d < k < |p| ==> p[k] == ext[k - d - 1];
    assert LastIndex(p, '.', |p|) == Some(d);
    assert p != "..";
    assert p[d..] == "." + ext;
  }

  lemma ComponentStartAll(p: String, e: nat)
    requires e <= |p| && '/' !in p[..e]
    ensures ComponentStart(p, e) == 0
  {
    if e > 0 {
      assert p[e - 1] == p[..e][e - 1];
      assert p[..e - 1] == p[..e][..e - 1];
      ComponentStartAll(p, e - 1);
    }
  }

  /** A dot that starts the last component is not an extension: `.bashrc` has none. */
  lemma HiddenFileHasNoExtension(name: String)
    requires '/' !in name && '.' !in name
    ensures Extname("." + name) == []
  {
    var p := "." + name;
    if name != [] {
      assert p[|p| - 1] == name[|name| - 1];
    }
    assert PathEnd(p, |p|) == |p|;
    ComponentStartAll(p, |p|);
    assert Base(p) == p;
    forall k | 0 < k < |p| ensures p[k] != '.' {
      assert p[k] == name[k - 1] && name[k - 1] in name;
    }
    assert p[0] == '.';
    assert LastIndex(p, '.', |p|) == Some(0);
  }
}
