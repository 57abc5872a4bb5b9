/**
 * The command-line entry point's two decisions: how `parseArgs` reads
 * `process.argv` into a file path and an options object, and which
 * converter `convert` hands the file to.
 */
module ConvertToHtml {
  import opened Wrappers
  import opened JsText
  import opened NodePath

  // ---------------------------------------------------------------------
  // Reading the arguments

  /** An option's value: `true` for a bare `--flag`, or the text after `=`. */
  datatype OptValue = Flag | Text(text: String)

  /** The `{ filePath, options }` pair `parseArgs` returns; `None` is `null`. */
  datatype Parsed = Parsed(filePath: Option<String>, options: map<String, OptValue>)

  /** `!filePath`: no path yet, or only the empty string. */
  predicate NoPath(p: Option<String>) { p.None? || p == Some([]) }

  /** One turn of the `parseArgs` loop. */
  function Apply(p: Parsed, arg: String): Parsed {
    if StartsWith(arg, "--") then
      var pieces := Split(arg[2..], '=');
      var value := if |pieces| >= 2 && pieces[1] != [] then Text(pieces[1]) else Flag;
      p.(options := p.options[pieces[0] := value])
    else if NoPath(p.filePath) then p.(filePath := Some(arg))
    else p
  }

  /** The loop run over `xs`, from no path and no options. */
  function Parse(xs: seq<String>): Parsed
    decreases |xs|
  {
    if xs == [] then Parsed(None, map[]) else Apply(Parse(xs[..|xs| - 1]), xs[|xs| - 1])
  }

  /** What `parseArgs(args)` returns: the loop starts at index 2. */
  function ParseOf(args: seq<String>): Parsed {
    if |args| <= 2 then Parsed(None, map[]) else Parse(args[2..])
  }

  /** `parseArgs`. */
  method ParseArgs(args: seq<String>) returns (filePath: Option<String>, options: map<String, OptValue>)
    ensures Parsed(filePath, options) == ParseOf(args)
  {
    options := map[];
    filePath := None;
    var i := 2;
    while i < |args|
      invariant 2 <= i <= |args| || (i == 2 && |args| <= 2)
      invariant |args| > 2 ==> Parsed(filePath, options) == Parse(args[2..i])
      invariant |args| <= 2 ==> filePath == None && options == map[]
      decreases |args| - i
    {
      var arg := args[i];
      assert args[2..i + 1][..i - 2] == args[2..i];
      if StartsWith(arg, "--") {
        var pieces := Split(arg[2..], '=');
        var key := pieces[0];
        if |pieces| >= 2 && pieces[1] != [] {
          options := options[key := Text(pieces[1])];
        } else {
          options := options[key := Flag];
        }
      } else if filePath.None? || filePath == Some([]) {
        filePath := Some(arg);
      }
      i := i + 1;
    }
    if |args| > 2 {
      assert args[2..i] == args[2..];
    }
  }

  /** The first two entries, the runtime and the script, are never read. */
  lemma FirstTwoIgnored(args: seq<String>, runtime: String, script: String)
    requires |args| >= 2
    ensures ParseOf([runtime, script] + args[2..]) == ParseOf(args)
  {
    var args' := [runtime, script] + args[2..];
    assert args'[2..] == args[2..];
  }

  /**
   * `--key=value`: the key is the text before the first `=`, and the value
   * the text between the first and the second `=`; an empty value stores
   * `true`.
   */
  lemma KeyValueOption(p: Parsed, key: String, value: String, rest: String)
    requires '=' !in key && '=' !in value && (rest == [] || rest[0] == '=')
    ensures Apply(p, "--" + key + "=" + value + rest).options
      == p.options[key := if value == [] then Flag else Text(value)]
  {
    var arg := "--" + key + "=" + value + rest;
    assert StartsWith(arg, "--");
    assert arg[2..] == key + "=" + (value + rest);
    KeyValuePieces(key, value, rest);
  }

  /** The pieces of `key=value…` split at `=`: the key, then the value. */
  lemma KeyValuePieces(key: String, value: String, rest: String)
    requires '=' !in key && '=' !in value && (rest == [] || rest[0] == '=')
    ensures |Split(key + "=" + (value + rest), '=')| >= 2
    ensures Split(key + "=" + (value + rest), '=')[0] == key
    ensures Split(key + "=" + (value + rest), '=')[1] == value
  {
    SplitAtSep(key, value + rest, '=');
    SplitNoSep(key, '=');
    if rest == [] {
      assert value + rest == value;
      SplitNoSep(value, '=');
    } else {
      assert value + rest == value + "=" + rest[1..];
      SplitAtSep(value, rest[1..], '=');
      SplitNoSep(value, '=');
    }
  }

  /** `--flag` with no `=` stores `true`. */
  lemma FlagOption(p: Parsed, key: String)
    requires '=' !in key
    ensures Apply(p, "--" + key).options == p.options[key := Flag]
  {
    var arg := "--" + key;
    assert StartsWith(arg, "--");
    assert arg[2..] == key;
    SplitNoSep(key, '=');
  }

  /** Once a non-empty path is read, later arguments leave it as it is. */
  lemma {:induction false} PathKept(xs: seq<String>, n: nat)
    requires n <= |xs| && !NoPath(Parse(xs[..n]).filePath)
    ensures Parse(xs).filePath == Parse(xs[..n]).filePath
    decreases |xs| - n
  {
    if n < |xs| {
      var init := xs[..|xs| - 1];
      assert init[..n] == xs[..n];
      PathKept(init, n);
    } else {
      assert xs[..n] == xs;
    }
  }

  /** Before the first non-empty path, the path is unset or empty. */
  lemma {:induction false} NoPathYet(xs: seq<String>)
    requires forall j :: 0 <= j < |xs| ==> StartsWith(xs[j], "--") || xs[j] == []
    ensures NoPath(Parse(xs).filePath)
    decreases |xs|
  {
    if xs != [] {
      NoPathYet(xs[..|xs| - 1]);
    }
  }

  /**
   * The path is the first argument that is neither an option nor empty:
   * whatever comes after it is ignored.
   */
  lemma FirstPathWins(xs: seq<String>, i: nat)
    requires i < |xs| && !StartsWith(xs[i], "--") && xs[i] != []
    requires forall j :: 0 <= j < i ==> StartsWith(xs[j], "--") || xs[j] == []
    ensures Parse(xs).filePath == Some(xs[i])
  {
    NoPathYet(xs[..i]);
    PathAt(xs, i);
    PathKept(xs, i + 1);
  }

  /** The argument at `i`, read with no path yet, is the path after it. */
  lemma PathAt(xs: seq<String>, i: nat)
    requires i < |xs| && !StartsWith(xs[i], "--")
    requires NoPath(Parse(xs[..i]).filePath)
    ensures Parse(xs[..i + 1]).filePath == Some(xs[i])
  {
    assert xs[..i + 1][..i] == xs[..i];
  }

  // ---------------------------------------------------------------------
  // Choosing the converter

  datatype Converter = SimpleTemplate | AdvancedExtraction

  /** What `convert` does: hand the file to a converter, or throw. */
  datatype Outcome = Runs(converter: Converter) | Fails(message: String)

  /** The extension, lowercased, as `convert` compares it. */
  function FileExt(path: String): (r: String)
    ensures |r| == |Extname(path)|
    ensures r == [] || (r[0] == '.' && '/' !in r && '.' !in r[1..])
  {
    var e := Extname(path);
    var r := Lower(e);
    forall k | 0 <= k < |e| ensures (r[k] == '.' <==> e[k] == '.') && (r[k] == '/' <==> e[k] == '/') {
      LowerKeepsPunctuation(e[k]);
    }
    r
  }

  /** Lowercasing neither makes nor removes a `.` or a `/`. */
  lemma LowerKeepsPunctuation(c: char)
    ensures (LowerChar(c) == '.' <==> c == '.') && (LowerChar(c) == '/' <==> c == '/')
  {
  }

  /** `convert(filePath, options)`, up to the call of the chosen converter. */
  function Convert(filePath: Option<String>, options: map<String, OptValue>): (r: Outcome)
    ensures r.Fails? <==> NoPath(filePath)
  {
    if NoPath(filePath) then Fails("File path is required")
    else
      var ext := FileExt(filePath.value);
      if "method" in options && options["method"] == Text("simple") then Runs(SimpleTemplate)
      else if "method" in options && options["method"] == Text("advanced") then Runs(AdvancedExtraction)
      else if ext == ".pdf" then Runs(SimpleTemplate)
      else if ext == ".doc" || ext == ".docx" then Runs(AdvancedExtraction)
      else Runs(SimpleTemplate)
  }

  /** An explicit `--method=simple` or `--method=advanced` wins over the extension. */
  lemma MethodOverrides(path: String, options: map<String, OptValue>)
    requires path != []
    ensures "method" in options && options["method"] == Text("simple") ==> Convert(Some(path), options) == Runs(SimpleTemplate)
    ensures "method" in options && options["method"] == Text("advanced") ==> Convert(Some(path), options) == Runs(AdvancedExtraction)
  {
  }

  lemma LowerDot(ext: String)
    ensures Lower("." + ext) == "." + Lower(ext)
  {
    assert forall i :: 0 < i < |ext| + 1 ==> ("." + ext)[i] == ext[i - 1];
  }

  /**
   * Without a method, the extension decides: Word documents go to the
   * advanced extraction, and everything else, PDF included, to the simple
   * template.
   */
  lemma ExtensionDecides(name: String, ext: String, options: map<String, OptValue>)
    requires name != [] && '/' !in name && '.' !in name && '/' !in ext && '.' !in ext
    requires "method" !in options || options["method"] !in {Text("simple"), Text("advanced")}
    ensures Convert(Some(name + "." + ext), options)
      == if Lower(ext) in {"doc", "docx"} then Runs(AdvancedExtraction) else Runs(SimpleTemplate)
  {
    var e := Lower(ext);
    assert FileExt(name + "." + ext) == "." + e by {
      ExtnameOfName(name, ext);
      LowerDot(ext);
    }
    ChosenByExtension(name + "." + ext, e, options);
  }

  lemma ChosenByExtension(path: String, e: String, options: map<String, OptValue>)
    requires path != [] && FileExt(path) == "." + e
    requires "method" !in options || options["method"] !in {Text("simple"), Text("advanced")}
    ensures Convert(Some(path), options)
      == if e in {"doc", "docx"} then Runs(AdvancedExtraction) else Runs(SimpleTemplate)
  {
    assert "." + e == ".doc" <==> e == "doc" by {
      assert ("." + e)[1..] == e;
    }
    assert "." + e == ".docx" <==> e == "docx" by {
      assert ("." + e)[1..] == e;
    }
  }

  /** A command line with only options and no path makes `convert` throw. */
  lemma OnlyOptionsFails(args: seq<String>)
    requires forall j :: 2 <= j < |args| ==> StartsWith(args[j], "--")
    ensures var p := ParseOf(args); Convert(p.filePath, p.options) == Fails("File path is required")
  {
    if |args| > 2 {
      var xs := args[2..];
      assert forall j :: 0 <= j < |xs| ==> xs[j] == args[j + 2];
      NoPathYet(xs);
    }
  }
}
