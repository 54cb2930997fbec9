/** Choosing the output format: an explicit format wins, otherwise the file
    name's extension decides (`detect_format`, repeated verbatim in the three
    exporters, and the same extension test in the server's request checks). */
module OutputFormat {
  import opened Common

  /** Index of the last `c` in `s`, or -1. */
  function LastIndex(s: string, c: char): (k: int)
    ensures -1 <= k < |s|
    ensures k >= 0 ==> s[k] == c
    ensures forall j :: k < j < |s| ==> s[j] != c
  {
    if s == [] then -1
    else if s[|s| - 1] == c then |s| - 1
    else LastIndex(s[..|s| - 1], c)
  }

  /** The second half of `os.path.splitext(path)` (POSIX rules): the text from
      the last '.' of the last path component, unless that component has only
      dots before it (so ".jsonl" alone has no extension). */
  function Ext(path: string): (e: string)
    ensures e == [] || (e[0] == '.' && |e| <= |path| && e == path[|path| - |e|..])
    ensures forall j :: 0 <= j < |e| ==> e[j] != '/'
    ensures forall j :: 1 <= j < |e| ==> e[j] != '.'
  {
    var sep := LastIndex(path, '/');
    var dot := LastIndex(path, '.');
    if dot > sep && exists k | sep + 1 <= k < dot :: path[k] != '.' then path[dot..] else ""
  }

  const FormatError := "Please provide --format or use .jsonl/.csv extension"

  /** The format a lower-cased extension names, if any. */
  function FormatFromExtension(path: string): (f: Option<string>)
    ensures f.Some? ==> f.value in {"jsonl", "csv"}
  {
    var e := Lower(Ext(path));
    if e == ".jsonl" then Some("jsonl")
    else if e == ".csv" then Some("csv")
    else None
  }

  /** `detect_format(path, cli_format)`: Err is the ValueError. */
  function DetectFormat(path: string, cliFormat: Option<string>): (r: Result<string, string>)
    ensures Truthy(cliFormat) ==> r == Ok(cliFormat.value)
    ensures !Truthy(cliFormat) ==> r.Ok? ==> r.value in {"jsonl", "csv"}
    ensures !Truthy(cliFormat) && r.Err? ==> r.error == FormatError
  {
    if Truthy(cliFormat) then Ok(cliFormat.value)
    else match FormatFromExtension(path)
      case Some(f) => Ok(f)
      case None => Err(FormatError)
  }

  /** A name whose last component ends in ".<e>" (with something other than a
      dot before it) has extension ".<e>". */
  lemma {:induction false} ExtOfName(stem: string, e: string)
    requires stem != [] && stem[|stem| - 1] != '/' && stem[|stem| - 1] != '.'
    requires forall j :: 0 <= j < |e| ==> e[j] != '/' && e[j] != '.'
    ensures Ext(stem + "." + e) == "." + e
  {
    var p := stem + "." + e;
    var dot := |stem|;
    assert p[dot] == '.';
    assert forall j :: dot < j < |p| ==> p[j] == e[j - dot - 1];
    assert LastIndex(p, '.') == dot by {
      LastIndexIs(p, '.', dot);
    }
    var sep := LastIndex(p, '/');
    assert sep < dot - 1 by {
      assert p[dot - 1] == stem[|stem| - 1];
      assert p[dot - 1] != '/' && p[dot] != '/';
    }
    assert sep + 1 <= dot - 1 < dot && p[dot - 1] != '.';
    assert p[dot..] == "." + e;
  }

  /** LastIndex finds the position of the last occurrence. */
  lemma {:induction false} LastIndexIs(s: string, c: char, k: nat)
    requires k < |s| && s[k] == c
    requires forall j :: k < j < |s| ==> s[j] != c
    ensures LastIndex(s, c) == k
  {
    if k < |s| - 1 {
      LastIndexIs(s[..|s| - 1], c, k);
    }
  }

  /** Extension detection is case-insensitive and total over such names: the
      ".jsonl" and ".csv" endings in any letter case give their format, every
      other ending the ValueError. */
  lemma DetectFormatByName(stem: string, e: string)
    requires stem != [] && stem[|stem| - 1] != '/' && stem[|stem| - 1] != '.'
    requires forall j :: 0 <= j < |e| ==> e[j] != '/' && e[j] != '.'
    ensures DetectFormat(stem + "." + e, None) ==
      if Lower(e) == "jsonl" then Ok("jsonl")
      else if Lower(e) == "csv" then Ok("csv")
      else Err(FormatError)
  {
    ExtOfName(stem, e);
    LowerAfterDot(e);
    DotPrefix(Lower(e), "jsonl");
    DotPrefix(Lower(e), "csv");
    hide Ext;
    hide Lower;
    hide LastIndex;
    var path := stem + "." + e;
    assert FormatFromExtension(path) ==
      if Lower(e) == "jsonl" then Some("jsonl") else if Lower(e) == "csv" then Some("csv") else None;
  }

  /** Lower-casing leaves the dot in front alone. */
  lemma LowerAfterDot(e: string)
    ensures Lower("." + e) == "." + Lower(e)
  {
    assert LowerChar('.') == '.';
  }

  /** Two strings after a dot are equal exactly when they are. */
  lemma DotPrefix(l: string, w: string)
    ensures "." + l == "." + w <==> l == w
    ensures "." + "jsonl" == ".jsonl" && "." + "csv" == ".csv"
  {
    if "." + l == "." + w {
      assert l == ("." + l)[1..] == ("." + w)[1..] == w;
    }
  }

  /** A name with no dot in its last component has no extension, so only an
      explicit format can be used. */
  lemma NoDotNoFormat(path: string, cliFormat: Option<string>)
    requires forall j :: LastIndex(path, '/') < j < |path| ==> path[j] != '.'
    ensures DetectFormat(path, cliFormat).Ok? <==> Truthy(cliFormat)
  {
    assert Ext(path) == "";
  }
}
