/**
 * The two license-header scripts: `update_source` as a text transformation
 * placed between a read and a write, the header assembled from template lines,
 * and the directory walk over an abstract tree.
 *
 * Files are read in Python 2 as byte strings; a character here stands for one
 * byte, and the BOM is the three characters 0xEF 0xBB 0xBF.
 */
module LicenseHeaders {
  import opened Wrappers

  const Bom: string := ['\U{EF}', '\U{BB}', '\U{BF}']

  predicate StartsWith(s: string, prefix: string)
  {
    |prefix| <= |s| && s[..|prefix|] == prefix
  }

  predicate EndsWith(s: string, suffix: string)
  {
    |suffix| <= |s| && s[|s| - |suffix|..] == suffix
  }

  /** The text with a leading BOM removed, and whether there was one. */
  function StripBom(fdata: string): (r: (bool, string))
    ensures r.0 <==> StartsWith(fdata, Bom)
    ensures fdata == (if r.0 then Bom else "") + r.1
  {
    if StartsWith(fdata, Bom) then (true, fdata[3..]) else (false, fdata)
  }

  lemma StripBomOfBom(s: string)
    ensures StripBom(Bom + s) == (true, s)
  {
    assert (Bom + s)[..3] == Bom;
    assert (Bom + s)[3..] == s;
  }

  lemma StripBomOfPlain(s: string)
    requires |s| > 0 && s[0] != Bom[0]
    ensures StripBom(s) == (false, s)
  {
    assert |s| >= 3 ==> s[..3][0] != Bom[0];
  }

  /** A text starting with `'/'` or `' '` carries no BOM, whatever the BOM flag was. */
  lemma StripBomRestore(isUtf: bool, s: string)
    requires |s| > 0 && (s[0] == '/' || s[0] == ' ')
    ensures StripBom((if isUtf then Bom else "") + s) == (isUtf, s)
  {
    if isUtf { StripBomOfBom(s); } else { StripBomOfPlain(s); }
  }

  /** The older header removed once, when it is an exact prefix. */
  function StripOlder(text: string, older: Option<string>): string
  {
    if older.Some? && StartsWith(text, older.value) then text[|older.value|..] else text
  }

  /**
   * `update_source` of scripts/license_headers.py: `None` when the file is left
   * alone, `Some(c)` when `c` is written back.
   */
  function UpdateSource(fdata: string, license: string, older: Option<string>): Option<string>
  {
    var (isUtf, text) := StripBom(fdata);
    var text := StripOlder(text, older);
    if StartsWith(text, license) then None
    else Some((if isUtf then Bom else "") + license + text)
  }

  /** The file contents after a run of `update_source`. */
  function AfterUpdate(fdata: string, license: string, older: Option<string>): string
  {
    UpdateSource(fdata, license, older).UnwrapOr(fdata)
  }

  /** `update_source` of scripts/license-headers.py: rewrite unless the text already starts with a copyright comment. */
  function UpdateSourceCopyright(fdata: string, license: string): Option<string>
  {
    var (isUtf, text) := StripBom(fdata);
    if StartsWith(text, "/* Copyright") then None
    else Some((if isUtf then Bom else "") + license + text)
  }

  function AfterUpdateCopyright(fdata: string, license: string): string
  {
    UpdateSourceCopyright(fdata, license).UnwrapOr(fdata)
  }

  // ----- header assembly -----

  /** The header text built from its template lines, defined line by line from the end. */
  function HeaderBody(lines: seq<string>): string
  {
    if lines == [] then ""
    else HeaderBody(lines[..|lines| - 1]) + (if |lines| == 1 then "/* " else " * ") + lines[|lines| - 1]
  }

  function Header(lines: seq<string>): string
  {
    HeaderBody(lines) + " */\n"
  }

  /** Every template line after the first, each behind `" * "`. */
  function Continued(lines: seq<string>): string
  {
    if lines == [] then "" else " * " + lines[0] + Continued(lines[1..])
  }

  /** The header-building loop of both scripts. */
  method AssembleHeader(lines: seq<string>) returns (licenseText: string)
    ensures licenseText == Header(lines)
  {
    licenseText := "";
    var firstLine := true;
    var i := 0;
    while i < |lines|
      invariant 0 <= i <= |lines|
      invariant firstLine <==> i == 0
      invariant licenseText == HeaderBody(lines[..i])
    {
      if firstLine {
        licenseText := licenseText + "/* ";
        firstLine := false;
      } else {
        licenseText := licenseText + " * ";
      }
      licenseText := licenseText + lines[i];
      assert lines[..i + 1][..i] == lines[..i];
      i := i + 1;
    }
    assert lines[..i] == lines;
    licenseText := licenseText + " */\n";
  }

  lemma {:induction false} ContinuedSnoc(lines: seq<string>, line: string)
    ensures Continued(lines + [line]) == Continued(lines) + " * " + line
  {
    if lines == [] {
      assert [line][1..] == [];
    } else {
      assert (lines + [line])[1..] == lines[1..] + [line];
      ContinuedSnoc(lines[1..], line);
    }
  }

  // The first line is prefixed `"/* "`, every later one `" * "`, and `" */\n"` closes the header.
  lemma {:induction false} HeaderShape(lines: seq<string>)
    requires lines != []
    ensures HeaderBody(lines) == "/* " + lines[0] + Continued(lines[1..])
    ensures Header(lines) == "/* " + lines[0] + Continued(lines[1..]) + " */\n"
  {
    if |lines| == 1 {
      assert lines[..0] == [];
      assert lines[1..] == [];
    } else {
      var init, last := lines[..|lines| - 1], lines[|lines| - 1];
      HeaderShape(init);
      assert init[0] == lines[0];
      assert init[1..] + [last] == lines[1..];
      ContinuedSnoc(init[1..], last);
      calc {
        HeaderBody(lines);
        HeaderBody(init) + " * " + last;
        "/* " + lines[0] + Continued(init[1..]) + " * " + last;
        "/* " + lines[0] + (Continued(init[1..]) + " * " + last);
        "/* " + lines[0] + Continued(lines[1..]);
      }
    }
  }

  lemma EmptyTemplateHeader()
    ensures Header([]) == " */\n"
  {
  }

  // ----- scripts/license_headers.py properties -----

  /** A write happens exactly when the text, after the BOM and the older header are stripped, does not start with the new header. */
  lemma WriteIff(fdata: string, license: string, older: Option<string>)
    ensures UpdateSource(fdata, license, older).Some?
      <==> !StartsWith(StripOlder(StripBom(fdata).1, older), license)
  {
  }

  /** When a write happens, it is `[BOM] ++ license ++ (text minus the older header)`, and the BOM is kept iff it was there. */
  lemma WrittenContent(fdata: string, license: string, older: Option<string>)
    requires UpdateSource(fdata, license, older).Some?
    ensures var w := UpdateSource(fdata, license, older).value;
      var rest := StripOlder(StripBom(fdata).1, older);
      (StartsWith(fdata, Bom) ==> w == Bom + license + rest)
      && (!StartsWith(fdata, Bom) ==> w == license + rest)
  {
  }

  /** The older header is removed at most once, and only when it is an exact prefix. */
  lemma StripOlderOnce(text: string, older: string)
    ensures StartsWith(text, older) ==> text == older + StripOlder(text, Some(older))
    ensures !StartsWith(text, older) ==> StripOlder(text, Some(older)) == text
  {
  }

  /** The old header followed by the new one is left alone: the old header stays on disk. */
  lemma OlderThenNewIsKept(older: string, license: string, rest: string)
    requires !StartsWith(older + license + rest, Bom)
    ensures UpdateSource(older + license + rest, license, Some(older)) == None
  {
    var f := older + license + rest;
    assert f[..|older|] == older;
    assert f[|older|..] == license + rest;
    assert (license + rest)[..|license|] == license;
  }

  /** The presence test is an exact prefix match: a header differing only in whitespace is not recognised. */
  lemma ExactPrefixOnly()
    ensures UpdateSource("/*  x */\n", "/* x */\n", None) == Some("/* x */\n/*  x */\n")
  {
    StripBomOfPlain("/*  x */\n");
    assert (if false then Bom else "") + "/* x */\n" + "/*  x */\n" == "/* x */\n/*  x */\n";
    assert !StartsWith("/*  x */\n", "/* x */\n") by {
      assert "/*  x */\n"[..8][3] != "/* x */\n"[3];
    }
  }

  function Line48New(lines: seq<string>): string { Header(lines) + "\n" }

  /** One rerun of line 48 on a file that already carries the new header. */
  lemma RerunStep(isUtf: bool, h: string, rest: string)
    requires |h| > 0 && (h[0] == '/' || h[0] == ' ')
    ensures var bom := if isUtf then Bom else "";
      UpdateSource(bom + (h + "\n" + rest), h + "\n", Some(h)) == Some(bom + (h + "\n" + ("\n" + rest)))
  {
    var lic := h + "\n";
    StripBomRestore(isUtf, lic + rest);
    assert (lic + rest)[..|h|] == h;
    assert (lic + rest)[|h|..] == "\n" + rest;
    assert !StartsWith("\n" + rest, lic) by {
      if |lic| <= |"\n" + rest| {
        assert ("\n" + rest)[..|lic|][0] != lic[0];
      }
    }
    var bom := if isUtf then Bom else "";
    assert bom + lic + ("\n" + rest) == bom + (h + "\n" + ("\n" + rest));
  }

  lemma HeaderFirstChar(lines: seq<string>)
    ensures |Header(lines)| > 0 && (Header(lines)[0] == '/' || Header(lines)[0] == ' ')
  {
    if lines != [] { HeaderShape(lines); }
  }

  /**
   * With the arguments of line 48 (new header = old header + "\n"), a run that
   * rewrites a file is followed by a second run that rewrites it again with one
   * more blank line: the operation is not idempotent.
   */
  lemma RerunAddsBlankLine(fdata: string, lines: seq<string>)
    requires UpdateSource(fdata, Line48New(lines), Some(Header(lines))).Some?
    ensures var h := Header(lines);
      var bom := if StartsWith(fdata, Bom) then Bom else "";
      var rest := StripOlder(StripBom(fdata).1, Some(h));
      var first := AfterUpdate(fdata, h + "\n", Some(h));
      first == bom + (h + "\n" + rest)
      && AfterUpdate(first, h + "\n", Some(h)) == bom + (h + "\n" + ("\n" + rest))
      && AfterUpdate(first, h + "\n", Some(h)) != first
  {
    var h := Header(lines);
    HeaderFirstChar(lines);
    var isUtf := StartsWith(fdata, Bom);
    var bom := if isUtf then Bom else "";
    var rest := StripOlder(StripBom(fdata).1, Some(h));
    RerunStep(isUtf, h, rest);
    assert |bom + (h + "\n" + ("\n" + rest))| == |bom + (h + "\n" + rest)| + 1;
  }

  // ----- scripts/license-headers.py properties -----

  // A file is rewritten iff its text after the BOM does not start with `"/* Copyright"`; the BOM is restored on write.
  lemma CopyrightWriteIff(fdata: string, license: string)
    ensures UpdateSourceCopyright(fdata, license).Some? <==> !StartsWith(StripBom(fdata).1, "/* Copyright")
    ensures UpdateSourceCopyright(fdata, license).Some? ==>
      UpdateSourceCopyright(fdata, license).value
        == (if StartsWith(fdata, Bom) then Bom else "") + license + StripBom(fdata).1
  {
  }

  // After one rewrite the file starts with the license, so a second run writes nothing when the license starts with `"/* Copyright"`.
  lemma CopyrightIdempotent(fdata: string, license: string)
    requires StartsWith(license, "/* Copyright")
    ensures UpdateSourceCopyright(AfterUpdateCopyright(fdata, license), license) == None
  {
    var (isUtf, text) := StripBom(fdata);
    if !StartsWith(text, "/* Copyright") {
      var first := (if isUtf then Bom else "") + license + text;
      assert license[0] == '/';
      assert first == (if isUtf then Bom else "") + (license + text);
      StripBomRestore(isUtf, license + text);
      assert (license + text)[..12] == license[..12];
    }
  }

  // The header of the older script starts with `"/* Copyright"` exactly when the first template line starts with `"Copyright"`.
  lemma CopyrightHeaderFromLicense(lines: seq<string>)
    requires lines != []
    ensures StartsWith(Header(lines), "/* Copyright") <==> StartsWith(lines[0] + Continued(lines[1..]) + " */\n", "Copyright")
  {
    HeaderShape(lines);
    var tail := lines[0] + Continued(lines[1..]) + " */\n";
    assert Header(lines) == "/* " + tail;
    if StartsWith(tail, "Copyright") {
      assert ("/* " + tail)[..12] == "/* " + tail[..9];
    }
    if StartsWith("/* " + tail, "/* Copyright") {
      assert tail[..9] == ("/* " + tail)[3..12];
    }
  }

  // ----- directory walk -----

  datatype Node = File(name: string, content: string) | Dir(name: string, children: seq<Node>)

  /** What the walk does to one file: only files whose path ends with the extension are updated. */
  function Visit(path: string, content: string, ext: string, license: string, older: Option<string>): string
  {
    if EndsWith(path, ext) then AfterUpdate(content, license, older) else content
  }

  /** `recursive_traversal`: `os.path.join(dir, fn)` is written `dir + "/" + fn`. */
  function Traverse(dir: string, entries: seq<Node>, ext: string, license: string, older: Option<string>): (r: seq<Node>)
    decreases entries
    ensures |r| == |entries|
    ensures forall i :: 0 <= i < |r| ==> r[i].name == entries[i].name && (r[i].File? <==> entries[i].File?)
  {
    if entries == [] then []
    else
      var e := entries[0];
      var full := dir + "/" + e.name;
      var e' := match e
        case File(n, c) => File(n, Visit(full, c, ext, license, older))
        case Dir(n, ch) => Dir(n, Traverse(full, ch, ext, license, older));
      [e'] + Traverse(dir, entries[1..], ext, license, older)
  }

  /** The files of a tree, with their full paths, in listing order. */
  function Files(dir: string, entries: seq<Node>): seq<(string, string)>
    decreases entries
  {
    if entries == [] then []
    else
      var e := entries[0];
      var full := dir + "/" + e.name;
      (match e
        case File(_, c) => [(full, c)]
        case Dir(_, ch) => Files(full, ch))
      + Files(dir, entries[1..])
  }

  function VisitAll(files: seq<(string, string)>, ext: string, license: string, older: Option<string>): (r: seq<(string, string)>)
    ensures |r| == |files|
    ensures forall i :: 0 <= i < |r| ==> r[i] == (files[i].0, Visit(files[i].0, files[i].1, ext, license, older))
  {
    if files == [] then [] else [(files[0].0, Visit(files[0].0, files[0].1, ext, license, older))] + VisitAll(files[1..], ext, license, older)
  }

  lemma VisitAllAppend(a: seq<(string, string)>, b: seq<(string, string)>, ext: string, license: string, older: Option<string>)
    ensures VisitAll(a + b, ext, license, older) == VisitAll(a, ext, license, older) + VisitAll(b, ext, license, older)
  {
  }

  /**
   * The walk visits every file of the tree, at its full path, and changes a file
   * only when that path ends with the extension; directories are recursed into.
   */
  lemma {:induction false} TraverseVisitsFiles(dir: string, entries: seq<Node>, ext: string, license: string, older: Option<string>)
    decreases entries
    ensures Files(dir, Traverse(dir, entries, ext, license, older)) == VisitAll(Files(dir, entries), ext, license, older)
  {
    if entries != [] {
      var e := entries[0];
      var full := dir + "/" + e.name;
      TraverseVisitsFiles(dir, entries[1..], ext, license, older);
      var r := Traverse(dir, entries, ext, license, older);
      assert r[1..] == Traverse(dir, entries[1..], ext, license, older);
      match e
      case File(n, c) =>
        VisitAllAppend([(full, c)], Files(dir, entries[1..]), ext, license, older);
      case Dir(n, ch) =>
        TraverseVisitsFiles(full, ch, ext, license, older);
        VisitAllAppend(Files(full, ch), Files(dir, entries[1..]), ext, license, older);
    }
  }
}
