/** The pure helpers of the knowledge-file parser (engine/utils/knowledge/file_parser.py):
    the extension whitelist and the suffix dispatch, column-label de-duplication for
    spreadsheets, image content types, the OCR guard, docx line assembly and the row-block
    headings of Excel sheets. Reading, downloading and converting the files themselves is
    not modelled; a path is a POSIX path string. */
module FileParser {
  import opened Wrappers
  import opened JsonValue
  import opened Exceptions
  import opened Text
  import opened Seqs

  // ---------------------------------------------------------------- paths

  /** `s.split("/")`, read one character at a time: a slash starts a new part, any
      other character extends the first part of the rest. */
  function SplitSlash(s: string): (parts: seq<string>)
    ensures |parts| >= 1
    decreases |s|
  {
    if s == [] then [""]
    else
      var rest := SplitSlash(s[1..]);
      if s[0] == '/' then [""] + rest else [[s[0]] + rest[0]] + rest[1..]
  }

  /** No part of a split holds the separator. */
  lemma {:induction false} SplitNoSlash(s: string)
    ensures forall i :: 0 <= i < |SplitSlash(s)| ==> '/' !in SplitSlash(s)[i]
    decreases |s|
  {
    if s != [] {
      SplitNoSlash(s[1..]);
      var rest := SplitSlash(s[1..]);
      if s[0] != '/' {
        var parts := SplitSlash(s);
        forall i | 0 <= i < |parts| ensures '/' !in parts[i] {
          if i == 0 {
            assert forall k :: 0 <= k < |rest[0]| ==> ([s[0]] + rest[0])[k + 1] == rest[0][k];
          } else {
            assert parts[i] == rest[i];
          }
        }
      }
    }
  }

  /** A string without a slash splits into itself. */
  lemma {:induction false} SplitWhole(s: string)
    requires '/' !in s
    ensures SplitSlash(s) == [s]
    decreases |s|
  {
    if s != [] {
      assert '/' !in s[1..] by {
        forall k | 0 <= k < |s[1..]| ensures s[1..][k] != '/' { assert s[1..][k] == s[k + 1]; }
      }
      SplitWhole(s[1..]);
      assert [s[0]] + s[1..] == s;
    }
  }

  /** Prepending a character to the first part of a join prepends it to the join. */
  lemma JoinHead(sep: string, c: char, x: string, more: seq<string>)
    ensures Join(sep, [[c] + x] + more) == [c] + Join(sep, [x] + more)
  {
    if more != [] {
      JoinCons(sep, [c] + x, more);
      JoinCons(sep, x, more);
    }
  }

  /** Splitting at '/' and joining with '/' gives the path back. */
  lemma {:induction false} SplitJoin(s: string)
    ensures Join("/", SplitSlash(s)) == s
    decreases |s|
  {
    if s != [] {
      var rest := SplitSlash(s[1..]);
      SplitJoin(s[1..]);
      assert [s[0]] + s[1..] == s;
      if s[0] == '/' {
        JoinCons("/", "", rest);
      } else {
        JoinHead("/", s[0], rest[0], rest[1..]);
        assert [rest[0]] + rest[1..] == rest;
      }
    }
  }

  /** The components of a path as `pathlib` parses it: empty and "." components vanish. */
  function Components(parts: seq<string>): (cs: seq<string>)
    ensures forall i :: 0 <= i < |cs| ==> cs[i] != "" && cs[i] != "." && '/' !in cs[i]
    requires forall i :: 0 <= i < |parts| ==> '/' !in parts[i]
    decreases |parts|
  {
    if parts == [] then []
    else if parts[0] == "" || parts[0] == "." then Components(parts[1..])
    else [parts[0]] + Components(parts[1..])
  }

  /** The components `pathlib` keeps of a path. */
  function Parts(path: string): (cs: seq<string>)
    ensures forall i :: 0 <= i < |cs| ==> cs[i] != "" && cs[i] != "." && '/' !in cs[i]
  {
    SplitNoSlash(path);
    Components(SplitSlash(path))
  }

  /** `Path(path).name`: the last component, or "" when there is none. */
  function Name(path: string): (name: string)
    ensures '/' !in name && name != "."
  {
    var cs := Parts(path);
    if cs == [] then "" else cs[|cs| - 1]
  }

  /** The root of a POSIX path as `pathlib` keeps it: exactly two leading slashes stay
      two, one or three and more become one, and a relative path has none. */
  function PathRoot(path: string): string {
    if |path| >= 1 && path[0] == '/' then
      if |path| >= 2 && path[1] == '/' && !(|path| >= 3 && path[2] == '/') then "//" else "/"
    else ""
  }

  /** `str(Path(path))`: the root and the components joined by '/', or "." when both are
      empty. The text parses back to the same root and components. */
  function PathText(path: string): (t: string)
    ensures t != ""
    ensures PathRoot(t) == PathRoot(path)
    ensures Parts(t) == Parts(path)
  {
    var cs := Parts(path);
    var root := PathRoot(path);
    var body := Join("/", cs);
    JoinedParts(cs);
    if root == "" && cs == [] then
      SplitWhole(".");
      "."
    else
      RootedParts(root, body);
      root + body
  }

  /** Formatting a path is idempotent, and keeps its name and suffix. */
  lemma PathTextStable(path: string)
    ensures PathText(PathText(path)) == PathText(path)
    ensures Name(PathText(path)) == Name(path) && Suffix(PathText(path)) == Suffix(path)
  {
  }

  /** How `str(Path(...))` rewrites some paths: "." components, repeated and trailing
      slashes vanish, exactly two leading slashes stay, and the empty path is ".". */
  lemma PathTextExamples()
    ensures PathText("./a.pdf") == "a.pdf"
    ensures PathText("d//x.pdf") == "d/x.pdf"
    ensures PathText("") == "."
    ensures PathText("//a") == "//a"
    ensures PathText("///a/") == "/a"
  {
    DotDropped();
    SlashesSquashed();
    EmptyIsDot();
    TwoSlashesKept();
    ManySlashesSquashed();
  }

  lemma DotDropped()
    ensures PathText("./a.pdf") == "a.pdf"
  {
    assert "./a.pdf" == "." + "/" + "a.pdf";
    SplitAppend(".", "a.pdf");
    SplitWhole(".");
    assert Parts("./a.pdf") == Components([".", "a.pdf"]) == ["a.pdf"];
  }

  lemma SlashesSquashed()
    ensures PathText("d//x.pdf") == "d/x.pdf"
  {
    assert "d//x.pdf" == "d/" + "/" + "x.pdf" && "d/" == "d" + "/" + "";
    SplitAppend("d/", "x.pdf");
    SplitAppend("d", "");
    SplitWhole("d");
    assert Parts("d//x.pdf") == Components(["d", "", "x.pdf"]) == ["d", "x.pdf"];
    JoinCons("/", "d", ["x.pdf"]);
  }

  lemma EmptyIsDot()
    ensures PathText("") == "."
  {
    assert Parts("") == Components([""]) == [];
  }

  lemma TwoSlashesKept()
    ensures PathText("//a") == "//a"
  {
    assert "//a" == "" + "/" + "/a" && "/a" == "" + "/" + "a";
    SplitConcat("", "/a");
    SplitAppend("", "a");
    assert Parts("//a") == Components(["", "", "a"]) == ["a"];
  }

  lemma ManySlashesSquashed()
    ensures PathText("///a/") == "/a"
  {
    assert "///a/" == "" + "/" + "//a/" && "//a/" == "" + "/" + "/a/";
    assert "/a/" == "" + "/" + "a/" && "a/" == "a" + "/" + "";
    SplitConcat("", "//a/");
    SplitConcat("", "/a/");
    SplitConcat("", "a/");
    SplitAppend("a", "");
    SplitWhole("a");
    assert Parts("///a/") == Components(["", "", "", "a", ""]) == ["a"];
  }

  /** Components joined with '/' parse back to themselves, and the join does not start
      with a slash. */
  lemma JoinedParts(cs: seq<string>)
    requires forall i :: 0 <= i < |cs| ==> cs[i] != "" && cs[i] != "." && '/' !in cs[i]
    ensures cs == [] ==> Join("/", cs) == ""
    ensures cs != [] ==> Join("/", cs) != "" && Join("/", cs)[0] != '/' && Parts(Join("/", cs)) == cs
  {
    if cs != [] {
      SplitJoinParts(cs);
      ComponentsOfComponents(cs);
      JoinFirst(cs);
    }
  }

  /** The text after a root splits as the text itself, after one empty part per slash. */
  lemma RootedParts(root: string, body: string)
    requires root == "" || root == "/" || root == "//"
    requires body != "" ==> body[0] != '/'
    requires root == "" ==> body != ""
    ensures Parts(root + body) == Parts(body)
    ensures PathRoot(root + body) == root
  {
    var t := root + body;
    SplitNoSlash(body);
    if root == "/" {
      assert t[0] == '/' && t[1..] == body;
      assert SplitSlash(t) == [""] + SplitSlash(body);
      assert ([""] + SplitSlash(body))[1..] == SplitSlash(body);
      if body != "" { assert t[1] == body[0]; }
    } else if root == "//" {
      assert t[0] == '/' && t[1..] == "/" + body && t[1..][1..] == body;
      assert SplitSlash(t[1..]) == [""] + SplitSlash(body);
      assert SplitSlash(t) == [""] + ([""] + SplitSlash(body));
      assert ([""] + SplitSlash(body))[1..] == SplitSlash(body);
      assert ([""] + ([""] + SplitSlash(body)))[1..] == [""] + SplitSlash(body);
      assert Components([""] + SplitSlash(body)) == Components(SplitSlash(body));
      assert Components([""] + ([""] + SplitSlash(body))) == Components([""] + SplitSlash(body));
      if body != "" { assert t[2] == body[0]; }
    } else {
      assert t == body;
    }
  }

  /** The index of the last `c` in `s`, or -1: `s.rfind(c)`. */
  function RFind(s: string, c: char): (i: int)
    ensures -1 <= i < |s|
    ensures i == -1 <==> c !in s
    ensures i >= 0 ==> s[i] == c && c !in s[i + 1..]
    decreases |s|
  {
    if s == [] then -1
    else if s[|s| - 1] == c then |s| - 1
    else
      var i := RFind(s[..|s| - 1], c);
      assert s == s[..|s| - 1] + [s[|s| - 1]];
      if i >= 0 then assert s[i + 1..] == s[..|s| - 1][i + 1..] + [s[|s| - 1]]; i else i
  }

  /** `Path(path).suffix`: from the last '.' of the name on, when that dot neither
      starts nor ends the name. */
  function Suffix(path: string): (suffix: string)
    ensures suffix != "" ==> |suffix| >= 2 && suffix[0] == '.' && '.' !in suffix[1..] && '/' !in suffix
    ensures suffix != "" ==> exists i | 0 < i < |Name(path)| - 1 :: suffix == Name(path)[i..]
    ensures var n := Name(path);
      suffix == "" <==> |n| < 2 || '.' !in n[1..] || n[|n| - 1] == '.'
  {
    var name := Name(path);
    var i := RFind(name, '.');
    SuffixCases(name, i);
    if 0 < i < |name| - 1 then
      assert name[i..][1..] == name[i + 1..];
      name[i..]
    else ""
  }

  /** The last dot of a name lies strictly inside it exactly when the name has a dot
      after its first character and does not end with one. */
  lemma SuffixCases(n: string, i: int)
    requires -1 <= i < |n|
    requires i == -1 <==> '.' !in n
    requires i >= 0 ==> n[i] == '.' && '.' !in n[i + 1..]
    ensures 0 < i < |n| - 1 <==> !(|n| < 2 || '.' !in n[1..] || n[|n| - 1] == '.')
  {
    if 0 < i < |n| - 1 {
      assert n[1..][i - 1] == '.';
      assert n[i + 1..][|n| - 1 - (i + 1)] == n[|n| - 1];
    } else if |n| >= 2 && '.' in n[1..] {
      var k :| 0 <= k < |n[1..]| && n[1..][k] == '.';
      assert n[k + 1] == '.';
    }
  }

  lemma {:induction false} ComponentsAppend(a: seq<string>, b: seq<string>)
    requires forall i :: 0 <= i < |a| ==> '/' !in a[i]
    requires forall i :: 0 <= i < |b| ==> '/' !in b[i]
    ensures Components(a + b) == Components(a) + Components(b)
    decreases |a|
  {
    if a == [] {
      assert a + b == b;
    } else {
      assert (a + b)[0] == a[0] && (a + b)[1..] == a[1..] + b;
      ComponentsAppend(a[1..], b);
    }
  }

  /** Splitting at a slash splits the two sides apart. */
  lemma {:induction false} SplitConcat(a: string, b: string)
    ensures SplitSlash(a + "/" + b) == SplitSlash(a) + SplitSlash(b)
    decreases |a|
  {
    var s := a + "/" + b;
    if a == [] {
      assert s == "/" + b && s[1..] == b;
    } else {
      assert s[0] == a[0] && s[1..] == a[1..] + "/" + b;
      SplitConcat(a[1..], b);
      var rest := SplitSlash(a[1..]);
      if a[0] != '/' {
        assert (rest + SplitSlash(b))[0] == rest[0];
        assert (rest + SplitSlash(b))[1..] == rest[1..] + SplitSlash(b);
      }
    }
  }

  lemma SplitAppend(dir: string, name: string)
    requires '/' !in name
    ensures SplitSlash(dir + "/" + name) == SplitSlash(dir) + [name]
  {
    SplitConcat(dir, name);
    SplitWhole(name);
  }

  /** Slash-free parts joined with '/' split back into those parts. */
  lemma {:induction false} SplitJoinParts(cs: seq<string>)
    requires cs != [] && forall i :: 0 <= i < |cs| ==> '/' !in cs[i]
    ensures SplitSlash(Join("/", cs)) == cs
    decreases |cs|
  {
    SplitWhole(cs[0]);
    if |cs| > 1 {
      SplitJoinParts(cs[1..]);
      SplitConcat(cs[0], Join("/", cs[1..]));
      ConsParts(cs[0], cs[1..]);
    }
  }

  /** Components are their own components. */
  lemma {:induction false} ComponentsOfComponents(cs: seq<string>)
    requires forall i :: 0 <= i < |cs| ==> cs[i] != "" && cs[i] != "." && '/' !in cs[i]
    ensures Components(cs) == cs
    decreases |cs|
  {
    if cs != [] {
      ComponentsOfComponents(cs[1..]);
      ConsParts(cs[0], cs[1..]);
    }
  }

  /** A join starts with the first character of its first part. */
  lemma JoinFirst(cs: seq<string>)
    requires cs != [] && cs[0] != ""
    ensures Join("/", cs) != "" && Join("/", cs)[0] == cs[0][0]
  {
  }

  /** A component appended to any directory is the name of the path. */
  lemma NameOfChild(dir: string, n: string)
    requires n != "" && n != "." && '/' !in n
    ensures Name(dir + "/" + n) == n
  {
    SplitAppend(dir, n);
    SplitNoSlash(dir);
    ComponentsAppend(SplitSlash(dir), [n]);
    assert Components([n]) == [n] by { assert [n][1..] == []; }
  }

  /** A path of one component is its own name. */
  lemma NameOfBare(n: string)
    requires n != "" && n != "." && '/' !in n
    ensures Name(n) == n
  {
    SplitWhole(n);
    assert Components([n]) == [n] by { assert [n][1..] == []; }
  }

  /** A file name `stem + ext` with a one-dot extension has that extension as its
      suffix, in whatever directory it sits. */
  lemma SuffixOfFileName(dir: string, stem: string, ext: string)
    requires stem != "" && '/' !in stem
    requires |ext| >= 2 && ext[0] == '.' && '.' !in ext[1..] && '/' !in ext
    ensures Suffix(dir + "/" + stem + ext) == ext
  {
    var name := stem + ext;
    assert '/' !in name by {
      forall k | 0 <= k < |name| ensures name[k] != '/' {
        if k < |stem| { assert name[k] == stem[k]; } else { assert name[k] == ext[k - |stem|]; }
      }
    }
    assert dir + "/" + stem + ext == dir + "/" + name;
    assert name != "" && name != "." by { assert |name| >= 3; }
    NameOfChild(dir, name);
    var i := |stem|;
    assert name[i] == '.';
    assert name[i + 1..] == ext[1..];
    assert RFind(name, '.') == i;
    assert name[i..] == ext;
  }

  // ---------------------------------------------------------------- whitelist and dispatch

  const SupportedFileExtensions: seq<string> := [
    ".txt", ".md", ".docx", ".doc", ".html", ".htm", ".csv", ".xls", ".xlsx",
    ".pdf", ".jpg", ".jpeg", ".png", ".bmp", ".tiff", ".tif"]

  /** `is_supported_file_extension`: the lower-cased suffix is whitelisted, so a path
      without a suffix is never supported. */
  predicate IsSupportedFileExtension(path: string)
    ensures IsSupportedFileExtension(path) ==> Suffix(path) != ""
  {
    Lower(Suffix(path)) in SupportedFileExtensions
  }

  /** Every whitelisted extension is a one-dot extension. */
  lemma WhitelistShape(e: string)
    requires e in SupportedFileExtensions
    ensures |e| >= 2 && e[0] == '.' && '.' !in e[1..] && '/' !in e
  {
  }

  /** A file `stem + ext` whose extension is whitelisted in any letter case is
      supported, and an existing one is dispatched to a converter, in any directory. */
  lemma SupportedFileName(dir: string, stem: string, ext: string)
    requires stem != "" && '/' !in stem
    requires Lower(ext) in SupportedFileExtensions
    ensures IsSupportedFileExtension(dir + "/" + stem + ext)
    ensures Dispatch(dir + "/" + stem + ext, true).Ok?
  {
    var e := Lower(ext);
    WhitelistShape(e);
    assert ext[0] == '.' by { assert LowerChar(ext[0]) == e[0]; }
    assert '.' !in ext[1..] by {
      forall k | 0 <= k < |ext[1..]| ensures ext[1..][k] != '.' {
        assert LowerChar(ext[k + 1]) == e[1..][k];
      }
    }
    assert '/' !in ext by {
      forall k | 0 <= k < |ext| ensures ext[k] != '/' {
        assert LowerChar(ext[k]) == e[k];
      }
    }
    SuffixOfFileName(dir, stem, ext);
  }

  /** The converter `process_file_to_markdown` hands a file to. */
  datatype Handler = Pdf | PlainText | Docx | Doc | Image | Html | Csv | Excel

  /** `FileNotFoundError` is an `OSError`, neither a `ValueError` nor a `TypeError`. */
  function FileNotFound(path: string): Exc {
    Exc(OtherError("FileNotFoundError", false), "文件不存在: " + PathText(path))
  }

  /** The converter for a lower-cased suffix, if any. */
  function HandlerFor(suffix: string): (h: Option<Handler>)
    ensures h.Some? <==> suffix in SupportedFileExtensions
    ensures h == Some(Image) ==> suffix in {".jpg", ".jpeg", ".png", ".bmp", ".tiff", ".tif"}
    ensures h == Some(Excel) ==> suffix in {".xls", ".xlsx"}
  {
    if suffix == ".pdf" then Some(Pdf)
    else if suffix in {".txt", ".md"} then Some(PlainText)
    else if suffix == ".docx" then Some(Docx)
    else if suffix == ".doc" then Some(Doc)
    else if suffix in {".jpg", ".jpeg", ".png", ".bmp", ".tiff", ".tif"} then Some(Image)
    else if suffix in {".html", ".htm"} then Some(Html)
    else if suffix == ".csv" then Some(Csv)
    else if suffix in {".xls", ".xlsx"} then Some(Excel)
    else None
  }

  /** The suffix dispatch of `process_file_to_markdown`, on the local path. */
  function Dispatch(path: string, exists_: bool): (r: Result<Handler, Exc>)
    ensures !exists_ ==> r == Err(FileNotFound(path))
    ensures exists_ ==> (r.Ok? <==> IsSupportedFileExtension(path))
    ensures exists_ && r.Err? ==> r.error == Exc(ValueError, "不支持的文件类型: " + Lower(Suffix(path)))
    ensures r.Ok? && r.value == Image ==> Lower(Suffix(path)) in {".jpg", ".jpeg", ".png", ".bmp", ".tiff", ".tif"}
    ensures r.Ok? && r.value == Excel ==> Lower(Suffix(path)) in {".xls", ".xlsx"}
  {
    if !exists_ then Err(FileNotFound(path))
    else
      var suffix := Lower(Suffix(path));
      match HandlerFor(suffix)
      case Some(h) => Ok(h)
      case None => Err(Exc(ValueError, "不支持的文件类型: " + suffix))
  }

  // ---------------------------------------------------------------- spreadsheet columns

  /** The label of one header cell: `str(col)`, or "Unnamed" for `None` and blank text.
      `Some(s)` stands for a cell whose `str()` is `s`. */
  function Label(col: Option<string>): (l: string)
    ensures col.None? ==> l == "Unnamed"
    ensures col.Some? && IsBlank(col.value) ==> l == "Unnamed"
    ensures col.Some? && !IsBlank(col.value) ==> l == col.value
  {
    if col.None? || IsBlank(col.value) then "Unnamed" else col.value
  }

  function Labels(columns: seq<Option<string>>): (ls: seq<string>)
    ensures |ls| == |columns| && forall i :: 0 <= i < |ls| ==> ls[i] == Label(columns[i])
  {
    seq(|columns|, i requires 0 <= i < |columns| => Label(columns[i]))
  }

  /** How often `l` occurs in `s`. */
  function Count(s: seq<string>, l: string): nat
    decreases |s|
  {
    if s == [] then 0 else Count(s[..|s| - 1], l) + (if s[|s| - 1] == l then 1 else 0)
  }

  /** The label column `i` gets: its own the first time, `label_n` for its n-th use. */
  function UniqueLabel(labels: seq<string>, i: nat): string
    requires i < |labels|
  {
    var earlier := Count(labels[..i], labels[i]);
    if earlier == 0 then labels[i] else labels[i] + "_" + NatToString(earlier + 1)
  }

  /** The labels `_make_unique_columns` should produce, column by column. */
  function UniqueColumns(columns: seq<Option<string>>): (us: seq<string>)
    ensures |us| == |columns|
  {
    var labels := Labels(columns);
    seq(|columns|, i requires 0 <= i < |columns| => UniqueLabel(labels, i))
  }

  /** The `seen` table after the labels `done`: each label seen so far with its count. */
  ghost predicate SeenCounts(seen: map<string, nat>, done: seq<string>) {
    forall l :: (l in seen <==> Count(done, l) > 0) && (l in seen ==> seen[l] == Count(done, l))
  }

  /** One iteration of `_make_unique_columns`: the label column `i` gets and the updated table. */
  function Rename(seen: map<string, nat>, text: string): (string, map<string, nat>) {
    if text in seen then (text + "_" + NatToString(seen[text] + 1), seen[text := seen[text] + 1])
    else (text, seen[text := 1])
  }

  lemma RenameStep(seen: map<string, nat>, labels: seq<string>, i: nat)
    requires i < |labels| && SeenCounts(seen, labels[..i])
    ensures Rename(seen, labels[i]).0 == UniqueLabel(labels, i)
    ensures SeenCounts(Rename(seen, labels[i]).1, labels[..i + 1])
  {
    CountSnoc(labels, i);
  }

  /** `_make_unique_columns`, with its `seen` counter table. */
  method MakeUniqueColumns(columns: seq<Option<string>>) returns (unique: seq<string>)
    ensures unique == UniqueColumns(columns)
  {
    var labels := Labels(columns);
    var seen: map<string, nat> := map[];
    unique := [];
    var i := 0;
    while i < |columns|
      invariant 0 <= i <= |columns|
      invariant |unique| == i
      invariant forall j :: 0 <= j < i ==> unique[j] == UniqueLabel(labels, j)
      invariant SeenCounts(seen, labels[..i])
    {
      var text := Label(columns[i]);
      RenameStep(seen, labels, i);
      var (renamed, seen') := Rename(seen, text);
      unique := unique + [renamed];
      seen := seen';
      i := i + 1;
    }
    assert labels[..i] == labels;
  }

  lemma CountSnoc(labels: seq<string>, i: nat)
    requires i < |labels|
    ensures forall l :: Count(labels[..i + 1], l) == Count(labels[..i], l) + (if labels[i] == l then 1 else 0)
  {
    assert labels[..i + 1][..i] == labels[..i];
  }

  /** One label per column; a column keeps its label the first time the label occurs. */
  lemma UniqueColumnsKeepFirst(columns: seq<Option<string>>, i: nat)
    requires i < |columns|
    requires forall j :: 0 <= j < i ==> Label(columns[j]) != Label(columns[i])
    ensures UniqueColumns(columns)[i] == Label(columns[i])
  {
    CountAbsent(Labels(columns)[..i], Label(columns[i]));
  }

  lemma {:induction false} CountAbsent(s: seq<string>, l: string)
    requires forall j :: 0 <= j < |s| ==> s[j] != l
    ensures Count(s, l) == 0
    decreases |s|
  {
    if s != [] {
      CountAbsent(s[..|s| - 1], l);
    }
  }

  /** The renaming does not guarantee distinct labels: a header `a, a, a_2` gives
      `a, a_2, a_2`. */
  lemma NotAlwaysUnique()
    ensures UniqueColumns([Some("a"), Some("a"), Some("a_2")]) == ["a", "a_2", "a_2"]
  {
    var columns := [Some("a"), Some("a"), Some("a_2")];
    var labels := Labels(columns);
    assert Label(Some("a")) == "a" by { assert !IsSpace("a"[0]); }
    assert Label(Some("a_2")) == "a_2" by { assert !IsSpace("a_2"[0]); }
    assert labels == ["a", "a", "a_2"];
    assert "a" != "a_2";
    assert Count(labels[..1], "a") == 1 by {
      assert labels[..1] == ["a"];
      assert labels[..1][..0] == [];
    }
    assert Count(labels[..2], "a_2") == 0 by {
      assert labels[..2] == ["a", "a"];
      CountAbsent(labels[..2], "a_2");
    }
    assert NatToString(2) == "2";
    assert labels[..0] == [];
    var us := UniqueColumns(columns);
    assert us[0] == "a";
    assert us[1] == "a" + "_" + "2";
    assert us[2] == "a_2";
    assert "a" + "_" + "2" == "a_2";
    assert |us| == 3;
    assert us == ["a", "a_2", "a_2"];
  }

  // ---------------------------------------------------------------- images

  /** `_guess_image_content_type`. */
  function GuessImageContentType(suffix: string): (t: string)
    ensures t == "image/jpeg" || t == "image/png" || t == "image/gif" || t == "image/webp"
         || t == "image/bmp" || t == "image/tiff"
    ensures Lower(suffix) in {".png", ".gif", ".webp", ".bmp", ".tif", ".tiff"} <==> t != "image/jpeg"
    ensures Lower(suffix) == ".png" ==> t == "image/png"
    ensures Lower(suffix) == ".gif" ==> t == "image/gif"
    ensures Lower(suffix) == ".webp" ==> t == "image/webp"
    ensures Lower(suffix) == ".bmp" ==> t == "image/bmp"
    ensures Lower(suffix) in {".tif", ".tiff"} <==> t == "image/tiff"
  {
    var s := Lower(suffix);
    if s == ".png" then "image/png"
    else if s == ".gif" then "image/gif"
    else if s == ".webp" then "image/webp"
    else if s == ".bmp" then "image/bmp"
    else if s == ".tif" || s == ".tiff" then "image/tiff"
    else "image/jpeg"
  }

  /** Upper and lower case give the same content type. */
  lemma ContentTypeIgnoresCase(suffix: string)
    ensures GuessImageContentType(Upper(suffix)) == GuessImageContentType(suffix)
  {
    assert Lower(Upper(suffix)) == Lower(suffix) by {
      forall k | 0 <= k < |suffix| ensures Lower(Upper(suffix))[k] == Lower(suffix)[k] {
        var c := suffix[k];
        assert Upper(suffix)[k] == UpperChar(c);
      }
    }
  }

  const OcrMissing := "图片解析需要启用 OCR，当前未配置 OCR 引擎"

  /** `_process_image`: images convert to no text when OCR is switched on, and are
      refused otherwise. */
  function ProcessImage(params: Dict): (r: Result<string, Exc>)
    ensures r.Ok? <==> Truthy(Lookup(params, "enable_ocr")) && Lookup(params, "enable_ocr") != JStr("disable")
    ensures r.Ok? ==> r.value == ""
    ensures r.Err? ==> r.error == Exc(ValueError, OcrMissing)
  {
    var enableOcr := Lookup(params, "enable_ocr");
    if Truthy(enableOcr) && enableOcr != JStr("disable") then Ok("") else Err(Exc(ValueError, OcrMissing))
  }

  // ---------------------------------------------------------------- docx

  function ImageLink(url: string): (l: string)
    ensures l != ""
  {
    "![image](" + url + ")"
  }

  function ImageLinks(urls: seq<string>): (ls: seq<string>)
    ensures |ls| == |urls| && forall i :: 0 <= i < |urls| ==> ls[i] == ImageLink(urls[i])
  {
    seq(|urls|, i requires 0 <= i < |urls| => ImageLink(urls[i]))
  }

  /** The loop that adds the images of a paragraph to its line. */
  function AddImages(line: string, urls: seq<string>): string
    decreases |urls|
  {
    if urls == [] then line
    else AddImages(if line != "" then line + "\n" + ImageLink(urls[0]) else ImageLink(urls[0]), urls[1..])
  }

  lemma JoinMergeHead(sep: string, a: string, b: string, rest: seq<string>)
    ensures Join(sep, [a + sep + b] + rest) == a + sep + Join(sep, [b] + rest)
  {
    if rest != [] {
      assert ([a + sep + b] + rest)[1..] == rest;
      assert ([b] + rest)[1..] == rest;
    }
  }

  lemma {:induction false} AddImagesJoin(line: string, urls: seq<string>)
    requires line != ""
    ensures AddImages(line, urls) == Join("\n", [line] + ImageLinks(urls))
    decreases |urls|
  {
    if urls != [] {
      var l0 := ImageLink(urls[0]);
      AddImagesJoin(line + "\n" + l0, urls[1..]);
      JoinMergeHead("\n", line, l0, ImageLinks(urls[1..]));
      assert ImageLinks(urls) == [l0] + ImageLinks(urls[1..]);
      assert ([line] + ImageLinks(urls))[1..] == ImageLinks(urls);
    }
  }

  /** The line of one paragraph: its text and one image link per uploaded image, one per
      line, with no empty first line when the paragraph has no text. */
  function DocxLine(text: string, urls: seq<string>): (line: string)
    ensures line == Join("\n", (if text == "" then [] else [text]) + ImageLinks(urls))
    ensures line == "" <==> text == "" && urls == []
  {
    if text != "" then
      AddImagesJoin(text, urls);
      AddImages(text, urls)
    else if urls == [] then ""
    else
      AddImagesJoin(ImageLink(urls[0]), urls[1..]);
      assert [ImageLink(urls[0])] + ImageLinks(urls[1..]) == ImageLinks(urls);
      assert [] + ImageLinks(urls) == ImageLinks(urls);
      AddImages("", urls)
  }

  /** A paragraph with neither text nor images. */
  predicate EmptyParagraph(p: (string, seq<string>)) {
    p.0 == "" && p.1 == []
  }

  /** The non-empty lines of the paragraphs, in order. */
  function DocxLines(paragraphs: seq<(string, seq<string>)>): (lines: seq<string>)
    ensures |lines| <= |paragraphs|
    ensures forall i :: 0 <= i < |lines| ==> lines[i] != ""
    ensures lines == [] <==> forall i :: 0 <= i < |paragraphs| ==> EmptyParagraph(paragraphs[i])
    decreases |paragraphs|
  {
    if paragraphs == [] then []
    else
      assert forall i :: 1 <= i < |paragraphs| ==> paragraphs[i] == paragraphs[1..][i - 1];
      var line := DocxLine(paragraphs[0].0, paragraphs[0].1);
      (if line != "" then [line] else []) + DocxLines(paragraphs[1..])
  }

  /** The markdown of a docx body: the non-empty paragraph lines, blank-line separated.
      It is empty exactly when no paragraph has text or images. */
  function DocxMarkdown(paragraphs: seq<(string, seq<string>)>): (md: string)
    ensures md == "" <==> forall i :: 0 <= i < |paragraphs| ==> EmptyParagraph(paragraphs[i])
    ensures |paragraphs| == 1 ==> md == DocxLine(paragraphs[0].0, paragraphs[0].1)
    ensures |paragraphs| == 2 && !EmptyParagraph(paragraphs[0]) && !EmptyParagraph(paragraphs[1]) ==>
      md == DocxLine(paragraphs[0].0, paragraphs[0].1) + "\n\n" + DocxLine(paragraphs[1].0, paragraphs[1].1)
  {
    var lines := DocxLines(paragraphs);
    if |paragraphs| == 1 then
      assert paragraphs[1..] == [];
      Join("\n\n", lines)
    else if |paragraphs| == 2 && !EmptyParagraph(paragraphs[0]) && !EmptyParagraph(paragraphs[1]) then
      assert paragraphs == [paragraphs[0]] + [paragraphs[1]] && [paragraphs[1]] + [] == [paragraphs[1]];
      DocxLinesCons(paragraphs[0], [paragraphs[1]]);
      DocxLinesCons(paragraphs[1], []);
      assert lines == [DocxLine(paragraphs[0].0, paragraphs[0].1), DocxLine(paragraphs[1].0, paragraphs[1].1)];
      JoinCons("\n\n", lines[0], [lines[1]]);
      assert lines == [lines[0]] + [lines[1]];
      Join("\n\n", lines)
    else Join("\n\n", lines)
  }

  lemma DocxLinesCons(p: (string, seq<string>), rest: seq<(string, seq<string>)>)
    ensures DocxLines([p] + rest)
         == (if DocxLine(p.0, p.1) != "" then [DocxLine(p.0, p.1)] else []) + DocxLines(rest)
  {
    ConsParts(p, rest);
  }

  /** A paragraph with text or images is followed by a blank line and the markdown of
      the paragraphs after it, when any of those has text or images. */
  lemma DocxMarkdownCons(p: (string, seq<string>), rest: seq<(string, seq<string>)>)
    requires !EmptyParagraph(p)
    requires DocxMarkdown(rest) != ""
    ensures DocxMarkdown([p] + rest) == DocxLine(p.0, p.1) + "\n\n" + DocxMarkdown(rest)
  {
    DocxLinesCons(p, rest);
    JoinCons("\n\n", DocxLine(p.0, p.1), DocxLines(rest));
  }

  /** A paragraph with neither text nor images leaves no trace, wherever it stands. */
  lemma {:induction false} EmptyParagraphDropped(before: seq<(string, seq<string>)>, after: seq<(string, seq<string>)>)
    ensures DocxLines(before + ([("", [])] + after)) == DocxLines(before + after)
    ensures DocxMarkdown(before + ([("", [])] + after)) == DocxMarkdown(before + after)
    decreases |before|
  {
    var mid := [("", [])] + after;
    if before == [] {
      assert before + mid == mid && before + after == after;
      DocxLinesCons(("", []), after);
    } else {
      EmptyParagraphDropped(before[1..], after);
      Uncons(before, mid);
      Uncons(before, after);
      DocxLinesCons(before[0], before[1..] + mid);
      DocxLinesCons(before[0], before[1..] + after);
    }
  }

  // ---------------------------------------------------------------- Excel

  const RowsPerBlock: nat := 10

  /** The number of data rows of a sheet with `rows` rows: the first is the header. */
  function DataRows(rows: nat): nat {
    if rows > 1 then rows - 1 else 0
  }

  /** `range(0, n, 10)`: the 0-based first rows of the blocks. */
  function BlockStarts(n: nat): (starts: seq<nat>)
    ensures |starts| == (n + RowsPerBlock - 1) / RowsPerBlock
    ensures forall k :: 0 <= k < |starts| ==> starts[k] == k * RowsPerBlock && starts[k] < n
  {
    seq((n + RowsPerBlock - 1) / RowsPerBlock, k requires 0 <= k => k * RowsPerBlock)
  }

  /** The (first, last) row numbers of the blocks of a sheet with `n` data rows, as
      `idx + 1` and `min(idx + chunk_size, len(df))` for each start `idx`. */
  function RowBlocks(n: nat): (bs: seq<(nat, nat)>)
    ensures |bs| == |BlockStarts(n)|
    ensures forall k :: 0 <= k < |bs| ==>
      bs[k] == (BlockStarts(n)[k] + 1, if BlockStarts(n)[k] + RowsPerBlock < n then BlockStarts(n)[k] + RowsPerBlock else n)
  {
    var starts := BlockStarts(n);
    seq(|starts|, k requires 0 <= k < |starts| =>
      (starts[k] + 1, if starts[k] + RowsPerBlock < n then starts[k] + RowsPerBlock else n))
  }

  /** The blocks cut rows 1..n into consecutive runs: none for an empty sheet, the first
      from row 1, each next one right after the previous, all of ten rows but the last,
      which ends at row n. */
  lemma BlocksPartition(n: nat)
    ensures var bs := RowBlocks(n);
      && (n == 0 <==> bs == [])
      && (bs != [] ==> bs[0].0 == 1 && bs[|bs| - 1].1 == n)
      && (forall k :: 0 <= k < |bs| ==> 1 <= bs[k].0 <= bs[k].1 <= n && bs[k].1 - bs[k].0 < RowsPerBlock)
      && (forall k :: 0 <= k < |bs| - 1 ==> bs[k + 1].0 == bs[k].1 + 1 && bs[k].1 - bs[k].0 + 1 == RowsPerBlock)
  {
    var bs := RowBlocks(n);
    if bs != [] {
      var last := |bs| - 1;
      assert last * 10 + 10 >= n by {
        assert |bs| == (n + 9) / 10;
      }
    }
  }

  /** Row `r` lies in block `(r - 1) / 10`. */
  lemma RowsCovered(n: nat, r: nat)
    requires 1 <= r <= n
    ensures (r - 1) / RowsPerBlock < |RowBlocks(n)|
    ensures RowBlocks(n)[(r - 1) / RowsPerBlock].0 <= r <= RowBlocks(n)[(r - 1) / RowsPerBlock].1
  {
    var q := (r - 1) / 10;
    assert q * 10 <= r - 1 < q * 10 + 10;
    assert q < (n + 9) / 10;
  }

  /** The heading of one block. */
  function BlockHeading(block: (nat, nat)): string {
    "### 数据行 " + NatToString(block.0) + "-" + NatToString(block.1)
  }

  /** The headings of a sheet with `n` data rows, in order: heading `k` names the
      first and last row of block `k`. */
  function BlockHeadings(n: nat): (hs: seq<string>)
    ensures |hs| == |RowBlocks(n)|
    ensures forall k :: 0 <= k < |hs| ==> hs[k] == BlockHeading(RowBlocks(n)[k])
    ensures forall k :: 0 <= k < |hs| ==>
      hs[k] == "### 数据行 " + NatToString(k * RowsPerBlock + 1) + "-" + NatToString(RowBlocks(n)[k].1)
  {
    var bs := RowBlocks(n);
    seq(|bs|, k requires 0 <= k < |bs| => BlockHeading(bs[k]))
  }
}
