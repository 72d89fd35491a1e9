/**
 * The name of the generated page: "replay_for_" followed by the input's file
 * name without its last extension, then ".html". `os.path.basename` and
 * `os.path.splitext` are modelled for POSIX paths ('/' is the only separator).
 */
module OutputName {

  const Prefix: string := "replay_for_"
  const Suffix: string := ".html"

  /** Position of the last occurrence of `c` in `s`, or -1. */
  function LastIndexOf(s: string, c: char): (r: int)
    ensures -1 <= r < |s|
    ensures r >= 0 ==> s[r] == c
    ensures forall i :: r < i < |s| ==> s[i] != c
    decreases |s|
  {
    if |s| == 0 then -1
    else if s[|s| - 1] == c then |s| - 1
    else LastIndexOf(s[..|s| - 1], c)
  }

  /** The last-occurrence contract determines the position. */
  lemma LastIndexOfIs(s: string, c: char, k: int)
    requires -1 <= k < |s|
    requires k >= 0 ==> s[k] == c
    requires forall i :: k < i < |s| ==> s[i] != c
    ensures LastIndexOf(s, c) == k
  {
    var r := LastIndexOf(s, c);
    assert r >= 0 ==> s[r] == c;
    assert k >= 0 ==> s[k] == c;
  }

  /** `os.path.basename`: everything after the last '/'. */
  function Basename(path: string): (b: string)
    ensures '/' !in b
    ensures |b| <= |path| && path[|path| - |b|..] == b
    ensures |b| < |path| ==> path[|path| - |b| - 1] == '/'
  {
    path[LastIndexOf(path, '/') + 1..]
  }

  predicate AllDots(s: string)
  {
    forall i :: 0 <= i < |s| ==> s[i] == '.'
  }

  /**
   * `os.path.splitext` of a name with no '/': the extension runs from the
   * last '.' to the end, unless only dots come before that '.' (".bashrc",
   * "..x"), in which case there is no extension.
   */
  function SplitExt(name: string): (parts: (string, string))
    requires '/' !in name
    ensures parts.0 + parts.1 == name
    ensures parts.1 != [] ==> parts.1[0] == '.' && '.' !in parts.1[1..] && !AllDots(parts.0)
    ensures parts.1 != [] <==> exists i :: 0 <= i < |name| && name[i] == '.' && !AllDots(name[..i])
  {
    var dot := LastIndexOf(name, '.');
    if dot >= 0 && !AllDots(name[..dot]) then
      var ext := name[dot..];
      assert forall i :: 1 <= i < |ext| ==> ext[i] == name[dot + i];
      (name[..dot], ext)
    else
      NoSplitPoint(name, dot);
      (name, "")
  }

  /** When the last '.' has only dots before it (or there is none), no '.' has a non-dot before it. */
  lemma NoSplitPoint(name: string, dot: int)
    requires dot == LastIndexOf(name, '.')
    requires dot < 0 || AllDots(name[..dot])
    ensures forall i :: 0 <= i < |name| && name[i] == '.' ==> AllDots(name[..i])
  {
    forall i | 0 <= i < |name| && name[i] == '.'
      ensures AllDots(name[..i])
    {
      assert i <= dot;
      assert forall j :: 0 <= j < i ==> name[..i][j] == name[..dot][j];
    }
  }

  /** The file name without its last extension: `os.path.splitext(name)[0]`. */
  function Stem(name: string): (stem: string)
    requires '/' !in name
    ensures |stem| <= |name| && name[..|stem|] == stem
  {
    SplitExt(name).0
  }

  lemma NoSlashInPrefix(s: string, k: nat)
    requires k <= |s| && '/' !in s
    ensures '/' !in s[..k]
  {
    assert forall i :: 0 <= i < k ==> s[..k][i] == s[i];
  }

  lemma NoSlashInJoin(stem: string)
    requires '/' !in stem
    ensures var out := Prefix + stem + Suffix;
            '/' !in out && out[..|Prefix|] == Prefix && out[|out| - |Suffix|..] == Suffix
  {
    assert forall i :: 0 <= i < |Prefix| ==> Prefix[i] != '/';
    assert forall i :: 0 <= i < |Suffix| ==> Suffix[i] != '/';
  }

  /** The name of the file the page is written to, in the working directory. */
  function OutputFilename(path: string): (out: string)
    ensures |out| >= |Prefix| + |Suffix|
    ensures out[..|Prefix|] == Prefix && out[|out| - |Suffix|..] == Suffix
    ensures '/' !in out
  {
    var base := Basename(path);
    var stem := Stem(base);
    NoSlashInPrefix(base, |stem|);
    NoSlashInJoin(stem);
    Prefix + stem + Suffix
  }

  /** The base name of a directory part followed by a name without '/' is that name. */
  lemma {:induction false} BasenameOf(dir: string, file: string)
    requires dir == [] || dir[|dir| - 1] == '/'
    requires '/' !in file
    ensures Basename(dir + file) == file
  {
    var path := dir + file;
    assert forall i :: |dir| <= i < |path| ==> path[i] == file[i - |dir|];
    LastIndexOfIs(path, '/', |dir| - 1);
  }

  /** Removing one extension that has no other '.' gives back the name. */
  lemma {:induction false} StemOf(name: string, ext: string)
    requires '/' !in name && '/' !in ext
    requires '.' !in ext && !AllDots(name)
    ensures Stem(name + "." + ext) == name
  {
    var file := name + "." + ext;
    assert forall i :: |name| < i < |file| ==> file[i] == ext[i - |name| - 1];
    LastIndexOfIs(file, '.', |name|);
    assert file[..|name|] == name;
  }

  /** A name in which every '.' has only dots before it (".env", "data") is its own stem. */
  lemma {:induction false} StemOfWhole(name: string)
    requires '/' !in name
    requires forall i :: 0 <= i < |name| && name[i] == '.' ==> AllDots(name[..i])
    ensures Stem(name) == name
  {
  }

  /**
   * A path made of a directory part, a name and one extension gives
   * "replay_for_<name>.html", whatever the directory.
   */
  lemma OutputFilenameOf(dir: string, name: string, ext: string)
    requires dir == [] || dir[|dir| - 1] == '/'
    requires '/' !in name && '/' !in ext && '.' !in ext
    requires !AllDots(name)
    ensures OutputFilename(dir + name + "." + ext) == Prefix + name + Suffix
  {
    assert dir + name + "." + ext == dir + (name + "." + ext);
    BasenameOf(dir, name + "." + ext);
    StemOf(name, ext);
  }

  /**
   * A path whose base name has no split point ("cfg/.env", "data") gives
   * "replay_for_<name>.html" with the whole name kept.
   */
  lemma OutputFilenameWhole(dir: string, name: string)
    requires dir == [] || dir[|dir| - 1] == '/'
    requires '/' !in name
    requires forall i :: 0 <= i < |name| && name[i] == '.' ==> AllDots(name[..i])
    ensures OutputFilename(dir + name) == Prefix + name + Suffix
  {
    BasenameOf(dir, name);
    StemOfWhole(name);
  }

  /** The path the program is usually given. */
  lemma CsvExample(path: string)
    requires path == "dir/data.csv"
    ensures OutputFilename(path) == "replay_for_" + "data" + ".html"
  {
    assert "data"[0] != '.';
    assert path == "dir/" + "data" + "." + "csv";
    OutputFilenameOf("dir/", "data", "csv");
  }

  /** A name that starts with its only dot has no extension to remove. */
  lemma DotfileExample(path: string)
    requires path == "cfg/.env"
    ensures OutputFilename(path) == "replay_for_" + ".env" + ".html"
  {
    assert path == "cfg/" + ".env";
    BasenameOf("cfg/", ".env");
    assert forall i :: 0 < i < 4 ==> ".env"[i] != '.';
    StemOfWhole(".env");
  }

  /** Only the last extension is removed. */
  lemma TwoExtensionsExample(path: string)
    requires path == "in/a.b.csv"
    ensures OutputFilename(path) == "replay_for_" + "a.b" + ".html"
  {
    assert "a.b"[0] != '.';
    assert path == "in/" + "a.b" + "." + "csv";
    OutputFilenameOf("in/", "a.b", "csv");
  }
}
