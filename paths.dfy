/**
 * The three POSIX `os.path` operations the converter uses to derive an output
 * file name: `basename`, `splitext` and `join`, over `/`-separated paths.
 */
module Paths {

  /** The index of the last `c` among the first `n` characters of `s`, or -1. */
  function LastIndexBefore(s: string, c: char, n: nat): (r: int)
    requires n <= |s|
    ensures -1 <= r < n
    ensures r >= 0 ==> s[r] == c
    ensures forall j :: r < j < n ==> s[j] != c
  {
    if n == 0 then -1
    else if s[n - 1] == c then n - 1
    else LastIndexBefore(s, c, n - 1)
  }

  /** `s.rfind(c)`: the index of the last `c` in `s`, or -1 when there is none. */
  function RFind(s: string, c: char): (r: int)
    ensures -1 <= r < |s|
  {
    LastIndexBefore(s, c, |s|)
  }

  /** `os.path.basename(p)`: everything after the last `/`. */
  function Basename(p: string): string
  {
    p[RFind(p, '/') + 1..]
  }

  predicate AllDots(s: string)
  {
    forall j :: 0 <= j < |s| ==> s[j] == '.'
  }

  /** `os.path.splitext(p)` as `posixpath` does it: the extension starts at
      the last `.` after the last `/`, unless everything between that `/` and
      the dot is dots (so ".profile" and "..x" have no extension). */
  function SplitExt(p: string): (string, string)
  {
    var sepIndex := RFind(p, '/');
    var dotIndex := RFind(p, '.');
    if dotIndex > sepIndex && !AllDots(p[sepIndex + 1..dotIndex]) then (p[..dotIndex], p[dotIndex..])
    else (p, [])
  }

  /** The root part of `os.path.splitext(name)`. */
  function Stem(name: string): string
  {
    SplitExt(name).0
  }

  /** `os.path.join(a, b)` with two components. */
  function Join(a: string, b: string): string
  {
    if |b| > 0 && b[0] == '/' then b
    else if a == [] || a[|a| - 1] == '/' then a + b
    else a + "/" + b
  }

  /** converter.py's output path: the input's base name, its last extension
      replaced by ".mp4", inside the output directory. */
  function OutputPath(outputDir: string, inputFile: string): string
  {
    Join(outputDir, Stem(Basename(inputFile)) + ".mp4")
  }

  /** `rfind` finds `i` when `s[i]` is `c` and no later character is. */
  lemma RFindIs(s: string, c: char, i: int)
    requires -1 <= i < |s|
    requires i >= 0 ==> s[i] == c
    requires forall j :: i < j < |s| ==> s[j] != c
    ensures RFind(s, c) == i
  {
  }

  /** The base name is the part of the path after its last `/`: a suffix of
      the path with no `/` in it, preceded by a `/` unless it is the whole
      path. */
  lemma BasenameSpec(p: string)
    ensures var r := Basename(p);
            && '/' !in r
            && |r| <= |p| && r == p[|p| - |r|..]
            && (|r| < |p| ==> p[|p| - |r| - 1] == '/')
  {
    var i := RFind(p, '/');
    var r := p[i + 1..];
    forall j | 0 <= j < |r|
      ensures r[j] != '/'
    {
      assert r[j] == p[i + 1 + j];
    }
  }

  /** A path with a `/` at `i` and none after it has base name `p[i + 1..]`. */
  lemma BasenameAfter(p: string, i: nat)
    requires i < |p| && p[i] == '/'
    requires forall j :: i < j < |p| ==> p[j] != '/'
    ensures Basename(p) == p[i + 1..]
  {
    RFindIs(p, '/', i);
  }

  /** A name without `/` is its own base name. */
  lemma BasenameOfName(name: string)
    requires '/' !in name
    ensures Basename(name) == name
  {
    RFindIs(name, '/', -1);
  }

  /** `splitext` splits the path into a root and an extension that concatenate
      back to it; the extension is empty or one dot followed by no dot and no
      `/`. */
  lemma SplitExtSpec(p: string)
    ensures var r := SplitExt(p);
            && r.0 + r.1 == p
            && (r.1 == [] || (r.1[0] == '.' && '.' !in r.1[1..] && '/' !in r.1))
  {
    var sepIndex := RFind(p, '/');
    var dotIndex := RFind(p, '.');
    if dotIndex > sepIndex && !AllDots(p[sepIndex + 1..dotIndex]) {
      ExtensionAfter(p, dotIndex, sepIndex);
    }
  }

  /** The piece from the last `.` on, when that dot follows the last `/`:
      the path splits there, and the piece has no other dot and no `/`. */
  lemma ExtensionAfter(p: string, dotIndex: nat, sepIndex: int)
    requires dotIndex == RFind(p, '.') && sepIndex == RFind(p, '/') && dotIndex > sepIndex
    ensures p[..dotIndex] + p[dotIndex..] == p
    ensures var ext := p[dotIndex..]; ext[0] == '.' && '.' !in ext[1..] && '/' !in ext
  {
    var ext := p[dotIndex..];
    forall j | 0 <= j < |ext|
      ensures ext[j] == p[dotIndex + j]
      ensures j > 0 ==> ext[j] != '.'
      ensures ext[j] != '/'
    {
    }
    assert '.' !in ext[1..] by {
      forall j | 0 <= j < |ext[1..]| ensures ext[1..][j] != '.' {
        assert ext[1..][j] == ext[j + 1];
      }
    }
  }

  /** `join` gives `b` when it is absolute; otherwise it starts with `a`, ends
      with `b` and puts a `/` between them when `a` is non-empty. */
  lemma JoinSpec(a: string, b: string)
    ensures |b| > 0 && b[0] == '/' ==> Join(a, b) == b
    ensures !(|b| > 0 && b[0] == '/') ==>
              var r := Join(a, b);
              && |r| >= |a| + |b| && r[..|a|] == a && r[|r| - |b|..] == b
              && (a != [] ==> r[|r| - |b| - 1] == '/')
    ensures !(|b| > 0 && b[0] == '/') ==>
              |Join(a, b)| == |a| + |b| + (if a == [] || a[|a| - 1] == '/' then 0 else 1)
  {
    if !(|b| > 0 && b[0] == '/') && a != [] && a[|a| - 1] != '/' {
      var r := a + "/" + b;
      assert r[..|a|] == a;
      assert r[|r| - |b|..] == b;
    }
  }

  /** A component without `/` is the base name of any path joined from it. */
  lemma BasenameOfJoin(dir: string, name: string)
    requires name != [] && '/' !in name
    ensures Basename(Join(dir, name)) == name
  {
    JoinSpec(dir, name);
    var p := Join(dir, name);
    assert p[|p| - |name|..] == name;
    if dir != [] {
      BasenameAfter(p, |p| - |name| - 1);
    } else {
      assert p == name;
      BasenameOfName(name);
    }
  }

  /** `splitext` of a name `root + ext`, where `ext` is a dot followed by no
      other dot and `root` is not all dots, splits it exactly there. */
  lemma SplitExtOfName(root: string, ext: string)
    requires '/' !in root && '/' !in ext
    requires |ext| >= 1 && ext[0] == '.' && '.' !in ext[1..]
    requires !AllDots(root)
    ensures SplitExt(root + ext) == (root, ext)
  {
    var p := root + ext;
    RFindIs(p, '/', -1);
    forall j | |root| < j < |p| ensures p[j] != '.' {
      assert p[j] == ext[1..][j - |root| - 1];
    }
    RFindIs(p, '.', |root|);
    assert p[0..|root|] == root;
    assert p[..|root|] == root;
    assert p[|root|..] == ext;
  }

  /** The stem of a name without `/` has no `/` either. */
  lemma StemHasNoSlash(name: string)
    requires '/' !in name
    ensures '/' !in Stem(name)
  {
    SplitExtSpec(name);
    var r := SplitExt(name);
    assert forall j :: 0 <= j < |r.0| ==> r.0[j] == name[j];
  }

  /** The output file is named `stem + ".mp4"` and sits directly in the output
      directory: its base name is exactly that, and the path starts with the
      directory, followed by a `/` before the name when the directory is not
      empty. */
  lemma OutputPathSpec(outputDir: string, inputFile: string)
    ensures Basename(OutputPath(outputDir, inputFile)) == Stem(Basename(inputFile)) + ".mp4"
    ensures OutputPath(outputDir, inputFile)[..|outputDir|] == outputDir
    ensures outputDir != [] ==>
              var p := OutputPath(outputDir, inputFile);
              var name := Stem(Basename(inputFile)) + ".mp4";
              p[|p| - |name| - 1] == '/'
    ensures |OutputPath(outputDir, inputFile)|
            == |outputDir| + |Stem(Basename(inputFile)) + ".mp4"|
               + (if outputDir == [] || outputDir[|outputDir| - 1] == '/' then 0 else 1)
  {
    var stem := Stem(Basename(inputFile));
    OutputNameSpec(inputFile);
    JoinSpec(outputDir, stem + ".mp4");
    BasenameOfJoin(outputDir, stem + ".mp4");
  }

  /** The output file name is non-empty, contains no `/` and does not start
      with one. */
  lemma OutputNameSpec(inputFile: string)
    ensures var name := Stem(Basename(inputFile)) + ".mp4";
            name != [] && '/' !in name && name[0] != '/'
  {
    var stem := Stem(Basename(inputFile));
    var name := stem + ".mp4";
    BasenameSpec(inputFile);
    StemHasNoSlash(Basename(inputFile));
    forall j | 0 <= j < |name|
      ensures name[j] != '/'
    {
      if j < |stem| {
        assert name[j] == stem[j];
      }
    }
  }

  /** The output path of an input whose base name is `root + ext`, with `ext`
      its one extension, is the directory joined with `root + ".mp4"`. */
  lemma OutputPathReplacesExtension(outputDir: string, inputFile: string, root: string, ext: string)
    requires Basename(inputFile) == root + ext
    requires |ext| >= 1 && ext[0] == '.' && '.' !in ext[1..]
    requires !AllDots(root)
    ensures OutputPath(outputDir, inputFile) == Join(outputDir, root + ".mp4")
  {
    BasenameSpec(inputFile);
    assert '/' !in root && '/' !in ext by {
      assert forall x :: x in root ==> x in root + ext;
      assert forall x :: x in ext ==> x in root + ext;
    }
    SplitExtOfName(root, ext);
  }

  /** Only the final extension is replaced: "a.b" + ".mkv" in any folder
      becomes "a.b" + ".mp4" in the output directory. */
  lemma ReplacesLastExtensionOnly(outputDir: string, dir: string)
    ensures OutputPath(outputDir, dir + "/" + ("a.b" + ".mkv")) == Join(outputDir, "a.b" + ".mp4")
  {
    assert '/' !in "a.b" + ".mkv";
    NameInFolder(dir, "a.b" + ".mkv");
    assert "a.b"[0] != '.';
    OutputPathReplacesExtension(outputDir, dir + "/" + ("a.b" + ".mkv"), "a.b", ".mkv");
  }

  /** A name whose only dot leads it has no extension in posix `splitext`:
      ".hidden" becomes ".hidden" + ".mp4". */
  lemma LeadingDotIsNotAnExtension(outputDir: string, dir: string)
    ensures OutputPath(outputDir, dir + "/" + ".hidden") == Join(outputDir, ".hidden" + ".mp4")
  {
    var name := ".hidden";
    assert '/' !in name;
    NameInFolder(dir, name);
    RFindIs(name, '/', -1);
    RFindIs(name, '.', 0);
    assert name[0..0] == [];
    assert Stem(name) == name;
  }

  /** Output names can collide: inputs in different folders, or with
      different extensions, whose names share a stem give one output path,
      and the later conversion overwrites the earlier one. */
  lemma OutputPathsCanCollide(outputDir: string, dir1: string, dir2: string, root: string, ext1: string, ext2: string)
    requires '/' !in root && !AllDots(root)
    requires '/' !in ext1 && |ext1| >= 1 && ext1[0] == '.' && '.' !in ext1[1..]
    requires '/' !in ext2 && |ext2| >= 1 && ext2[0] == '.' && '.' !in ext2[1..]
    ensures OutputPath(outputDir, dir1 + "/" + root + ext1) == OutputPath(outputDir, dir2 + "/" + root + ext2)
            == Join(outputDir, root + ".mp4")
  {
    assert '/' !in root + ext1 && '/' !in root + ext2;
    NameInFolder(dir1, root + ext1);
    NameInFolder(dir2, root + ext2);
    assert dir1 + "/" + root + ext1 == dir1 + "/" + (root + ext1);
    assert dir2 + "/" + root + ext2 == dir2 + "/" + (root + ext2);
    OutputPathReplacesExtension(outputDir, dir1 + "/" + root + ext1, root, ext1);
    OutputPathReplacesExtension(outputDir, dir2 + "/" + root + ext2, root, ext2);
  }

  /** The base name of `dir + "/" + name` is `name` when it has no `/`. */
  lemma NameInFolder(dir: string, name: string)
    requires '/' !in name
    ensures Basename(dir + "/" + name) == name
  {
    var p := dir + "/" + name;
    forall j | |dir| < j < |p|
      ensures p[j] != '/'
    {
      assert p[j] == name[j - |dir| - 1];
    }
    BasenameAfter(p, |dir|);
    assert p[|dir| + 1..] == name;
  }
}
