/**
 * Filesystem paths as pathlib builds them, and the upward search for the
 * nearest pyproject.toml.
 *
 * A path is rooted or relative and holds its components; `Path(".")` has no
 * components. Joining with a rooted right-hand side replaces the left-hand
 * side, as pathlib's `/` does.
 */
module Paths {
  import opened PyValues

  datatype Path = Path(absolute: bool, parts: seq<string>)

  const ManifestName := "pyproject.toml"

  function Sep(windows: bool): char {
    if windows then '\\' else '/'
  }

  /** A component pathlib keeps: non-empty, not ".", no separator in it. */
  predicate NormalPart(x: string, windows: bool) {
    x != "" && x != "." && '/' !in x && (windows ==> '\\' !in x)
  }

  predicate Normal(p: Path, windows: bool) {
    forall k :: 0 <= k < |p.parts| ==> NormalPart(p.parts[k], windows)
  }

  /** Windows pathlib reads '/' as its alternative separator. */
  function ToNativeSeps(s: string, windows: bool): (r: string)
    ensures |r| == |s|
    ensures windows ==> '/' !in r
    ensures !windows || '/' !in s ==> r == s
  {
    if s == [] then []
    else [if windows && s[0] == '/' then '\\' else s[0]] + ToNativeSeps(s[1..], windows)
  }

  /** The components pathlib keeps from the pieces between separators. */
  function KeptParts(pieces: seq<string>): (r: seq<string>)
    ensures forall k :: 0 <= k < |r| ==> r[k] != "" && r[k] != "."
    ensures forall k :: 0 <= k < |r| ==> r[k] in pieces
  {
    if pieces == [] then []
    else if pieces[0] == "" || pieces[0] == "." then KeptParts(pieces[1..])
    else [pieces[0]] + KeptParts(pieces[1..])
  }

  /** `Path(s)`: split at separators, dropping empty and "." components. */
  function ParsePath(s: string, windows: bool): (p: Path)
    ensures Normal(p, windows)
    ensures p.absolute <==> s != [] && (s[0] == Sep(windows) || (windows && s[0] == '/'))
  {
    var n := ToNativeSeps(s, windows);
    var pieces := SplitOn(n, Sep(windows));
    assert forall k :: 0 <= k < |pieces| ==> '/' !in pieces[k] by {
      forall k | 0 <= k < |pieces| ensures '/' !in pieces[k] {
        if !windows { assert Sep(windows) == '/'; } else { NoCharInPieces(n, '\\', '/'); }
      }
    }
    Path(n != [] && n[0] == Sep(windows), KeptParts(pieces))
  }

  lemma {:induction false} NoCharInPieces(s: string, c: char, d: char)
    requires d !in s
    ensures forall k :: 0 <= k < |SplitOn(s, c)| ==> d !in SplitOn(s, c)[k]
  {
    if s != [] {
      NoCharInPieces(s[1..], c, d);
    }
  }

  /** `a / b` */
  function Join(a: Path, b: Path): (r: Path)
    ensures b.absolute ==> r == b
    ensures !b.absolute ==> r.absolute == a.absolute && r.parts == a.parts + b.parts
  {
    if b.absolute then b else Path(a.absolute, a.parts + b.parts)
  }

  /** `p.parent`; the parent of a root (or of ".") is itself. */
  function Parent(p: Path): (r: Path)
    ensures r.absolute == p.absolute
    ensures p.parts != [] ==> r.parts + [p.parts[|p.parts| - 1]] == p.parts
    ensures p.parts == [] ==> r == p
  {
    if p.parts == [] then p else Path(p.absolute, p.parts[..|p.parts| - 1])
  }

  /** `str(p)` */
  function Render(p: Path, windows: bool): string {
    var sep := [Sep(windows)];
    if p.absolute then sep + JoinWith(p.parts, sep)
    else if p.parts == [] then "."
    else JoinWith(p.parts, sep)
  }

  /** Reading back a rendered path gives the path. */
  lemma RenderParse(p: Path, windows: bool)
    requires Normal(p, windows)
    ensures ParsePath(Render(p, windows), windows) == p
  {
    var c := Sep(windows);
    var s := Render(p, windows);
    if p.parts == [] {
      if p.absolute {
        assert s == [c];
        assert ToNativeSeps(s, windows) == s by { assert windows ==> '/' !in s; }
        assert SplitOn([c], c) == ["", ""] by { assert [c][1..] == []; }
        assert KeptParts(["", ""]) == [] by { assert ["", ""][1..] == [""]; }
      } else {
        assert s == ".";
      }
    } else {
      forall k | 0 <= k < |p.parts| ensures c !in p.parts[k] {
        assert NormalPart(p.parts[k], windows);
      }
      SplitJoin(p.parts, c);
      KeptAllNormal(p.parts, windows);
      NoSlashInJoin(p.parts, windows);
      var j := JoinWith(p.parts, [c]);
      if p.absolute {
        assert s == [c] + j;
        assert ([c] + j)[1..] == j;
        assert SplitOn(s, c) == [""] + SplitOn(j, c);
        assert ToNativeSeps(s, windows) == s;
      } else {
        assert s == j;
        assert ToNativeSeps(s, windows) == s;
        assert s[0] == p.parts[0][0];
      }
    }
  }

  lemma {:induction false} KeptAllNormal(xs: seq<string>, windows: bool)
    requires forall k :: 0 <= k < |xs| ==> NormalPart(xs[k], windows)
    ensures KeptParts(xs) == xs
  {
    if xs != [] {
      KeptAllNormal(xs[1..], windows);
      assert [xs[0]] + xs[1..] == xs;
    }
  }

  lemma {:induction false} NoSlashInJoin(xs: seq<string>, windows: bool)
    requires forall k :: 0 <= k < |xs| ==> NormalPart(xs[k], windows)
    ensures '/' !in JoinWith(xs, [Sep(windows)]) || !windows
  {
    if |xs| > 1 {
      NoSlashInJoin(xs[1..], windows);
    }
  }

  /** `[cwd, *cwd.parents]`: the directory itself, then each ancestor up to the root. */
  function Candidates(cwd: Path): (r: seq<Path>)
    ensures |r| == |cwd.parts| + 1 && r[0] == cwd
    ensures r[|r| - 1].parts == []
    ensures forall i :: 0 < i < |r| ==> r[i] == Parent(r[i - 1])
  {
    var n := |cwd.parts|;
    assert cwd.parts[..n] == cwd.parts;
    seq(n + 1, i requires 0 <= i <= n => Path(cwd.absolute, cwd.parts[..n - i]))
  }

  /** `dir / "pyproject.toml"` */
  function ManifestIn(dir: Path): (r: Path)
    ensures Parent(r) == dir
  {
    Join(dir, Path(false, [ManifestName]))
  }

  /** The nearest manifest among `dirs[from..]`. */
  function FirstManifest(dirs: seq<Path>, pathExists: Path -> bool, from: nat): (r: Option<Path>)
    requires from <= |dirs|
    ensures r.Some? ==> pathExists(r.value) && Parent(r.value) in dirs[from..]
    decreases |dirs| - from
  {
    if from == |dirs| then None
    else if pathExists(ManifestIn(dirs[from])) then Some(ManifestIn(dirs[from]))
    else FirstManifest(dirs, pathExists, from + 1)
  }

  /** The search finds nothing exactly when no directory has a manifest, and otherwise finds the first one. */
  lemma {:induction false} FirstManifestNearest(dirs: seq<Path>, pathExists: Path -> bool, from: nat)
    requires from <= |dirs|
    ensures FirstManifest(dirs, pathExists, from).None? <==> forall j :: from <= j < |dirs| ==> !pathExists(ManifestIn(dirs[j]))
    ensures FirstManifest(dirs, pathExists, from).Some? ==>
              exists i :: from <= i < |dirs| && FirstManifest(dirs, pathExists, from).value == ManifestIn(dirs[i]) &&
                          forall j :: from <= j < i ==> !pathExists(ManifestIn(dirs[j]))
    decreases |dirs| - from
  {
    if from < |dirs| {
      if pathExists(ManifestIn(dirs[from])) {
        assert FirstManifest(dirs, pathExists, from).value == ManifestIn(dirs[from]);
      } else {
        FirstManifestNearest(dirs, pathExists, from + 1);
        if FirstManifest(dirs, pathExists, from + 1).Some? {
          var i :| from + 1 <= i < |dirs| && FirstManifest(dirs, pathExists, from + 1).value == ManifestIn(dirs[i]) &&
                   forall j :: from + 1 <= j < i ==> !pathExists(ManifestIn(dirs[j]));
          assert forall j :: from <= j < i ==> !pathExists(ManifestIn(dirs[j]));
        }
      }
    }
  }

  /** The pyproject.toml of `cwd` or of its nearest ancestor that has one. */
  function Locate(cwd: Path, pathExists: Path -> bool): Option<Path> {
    FirstManifest(Candidates(cwd), pathExists, 0)
  }

  /** `find_pyproject_file_from`, for an already resolved directory. */
  method FindPyprojectFile(cwd: Path, pathExists: Path -> bool) returns (r: Option<Path>)
    ensures r == Locate(cwd, pathExists)
  {
    var candidateDirs := Candidates(cwd);
    var i := 0;
    while i < |candidateDirs|
      invariant 0 <= i <= |candidateDirs|
      invariant FirstManifest(candidateDirs, pathExists, i) == Locate(cwd, pathExists)
    {
      var pyprojectFile := ManifestIn(candidateDirs[i]);
      if pathExists(pyprojectFile) {
        return Some(pyprojectFile);
      }
      i := i + 1;
    }
    return None;
  }

  /** `get_venv_bin_python`: `base / ("Scripts" | "bin") / ("python.exe" | "python")`. */
  function VenvBinPython(base: Path, windows: bool): (r: Path)
    ensures r.absolute == base.absolute
    ensures Parent(Parent(r)) == base
    ensures |r.parts| == |base.parts| + 2
    ensures r.parts[|r.parts| - 1] == (if windows then "python.exe" else "python")
    ensures Parent(r).parts[|Parent(r).parts| - 1] == (if windows then "Scripts" else "bin")
  {
    Join(base, Path(false, [if windows then "Scripts" else "bin", if windows then "python.exe" else "python"]))
  }
}
