/**
 * `findUp(pathName, startDir, endDir)`: search `startDir` and then its
 * ancestors for the first existing path among a list of candidate names.
 * The file system is the set `existing` of paths that exist.
 */
module FindUp {
  import opened Common
  import opened Paths

  /** `pathName: string | string[]`. */
  datatype PathNames = OneName(name: string) | ManyNames(names: seq<string>)

  /** A single name is a list of one (`Array.isArray(pathName) ? pathName : [pathName]`). */
  function NameList(pathName: PathNames): seq<string> {
    match pathName
    case OneName(n) => [n]
    case ManyNames(ns) => ns
  }

  /** The path probed for candidate `p` in `dir`: an absolute candidate normalised, a relative one resolved against `dir`. */
  function Candidate(dir: Path, p: string): Path {
    if IsAbsolute(p) then Resolve([], p) else Resolve(dir, p)
  }

  /**
   * Whether the do-while loop goes on into `dir`, the parent just computed:
   * it is not the file-system root and it is `endDir` or lies inside it.
   * (The loop's first test, `currentDir` being a non-empty string, always
   * holds: `path.dirname` of an absolute path is never empty.)
   */
  predicate Continues(dir: Path, endDir: Path) {
    dir != [] && (IsSamePaths(endDir, dir) || IsInFolder(endDir, dir))
  }

  /** The directories the search probes, nearest first (see `VisitedAncestors`). */
  function Visited(startDir: Path, endDir: Path): (r: seq<Path>)
    ensures |r| >= 1 && r[0] == startDir
    decreases |startDir|
  {
    var up := Dirname(startDir);
    if Continues(up, endDir) then [startDir] + Visited(up, endDir) else [startDir]
  }

  /** The paths probed in `dir`, in the order of `names`. */
  function ProbesIn(dir: Path, names: seq<string>): (r: seq<Path>)
    ensures |r| == |names|
    decreases |names|
  {
    if names == [] then [] else [Candidate(dir, names[0])] + ProbesIn(dir, names[1..])
  }

  /** All probes of the search: every name in the first directory, then every name in the next. */
  function Probes(dirs: seq<Path>, names: seq<string>): seq<Path>
    decreases |dirs|
  {
    if dirs == [] then [] else ProbesIn(dirs[0], names) + Probes(dirs[1..], names)
  }

  /** The first path of `ps` that exists. */
  function FirstExisting(ps: seq<Path>, existing: set<Path>): (r: Option<Path>)
    ensures r.Some? ==> r.value in existing
    ensures r.None? <==> forall i :: 0 <= i < |ps| ==> ps[i] !in existing
    decreases |ps|
  {
    if ps == [] then None
    else if ps[0] in existing then
      Some(ps[0])
    else
      var r := FirstExisting(ps[1..], existing);
      assert forall i :: 1 <= i < |ps| ==> ps[i] == ps[1..][i - 1];
      r
  }

  /** What `findUp` returns: the first existing probe, or `null` (`None`). */
  function FindUpResult(names: seq<string>, startDir: Path, endDir: Path, existing: set<Path>): (r: Option<Path>)
    ensures r.Some? ==> r.value in existing
  {
    FirstExisting(Probes(Visited(startDir, endDir), names), existing)
  }

  /** `findUp`: the do-while over directories wrapping the loop over candidate names. */
  method FindUp(pathName: PathNames, startDir: Path, endDir: Path, existing: set<Path>) returns (r: Option<Path>)
    ensures r == FindUpResult(NameList(pathName), startDir, endDir, existing)
  {
    var currentDir := startDir;
    var pathNames := NameList(pathName);
    ghost var goal := FindUpResult(pathNames, startDir, endDir, existing);
    while true
      invariant goal == FirstExisting(Probes(Visited(currentDir, endDir), pathNames), existing)
      decreases |currentDir|
    {
      ghost var rest := Visited(currentDir, endDir)[1..];
      assert Visited(currentDir, endDir) == [currentDir] + rest;
      FirstExistingAppend(ProbesIn(currentDir, pathNames), Probes(rest, pathNames), existing);
      var found := FindInDir(currentDir, pathNames, existing);
      if found.Some? {
        return found;
      }
      var up := Dirname(currentDir);
      if !Continues(up, endDir) {
        assert rest == [];
        break;
      }
      assert rest == Visited(up, endDir);
      currentDir := up;
    }
    return None;
  }

  /** The inner loop of `findUp`: the first candidate of `pathNames` that exists in `dir`. */
  method FindInDir(dir: Path, pathNames: seq<string>, existing: set<Path>) returns (r: Option<Path>)
    ensures r == FirstExisting(ProbesIn(dir, pathNames), existing)
  {
    ghost var here := ProbesIn(dir, pathNames);
    ProbesInAt(dir, pathNames);
    for j := 0 to |pathNames|
      invariant FirstExisting(here, existing) == FirstExisting(here[j..], existing)
    {
      var tempPath := Candidate(dir, pathNames[j]);
      assert here[j..][0] == tempPath;
      assert here[j..][1..] == here[j + 1..];
      if tempPath in existing {
        return Some(tempPath);
      }
    }
    assert here[|pathNames|..] == [];
    return None;
  }

  // ---------------------------------------------------------------------------
  // Properties of the search.

  lemma {:induction false} FirstExistingAppend(a: seq<Path>, b: seq<Path>, existing: set<Path>)
    ensures FirstExisting(a + b, existing)
         == if FirstExisting(a, existing).Some? then FirstExisting(a, existing) else FirstExisting(b, existing)
    decreases |a|
  {
    if a == [] {
      assert a + b == b;
    } else {
      assert (a + b)[0] == a[0];
      assert (a + b)[1..] == a[1..] + b;
      FirstExistingAppend(a[1..], b, existing);
    }
  }

  /** The visited directories are `startDir` and then its ancestors, one level at a time. */
  lemma {:induction false} VisitedAncestors(startDir: Path, endDir: Path)
    ensures |Visited(startDir, endDir)| <= |startDir| + 1
    ensures forall i :: 0 <= i < |Visited(startDir, endDir)| ==> Visited(startDir, endDir)[i] == startDir[..|startDir| - i]
    decreases |startDir|
  {
    var r := Visited(startDir, endDir);
    var up := Dirname(startDir);
    if Continues(up, endDir) {
      var rest := Visited(up, endDir);
      VisitedAncestors(up, endDir);
      assert r == [startDir] + rest;
      forall i | 1 <= i < |r|
        ensures r[i] == startDir[..|startDir| - i]
      {
        assert r[i] == rest[i - 1];
        assert up[..|up| - (i - 1)] == startDir[..|startDir| - i];
      }
    }
    assert r[0] == startDir[..|startDir|];
  }

  /** Every visited directory after the first is a non-root directory equal to or inside `endDir`. */
  lemma {:induction false} VisitedWithinEnd(startDir: Path, endDir: Path)
    ensures forall i :: 1 <= i < |Visited(startDir, endDir)| ==> Continues(Visited(startDir, endDir)[i], endDir)
    decreases |startDir|
  {
    var up := Dirname(startDir);
    if Continues(up, endDir) {
      var rest := Visited(up, endDir);
      VisitedWithinEnd(up, endDir);
      assert Visited(startDir, endDir) == [startDir] + rest;
    }
  }

  /** The walk stops at the first parent that is the root or lies outside `endDir`. */
  lemma {:induction false} VisitedStops(startDir: Path, endDir: Path)
    ensures !Continues(Dirname(Visited(startDir, endDir)[|Visited(startDir, endDir)| - 1]), endDir)
    decreases |startDir|
  {
    var r := Visited(startDir, endDir);
    var up := Dirname(startDir);
    if Continues(up, endDir) {
      var rest := Visited(up, endDir);
      assert r == [startDir] + rest;
      VisitedStops(up, endDir);
      assert r[|r| - 1] == rest[|rest| - 1];
    } else {
      assert r == [startDir];
    }
  }

  /** Probe `j` of a directory is candidate `j` there. */
  lemma {:induction false} ProbesInAt(dir: Path, names: seq<string>)
    ensures forall j :: 0 <= j < |names| ==> ProbesIn(dir, names)[j] == Candidate(dir, names[j])
    decreases |names|
  {
    if names != [] {
      ProbesInAt(dir, names[1..]);
      assert forall j :: 1 <= j < |names| ==> ProbesIn(dir, names)[j] == ProbesIn(dir, names[1..])[j - 1];
    }
  }

  /** The position of the first existing path of `ps`. */
  lemma {:induction false} FirstExistingAt(ps: seq<Path>, existing: set<Path>) returns (j: nat)
    requires FirstExisting(ps, existing).Some?
    ensures j < |ps| && ps[j] == FirstExisting(ps, existing).value
    ensures forall k :: 0 <= k < j ==> ps[k] !in existing
    decreases |ps|
  {
    if ps[0] in existing {
      j := 0;
    } else {
      var j1 := FirstExistingAt(ps[1..], existing);
      j := j1 + 1;
      assert forall k :: 1 <= k < |ps| ==> ps[k] == ps[1..][k - 1];
    }
  }

  /** Where the first existing probe of `dirs` comes from: probe `j` of directory `d`, with no earlier probe existing. */
  lemma {:induction false} FoundAt(dirs: seq<Path>, names: seq<string>, existing: set<Path>) returns (d: nat, j: nat)
    requires FirstExisting(Probes(dirs, names), existing).Some?
    ensures d < |dirs| && j < |names|
    ensures FirstExisting(Probes(dirs, names), existing).value == ProbesIn(dirs[d], names)[j]
    ensures forall d', j' :: 0 <= d' < d && 0 <= j' < |names| ==> ProbesIn(dirs[d'], names)[j'] !in existing
    ensures forall j' :: 0 <= j' < j ==> ProbesIn(dirs[d], names)[j'] !in existing
    decreases |dirs|
  {
    var here := ProbesIn(dirs[0], names);
    FirstExistingAppend(here, Probes(dirs[1..], names), existing);
    if FirstExisting(here, existing).Some? {
      d := 0;
      j := FirstExistingAt(here, existing);
    } else {
      var d1, j1 := FoundAt(dirs[1..], names, existing);
      d, j := d1 + 1, j1;
      assert dirs[d] == dirs[1..][d1];
      NoneBefore(dirs, names, existing, d1);
    }
  }

  /** With no probe of the first directory existing, none before directory `d1 + 1` exists if none before `d1` of the rest does. */
  lemma NoneBefore(dirs: seq<Path>, names: seq<string>, existing: set<Path>, d1: nat)
    requires 0 < |dirs| && d1 < |dirs| - 1
    requires FirstExisting(ProbesIn(dirs[0], names), existing).None?
    requires forall d', j' :: 0 <= d' < d1 && 0 <= j' < |names| ==> ProbesIn(dirs[1..][d'], names)[j'] !in existing
    ensures forall d', j' :: 0 <= d' < d1 + 1 && 0 <= j' < |names| ==> ProbesIn(dirs[d'], names)[j'] !in existing
  {
    forall d', j' | 0 <= d' < d1 + 1 && 0 <= j' < |names|
      ensures ProbesIn(dirs[d'], names)[j'] !in existing
    {
      if d' > 0 {
        assert dirs[d'] == dirs[1..][d' - 1];
      }
    }
  }

  /** No probe of any directory of `dirs` exists. */
  predicate NoProbeExists(dirs: seq<Path>, names: seq<string>, existing: set<Path>) {
    forall d, j :: 0 <= d < |dirs| && 0 <= j < |names| ==> ProbesIn(dirs[d], names)[j] !in existing
  }

  /** No probe of `dirs` exists exactly when no probe of any directory of `dirs` exists. */
  lemma {:induction false} NoneFound(dirs: seq<Path>, names: seq<string>, existing: set<Path>)
    ensures FirstExisting(Probes(dirs, names), existing).None? <==> NoProbeExists(dirs, names, existing)
    decreases |dirs|
  {
    if dirs != [] {
      var here := ProbesIn(dirs[0], names);
      FirstExistingAppend(here, Probes(dirs[1..], names), existing);
      NoneFound(dirs[1..], names, existing);
      NoneSplit(dirs, names, existing);
    }
  }

  /** No probe of `dirs` exists exactly when none of the first directory and none of the rest does. */
  lemma NoneSplit(dirs: seq<Path>, names: seq<string>, existing: set<Path>)
    requires dirs != []
    ensures NoProbeExists(dirs, names, existing)
            <==> FirstExisting(ProbesIn(dirs[0], names), existing).None? && NoProbeExists(dirs[1..], names, existing)
  {
    assert forall d :: 1 <= d < |dirs| ==> dirs[d] == dirs[1..][d - 1];
  }

  /**
   * A found path exists and is the candidate `names[j]` of the `d`-th visited
   * directory, where no candidate of a nearer directory and no earlier name of
   * that directory exists.
   */
  lemma FoundIsNearestFirst(names: seq<string>, startDir: Path, endDir: Path, existing: set<Path>) returns (d: nat, j: nat)
    requires FindUpResult(names, startDir, endDir, existing).Some?
    ensures FindUpResult(names, startDir, endDir, existing).value in existing
    ensures d < |Visited(startDir, endDir)| && j < |names|
    ensures FindUpResult(names, startDir, endDir, existing).value == Candidate(Visited(startDir, endDir)[d], names[j])
    ensures forall d', j' :: 0 <= d' < d && 0 <= j' < |names| ==> Candidate(Visited(startDir, endDir)[d'], names[j']) !in existing
    ensures forall j' :: 0 <= j' < j ==> Candidate(Visited(startDir, endDir)[d], names[j']) !in existing
  {
    var dirs := Visited(startDir, endDir);
    d, j := FoundAt(dirs, names, existing);
    ProbesInAt(dirs[d], names);
    forall d', j' | 0 <= d' < d && 0 <= j' < |names|
      ensures Candidate(dirs[d'], names[j']) !in existing
    {
      ProbesInAt(dirs[d'], names);
    }
  }

  /** `null` comes back exactly when no candidate of any visited directory exists. */
  lemma NotFoundIffNoneExists(names: seq<string>, startDir: Path, endDir: Path, existing: set<Path>)
    ensures FindUpResult(names, startDir, endDir, existing).None? ==>
              forall d, j :: 0 <= d < |Visited(startDir, endDir)| && 0 <= j < |names|
                ==> Candidate(Visited(startDir, endDir)[d], names[j]) !in existing
    ensures (forall d, j :: 0 <= d < |Visited(startDir, endDir)| && 0 <= j < |names|
                ==> Candidate(Visited(startDir, endDir)[d], names[j]) !in existing)
            ==> FindUpResult(names, startDir, endDir, existing).None?
  {
    var dirs := Visited(startDir, endDir);
    if FindUpResult(names, startDir, endDir, existing).Some? {
      var d, j := FoundAt(dirs, names, existing);
      ProbesInAt(dirs[d], names);
      assert Candidate(dirs[d], names[j]) in existing;
    } else {
      NoneFound(dirs, names, existing);
      forall d, j | 0 <= d < |dirs| && 0 <= j < |names|
        ensures Candidate(dirs[d], names[j]) !in existing
      {
        ProbesInAt(dirs[d], names);
      }
    }
  }

  /** Starting from a normalised directory, every probe, and so the result, is a normalised path. */
  lemma FoundIsNormal(names: seq<string>, startDir: Path, endDir: Path, existing: set<Path>)
    requires IsNormal(startDir)
    ensures FindUpResult(names, startDir, endDir, existing).Some? ==> IsNormal(FindUpResult(names, startDir, endDir, existing).value)
  {
    var dirs := Visited(startDir, endDir);
    if FindUpResult(names, startDir, endDir, existing).Some? {
      var d, j := FoundAt(dirs, names, existing);
      ProbesInAt(dirs[d], names);
      VisitedAncestors(startDir, endDir);
      assert IsNormal(dirs[d]) by {
        assert forall i :: 0 <= i < |dirs[d]| ==> dirs[d][i] == startDir[i];
      }
      ResolveNormal(dirs[d], names[j]);
      ResolveNormal([], names[j]);
    }
  }
}
