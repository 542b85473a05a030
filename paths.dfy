/**
 * POSIX path algebra as node's `path` module performs it on absolute paths.
 *
 * An absolute, normalised path is the sequence of its segments below the root
 * `/` (the root itself is `[]`). Path strings written by users stay strings:
 * `Resolve(base, s)` splits `s` at `/` (empty parts are dropped, as node's
 * normalisation does) and walks its segments from `base`, or from the root
 * when `s` is absolute, treating `.` and `..` as `path.resolve` does.
 */
module Paths {

  type Path = seq<string>

  /** A segment of a normalised path: not empty, no separator, not `.` or `..`. */
  predicate IsPlainSegment(s: string) {
    s != "" && '/' !in s && s != "." && s != ".."
  }

  predicate IsNormal(p: Path) {
    forall i :: 0 <= i < |p| ==> IsPlainSegment(p[i])
  }

  /** A part of a path string between separators: not empty, no separator. */
  predicate IsPart(s: string) {
    s != "" && '/' !in s
  }

  predicate AllParts(segs: seq<string>) {
    forall i :: 0 <= i < |segs| ==> IsPart(segs[i])
  }

  /** `path.isAbsolute(s)` on POSIX. */
  predicate IsAbsolute(s: string) {
    |s| > 0 && s[0] == '/'
  }

  /** The parts of `s` between separators, in order; `cur` is the part read so far. */
  function SplitFrom(s: string, cur: string): (r: seq<string>)
    requires '/' !in cur
    ensures AllParts(r)
    decreases |s|
  {
    if s == "" then (if cur == "" then [] else [cur])
    else if s[0] == '/' then (if cur == "" then [] else [cur]) + SplitFrom(s[1..], "")
    else SplitFrom(s[1..], cur + [s[0]])
  }

  function Split(s: string): (r: seq<string>)
    ensures AllParts(r)
  {
    SplitFrom(s, "")
  }

  /** The parts joined with `/`. */
  function Join(segs: seq<string>): string {
    if segs == [] then ""
    else if |segs| == 1 then segs[0]
    else segs[0] + "/" + Join(segs[1..])
  }

  /** `path.dirname` of an absolute path: the root is its own parent. */
  function Dirname(p: Path): (r: Path)
    ensures p != [] ==> |r| == |p| - 1 && r == p[..|r|]
    ensures p == [] ==> r == []
  {
    if p == [] then [] else p[..|p| - 1]
  }

  function Step(dir: Path, seg: string): Path {
    if seg == "." then dir
    else if seg == ".." then Dirname(dir)
    else dir + [seg]
  }

  /** Walk the parts `segs` from `dir`, one `Step` each. */
  function Walk(dir: Path, segs: seq<string>): Path
    decreases |segs|
  {
    if segs == [] then dir else Walk(Step(dir, segs[0]), segs[1..])
  }

  /** `path.resolve(base, s)` for an absolute `base`. */
  function Resolve(base: Path, s: string): Path {
    Walk(if IsAbsolute(s) then [] else base, Split(s))
  }

  /** `path.join(base, s)` for an absolute `base`: `s` is appended even when it starts with `/`. */
  function JoinPath(base: Path, s: string): Path {
    Walk(base, Split(s))
  }

  /** The length of the longest common prefix of `a` and `b`. */
  function CommonPrefixLength(a: Path, b: Path): (k: nat)
    ensures k <= |a| && k <= |b| && a[..k] == b[..k]
    ensures k < |a| && k < |b| ==> a[k] != b[k]
  {
    if a == [] || b == [] || a[0] != b[0] then 0
    else
      var k := 1 + CommonPrefixLength(a[1..], b[1..]);
      assert a[..k] == [a[0]] + a[1..][..k - 1];
      assert b[..k] == [b[0]] + b[1..][..k - 1];
      k
  }

  function Ups(n: nat): (r: seq<string>)
    ensures |r| == n && forall i :: 0 <= i < n ==> r[i] == ".."
  {
    seq(n, _ => "..")
  }

  /** `path.relative(from, to)`: climb out of `from` to the common prefix, then descend to `to`. */
  function Relative(from: Path, to: Path): string {
    var k := CommonPrefixLength(from, to);
    Join(Ups(|from| - k) + to[k..])
  }

  /** `isInFolder(parent, child)`: `child` is `parent` or lies below it. */
  predicate IsInFolder(parent: Path, child: Path) {
    |parent| <= |child| && child[..|parent|] == parent
  }

  /** `isSamePaths(a, b)` on POSIX paths. */
  predicate IsSamePaths(a: Path, b: Path) {
    a == b
  }

  /** `normalizeRelativePath`: it only turns `\` separators into `/`, which leaves POSIX paths as they are. */
  function NormalizeRelativePath(s: string): string {
    s
  }

  // ---------------------------------------------------------------------------
  // Lemmas: resolving keeps paths normal, splitting undoes joining, and
  // resolving undoes `Relative`.

  lemma {:induction false} WalkNormal(dir: Path, segs: seq<string>)
    requires IsNormal(dir) && AllParts(segs)
    ensures IsNormal(Walk(dir, segs))
    decreases |segs|
  {
    if segs != [] {
      assert segs[0] != "." && segs[0] != ".." ==> IsPlainSegment(segs[0]);
      WalkNormal(Step(dir, segs[0]), segs[1..]);
    }
  }

  /** `path.resolve` and `path.join` from a normalised path give a normalised path. */
  lemma ResolveNormal(base: Path, s: string)
    requires IsNormal(base)
    ensures IsNormal(Resolve(base, s)) && IsNormal(JoinPath(base, s))
  {
    WalkNormal(if IsAbsolute(s) then [] else base, Split(s));
    WalkNormal(base, Split(s));
  }

  lemma {:induction false} SplitFromAppend(a: string, rest: string, cur: string)
    requires '/' !in a && '/' !in cur
    ensures SplitFrom(a + rest, cur) == SplitFrom(rest, cur + a)
    decreases |a|
  {
    if a != "" {
      assert (a + rest)[0] == a[0];
      assert (a + rest)[1..] == a[1..] + rest;
      assert cur + [a[0]] + a[1..] == cur + a;
      SplitFromAppend(a[1..], rest, cur + [a[0]]);
    } else {
      assert a + rest == rest;
      assert cur + a == cur;
    }
  }

  lemma {:induction false} SplitJoin(segs: seq<string>)
    requires AllParts(segs)
    ensures Split(Join(segs)) == segs
    decreases |segs|
  {
    if |segs| == 1 {
      SplitFromAppend(segs[0], "", "");
      assert segs[0] + "" == segs[0];
      assert "" + segs[0] == segs[0];
      assert SplitFrom("", segs[0]) == [segs[0]];
    } else if |segs| > 1 {
      var tail := Join(segs[1..]);
      assert segs[0] + "/" + tail == segs[0] + ("/" + tail);
      SplitFromAppend(segs[0], "/" + tail, "");
      assert ("/" + tail)[1..] == tail;
      SplitJoin(segs[1..]);
      assert "" + segs[0] == segs[0];
      assert segs == [segs[0]] + segs[1..];
    }
  }

  lemma JoinNotAbsolute(segs: seq<string>)
    requires AllParts(segs)
    ensures !IsAbsolute(Join(segs))
  {
    if |segs| > 1 {
      assert Join(segs)[0] == segs[0][0];
    }
  }

  lemma {:induction false} WalkPlain(dir: Path, segs: seq<string>)
    requires IsNormal(dir) && IsNormal(segs)
    ensures Walk(dir, segs) == dir + segs
    decreases |segs|
  {
    if segs != [] {
      WalkPlain(dir + [segs[0]], segs[1..]);
      assert dir + [segs[0]] + segs[1..] == dir + segs;
    }
  }

  lemma UpsParts(n: nat, rest: seq<string>)
    requires AllParts(rest)
    ensures AllParts(Ups(n) + rest)
  {
    var s := Ups(n) + rest;
    forall i | 0 <= i < |s|
      ensures IsPart(s[i])
    {
      if i >= n {
        assert s[i] == rest[i - n];
      }
    }
  }

  lemma {:induction false} WalkUps(dir: Path, n: nat, rest: seq<string>)
    requires IsNormal(dir) && AllParts(rest) && n <= |dir|
    ensures AllParts(Ups(n) + rest)
    ensures Walk(dir, Ups(n) + rest) == Walk(dir[..|dir| - n], rest)
    decreases n
  {
    UpsParts(n, rest);
    var s := Ups(n) + rest;
    if n > 0 {
      UpsParts(n - 1, rest);
      assert s[0] == "..";
      assert s[1..] == Ups(n - 1) + rest;
      WalkUps(Dirname(dir), n - 1, rest);
      assert Dirname(dir)[..|Dirname(dir)| - (n - 1)] == dir[..|dir| - n];
    } else {
      assert s == rest;
      assert dir[..|dir|] == dir;
    }
  }

  /** Climbing more levels than `dir` has stops at the root. */
  lemma {:induction false} WalkUpsPast(dir: Path, n: nat, rest: seq<string>)
    requires IsNormal(dir) && AllParts(rest) && |dir| <= n
    ensures AllParts(Ups(n) + rest)
    ensures Walk(dir, Ups(n) + rest) == Walk([], rest)
    decreases n
  {
    UpsParts(n, rest);
    var s := Ups(n) + rest;
    if n > 0 {
      UpsParts(n - 1, rest);
      assert s[0] == "..";
      assert s[1..] == Ups(n - 1) + rest;
      WalkUpsPast(Dirname(dir), n - 1, rest);
    } else {
      assert s == rest;
    }
  }

  /** The directory `n` levels above `dir`, or the root when `dir` is not that deep. */
  function Above(dir: Path, n: nat): (r: Path)
    ensures |r| <= |dir| && r == dir[..|r|]
  {
    if n <= |dir| then dir[..|dir| - n] else []
  }

  /** A common prefix as long as one of the paths makes that path contain the other. */
  lemma CommonPrefixWhole(a: Path, b: Path)
    ensures CommonPrefixLength(a, b) == |a| ==> IsInFolder(a, b)
    ensures CommonPrefixLength(a, b) == |b| ==> IsInFolder(b, a)
  {
    var k := CommonPrefixLength(a, b);
    if k == |a| { assert b[..|a|] == a[..k]; }
    if k == |b| { assert a[..|b|] == b[..k]; }
  }

  /** Resolving `n` climbs followed by plain segments: the directory `n` levels up, then the segments. */
  lemma ResolveUps(base: Path, n: nat, rest: Path)
    requires IsNormal(base) && IsNormal(rest)
    ensures Resolve(base, Join(Ups(n) + rest)) == Above(base, n) + rest
  {
    var segs := Ups(n) + rest;
    UpsParts(n, rest);
    SplitJoin(segs);
    JoinNotAbsolute(segs);
    if n <= |base| {
      WalkUps(base, n, rest);
      WalkPlain(base[..|base| - n], rest);
    } else {
      WalkUpsPast(base, n, rest);
      WalkPlain([], rest);
      assert [] + rest == rest;
    }
  }

  /**
   * Resolving the relative path from `from` to `to` against another
   * directory `base`: climb out of `base` as many levels as `from` lies
   * below the common prefix of `from` and `to`, then descend along the rest
   * of `to`.
   */
  lemma ResolveRelativeFrom(base: Path, from: Path, to: Path)
    requires IsNormal(base) && IsNormal(from) && IsNormal(to)
    ensures Resolve(base, Relative(from, to))
              == Above(base, |from| - CommonPrefixLength(from, to)) + to[CommonPrefixLength(from, to)..]
  {
    var k := CommonPrefixLength(from, to);
    var rest := to[k..];
    assert IsNormal(rest);
    ResolveUps(base, |from| - k, rest);
  }

  /** Resolving the relative path from `from` to `to` against `from` gives `to` back. */
  lemma ResolveRelative(from: Path, to: Path)
    requires IsNormal(from) && IsNormal(to)
    ensures Resolve(from, Relative(from, to)) == to
  {
    ResolveRelativeFrom(from, from, to);
    AboveCommonPrefix(from, to);
  }

  /** Climbing from `from` to its common prefix with `to`, then descending along the rest of `to`, reaches `to`. */
  lemma AboveCommonPrefix(from: Path, to: Path)
    ensures Above(from, |from| - CommonPrefixLength(from, to)) + to[CommonPrefixLength(from, to)..] == to
  {
    var k := CommonPrefixLength(from, to);
    assert Above(from, |from| - k) == to[..k];
    assert to[..k] + to[k..] == to;
  }

  /** When `child` lies in `parent`, the relative path is `child`'s own segments below `parent`. */
  lemma RelativeInFolder(parent: Path, child: Path)
    requires IsNormal(parent) && IsNormal(child) && IsInFolder(parent, child)
    ensures Relative(parent, child) == Join(child[|parent|..])
  {
    var k := CommonPrefixLength(parent, child);
    assert k == |parent|;
    assert Ups(0) + child[k..] == child[k..];
  }

  /** Appending plain segments with `Resolve`: `path.resolve(dir, 'a/b')` is `dir/a/b`. */
  lemma ResolveJoined(dir: Path, segs: seq<string>)
    requires IsNormal(dir) && IsNormal(segs)
    ensures Resolve(dir, Join(segs)) == dir + segs
  {
    SplitJoin(segs);
    JoinNotAbsolute(segs);
    WalkPlain(dir, segs);
  }

  /** A path does not depend on the base it is resolved against when it is absolute. */
  lemma ResolveAbsolute(base1: Path, base2: Path, s: string)
    requires IsAbsolute(s)
    ensures Resolve(base1, s) == Resolve(base2, s) == Resolve([], s)
  {
  }
}
