/** The upward directory walk: look for a file name in a directory, then in
    its parent, and so on up to the filesystem root. */
module Walker {
  import opened Wrappers
  import opened Paths

  /** Directory `dir` holds an entry called `name` among the existing `files`. */
  predicate Holds(files: set<Path>, dir: Path, name: string) {
    Join(dir, name) in files
  }

  /** No directory from `dir` itself up to the root holds `name`. */
  predicate NoneAbove(files: set<Path>, dir: Path, name: string) {
    forall k :: 0 <= k <= |dir| ==> !Holds(files, dir[..k], name)
  }

  /** `d` is the nearest ancestor-or-self of `start` that holds `name`:
      it holds the file and no directory strictly below it on the way to
      `start` does. This is the reference definition the walk must meet. */
  predicate Nearest(files: set<Path>, start: Path, name: string, d: Path) {
    && IsAncestor(d, start)
    && Holds(files, d, name)
    && forall k :: |d| < k <= |start| ==> !Holds(files, start[..k], name)
  }

  /** The walk, as a recursive function on the distance to the root. It
      returns the directory holding the file, or None once the root has
      been checked without success. */
  function Find(files: set<Path>, dir: Path, name: string): (r: Option<Path>)
    ensures r.Some? ==> Nearest(files, dir, name, r.value)
    ensures r.None? <==> NoneAbove(files, dir, name)
    decreases |dir|
  {
    assert dir[..|dir|] == dir;
    if Holds(files, dir, name) then Some(dir)
    else if dir == Root then None
    else
      var up := Parent(dir);
      assert forall k :: 0 <= k <= |up| ==> up[..k] == dir[..k];
      Find(files, up, name)
  }

  /** There is at most one nearest holder. */
  lemma NearestUnique(files: set<Path>, start: Path, name: string, d: Path, e: Path)
    requires Nearest(files, start, name, d)
    requires Nearest(files, start, name, e)
    ensures d == e
  {
    AncestorIsPrefix(d, start);
    AncestorIsPrefix(e, start);
  }

  /** The walk finds exactly the nearest holder: Find returns Some(d) if and
      only if d is the nearest ancestor-or-self of `start` holding `name`. */
  lemma FindIsNearest(files: set<Path>, start: Path, name: string, d: Path)
    ensures Find(files, start, name) == Some(d) <==> Nearest(files, start, name, d)
  {
    var r := Find(files, start, name);
    if Nearest(files, start, name, d) {
      AncestorIsPrefix(d, start);
      assert Holds(files, start[..|d|], name);
      assert r.Some?;
      NearestUnique(files, start, name, d, r.value);
    }
  }

  /** When `d` holds the only existing file, `d` is the nearest holder for
      every start below it. */
  lemma SoleHolderIsNearest(files: set<Path>, start: Path, name: string, d: Path)
    requires files == {Join(d, name)}
    requires IsAncestor(d, start)
    ensures Nearest(files, start, name, d)
  {
    forall k | |d| < k <= |start|
      ensures !Holds(files, start[..k], name)
    {
      assert |Join(start[..k], name)| != |Join(d, name)|;
    }
  }

  /** Nested invariance: if the walk from `start` stops at `d`, then the walk
      from any directory between `d` and `start` stops at `d` too. */
  lemma {:induction false} FindFromBetween(files: set<Path>, start: Path, mid: Path, name: string, d: Path)
    requires Find(files, start, name) == Some(d)
    requires IsAncestor(d, mid) && IsAncestor(mid, start)
    ensures Find(files, mid, name) == Some(d)
  {
    AncestorIsPrefix(mid, start);
    AncestorIsPrefix(d, mid);
    forall k | |d| < k <= |mid|
      ensures !Holds(files, mid[..k], name)
    {
      assert mid[..k] == start[..k];
    }
    assert Nearest(files, mid, name, d);
    FindIsNearest(files, mid, name, d);
  }

  /** The walk written as a loop, as an implementation would run it: check
      the current directory, step to the parent, stop after the root. */
  method Walk(files: set<Path>, start: Path, name: string) returns (r: Option<Path>)
    ensures r.Some? ==> Nearest(files, start, name, r.value)
    ensures r.None? <==> NoneAbove(files, start, name)
  {
    var dir := start;
    while true
      invariant IsAncestor(dir, start)
      invariant forall k :: |dir| < k <= |start| ==> !Holds(files, start[..k], name)
      decreases |dir|
    {
      AncestorIsPrefix(dir, start);
      if Join(dir, name) in files {
        return Some(dir);
      }
      if dir == Root {
        return None;
      }
      dir := Parent(dir);
    }
  }

  /** The loop and the recursive function agree on every input. */
  lemma WalkAgreesWithFind(files: set<Path>, start: Path, name: string, r: Option<Path>)
    requires r.Some? ==> Nearest(files, start, name, r.value)
    requires r.None? <==> NoneAbove(files, start, name)
    ensures r == Find(files, start, name)
  {
    if r.Some? {
      FindIsNearest(files, start, name, r.value);
    }
  }
}
