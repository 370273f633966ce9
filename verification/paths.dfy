/** An abstract filesystem path: the sequence of its components, read from the
    filesystem root downwards. The root itself is the empty path. */
module Paths {

  type Path = seq<string>

  /** The filesystem root, the one directory that has no parent. */
  const Root: Path := []

  /** The directory one level up; the root is its own parent. */
  function Parent(p: Path): (q: Path)
    ensures p != Root ==> |q| + 1 == |p| && q <= p
    ensures p == Root ==> q == Root
  {
    if p == Root then Root else p[..|p| - 1]
  }

  /** The path of the entry called `name` inside directory `dir`. */
  function Join(dir: Path, name: string): (p: Path)
    ensures |p| == |dir| + 1
    ensures dir <= p && p[|dir|] == name
    ensures Parent(p) == dir
  {
    dir + [name]
  }

  /** The last component of a non-root path: a file's base name. */
  function BaseName(p: Path): string
    requires p != Root
  {
    p[|p| - 1]
  }

  /** Joining and then taking the base name gives back the name. */
  lemma BaseNameOfJoin(dir: Path, name: string)
    ensures BaseName(Join(dir, name)) == name
  {
  }

  /** `a` is `p` or one of the directories above it (the prefix order). */
  predicate IsAncestor(a: Path, p: Path) {
    a <= p
  }

  /** The ancestors of `p` are exactly its prefixes `p[..k]`. */
  lemma AncestorIsPrefix(a: Path, p: Path)
    requires IsAncestor(a, p)
    ensures |a| <= |p| && p[..|a|] == a
  {
  }
}
