/** Absolute paths as segment lists, and the two containment tests built on path.relative. */
module Paths {
  type Path = seq<string>

  function CommonPrefix(a: Path, b: Path): (n: nat)
    ensures n <= |a| && n <= |b| && a[..n] == b[..n]
    ensures n < |a| && n < |b| ==> a[n] != b[n]
  {
    if a == [] || b == [] || a[0] != b[0] then 0
    else
      var n := CommonPrefix(a[1..], b[1..]);
      assert a[..n + 1] == [a[0]] + a[1..][..n] && b[..n + 1] == [b[0]] + b[1..][..n];
      n + 1
  }

  /** path.relative(from, to) */
  function Relative(from: Path, to: Path): Path {
    var n := CommonPrefix(from, to);
    seq(|from| - n, _ => "..") + to[n..]
  }

  predicate StartsWithDots(segment: string) {
    |segment| >= 2 && segment[..2] == ".."
  }

  /** isContainedPath (adapter/claude-plugin-loader.ts): the relative path does not start with "..". */
  predicate IsContained(root: Path, path: Path) {
    var rel := Relative(root, path);
    rel == [] || !StartsWithDots(rel[0])
  }

  /** isWithin (adapter/config.ts): the relative path is not ".." and does not start with "../". */
  predicate IsWithin(base: Path, target: Path) {
    var rel := Relative(base, target);
    rel == [] || rel[0] != ".."
  }

  lemma PrefixIsCommon(root: Path, path: Path)
    requires root <= path
    ensures CommonPrefix(root, path) == |root| && Relative(root, path) == path[|root|..]
  {
    assert forall k | 0 <= k < |root| :: root[k] == path[k];
  }

  /**
    The first test accepts exactly the root and what lies below it, except below a child whose
    own name starts with two dots; the second accepts exactly the root and what lies below it.
  */
  lemma ContainmentExactly(root: Path, path: Path)
    requires forall segment | segment in path :: segment != ".."
    ensures IsContained(root, path) <==> root <= path && (|path| == |root| || !StartsWithDots(path[|root|]))
    ensures IsWithin(root, path) <==> root <= path
  {
    if root <= path {
      PrefixIsCommon(root, path);
      assert |path| > |root| ==> path[|root|] in path;
    } else {
      assert Relative(root, path)[0] == "..";
    }
  }

  /** The two tests disagree below a child named "..skills". */
  lemma ContainmentTestsDiffer() returns (root: Path, path: Path)
    ensures root == ["plugin"] && path == ["plugin", "..skills"]
    ensures IsWithin(root, path) && !IsContained(root, path)
  {
    root, path := ["plugin"], ["plugin", "..skills"];
    PrefixIsCommon(root, path);
    assert path[1..] == ["..skills"];
  }
}
