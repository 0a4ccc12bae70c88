/** The part of `pathlib.PurePath` the packaging code relies on: `name`,
    the final component of a `/`-separated path. */
module Paths {

  /** The length of the last component of `p`: how many characters follow
      its last `/`. */
  function NameLength(p: string): (n: nat)
    ensures n <= |p|
    ensures forall i :: |p| - n <= i < |p| ==> p[i] != '/'
    ensures n < |p| ==> p[|p| - n - 1] == '/'
  {
    if p == [] || p[|p| - 1] == '/' then 0 else NameLength(p[..|p| - 1]) + 1
  }

  /** `PurePath(p).name` for a path that does not end in `/`: the text after
      the last `/` (all of `p` when it has none). */
  function Basename(p: string): (name: string)
    ensures '/' !in name
    ensures |name| <= |p| && name == p[|p| - |name|..]
    ensures |name| < |p| ==> p[|p| - |name| - 1] == '/'
  {
    p[|p| - NameLength(p)..]
  }

  /** The basename is the only suffix that has no `/` and is either all of
      the path or preceded by a `/`. */
  lemma {:induction false} BasenameUnique(p: string, n: string)
    requires '/' !in n && |n| <= |p| && n == p[|p| - |n|..]
    requires |n| < |p| ==> p[|p| - |n| - 1] == '/'
    ensures Basename(p) == n
  {
    var b := Basename(p);
    assert |b| == |n|;
    assert b == p[|p| - |n|..];
  }

  /** Joining a directory and a file name with `/` and taking the name back
      gives the file name: the layout `dir/{name}` keeps the name intact. */
  lemma BasenameOfJoin(dir: string, name: string)
    requires '/' !in name
    ensures Basename(dir + "/" + name) == name
  {
    var p := dir + "/" + name;
    assert p[|p| - |name|..] == name;
    assert |name| < |p| && p[|p| - |name| - 1] == '/';
    BasenameUnique(p, name);
  }
}
