/** `System.IO.Path.GetFileName` / `GetDirectoryName` over a single directory
    separator. */
module Paths {

  const Separator: char := '/'

  /** The index of the last `c` in `p`, or -1. */
  function LastIndexOf(p: string, c: char): (r: int)
    ensures -1 <= r < |p|
    ensures r >= 0 ==> p[r] == c
    ensures forall j :: r < j < |p| ==> p[j] != c
  {
    if p == [] then -1
    else if p[|p| - 1] == c then |p| - 1
    else LastIndexOf(p[..|p| - 1], c)
  }

  /** `Path.GetFileName(p)`: the part after the last separator. */
  function FileName(p: string): string
  {
    p[LastIndexOf(p, Separator) + 1..]
  }

  /** `Path.GetDirectoryName(p)`: the part before the last separator, or ""
      when `p` has no separator. */
  function DirectoryName(p: string): string
  {
    var k := LastIndexOf(p, Separator);
    if k < 0 then "" else p[..k]
  }

  /** A path is its directory, a separator and its file name; the file name
      holds no separator; a path without a separator is its own file name. */
  lemma PathSplit(p: string)
    ensures Separator !in FileName(p)
    ensures Separator in p ==> DirectoryName(p) + [Separator] + FileName(p) == p
    ensures Separator !in p ==> DirectoryName(p) == "" && FileName(p) == p
  {
    var k := LastIndexOf(p, Separator);
    if k >= 0 {
      assert p == p[..k] + [p[k]] + p[k + 1..];
    }
  }

  /** The file name of a path is a suffix of it. */
  lemma FileNameIsSuffix(p: string)
    ensures |FileName(p)| <= |p| && p[|p| - |FileName(p)|..] == FileName(p)
  {
  }
}
