/**
 * Abstract file-system paths: a path is the sequence of its components below the
 * root, so the root is `[]`. A file system is the set of paths that are regular files.
 */
module Paths {

  type Path = seq<string>

  /** The paths that are regular files: the paths `Path.is_file()` answers true for. */
  type Files = set<Path>

  /** The reserved name that marks the root of a project. */
  const TargetFileName: string := ".remote_target"

  /**
   * `Path.parent`: the path without its last component; the root is its own parent,
   * and this is the only path that is.
   */
  function Parent(p: Path): (r: Path)
    ensures r <= p
    ensures p != [] ==> |r| == |p| - 1
    ensures r == p <==> p == []
  {
    if p == [] then [] else p[..|p| - 1]
  }

  /** `dir / ".remote_target"`. */
  function Marker(dir: Path): (r: Path)
    ensures |r| == |dir| + 1 && r[..|dir|] == dir && r[|dir|] == TargetFileName
  {
    dir + [TargetFileName]
  }

  /** Directory `dir` holds a regular file named `.remote_target`. */
  predicate HasMarker(files: Files, dir: Path)
  {
    Marker(dir) in files
  }
}
