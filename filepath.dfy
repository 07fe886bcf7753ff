/**
 * A simplified model of the slash-separated paths that the environment
 * resolver builds with Go's path/filepath package. A path is a flag saying
 * whether it is rooted and the sequence of its segments; segments are opaque
 * names that hold no separator and are neither "." nor "..", so that Join is
 * concatenation, Dir drops the last segment and Base takes it.
 */
module FilePath {

  datatype Path = Path(abs: bool, segs: seq<string>)

  /**
   * The current directory ".": no root, no segments. Every Path spells a
   * non-empty string; the empty string itself is not a Path.
   */
  const Empty: Path := Path(false, [])

  /** filepath.IsAbs */
  predicate IsAbs(p: Path) {
    p.abs
  }

  /** Every segment is a non-empty name. */
  predicate WellFormed(p: Path) {
    forall i :: 0 <= i < |p.segs| ==> p.segs[i] != ""
  }

  /**
   * filepath.Dir: the path without its last segment. The root "/" and "."
   * are their own parents, as Dir("/") == "/" and Dir(".") == ".".
   */
  function Dir(p: Path): (r: Path)
    ensures r.abs == p.abs
    ensures |r.segs| == if p.segs == [] then 0 else |p.segs| - 1
    ensures r.segs <= p.segs
  {
    if p.segs == [] then p else Path(p.abs, p.segs[..|p.segs| - 1])
  }

  /** filepath.Base: the last segment; "/" for the root and "." for ".". */
  function Base(p: Path): (r: string)
    ensures p.segs != [] ==> r == p.segs[|p.segs| - 1]
    ensures p.segs == [] ==> r == (if p.abs then "/" else ".")
  {
    if p.segs == [] then (if p.abs then "/" else ".") else p.segs[|p.segs| - 1]
  }

  /**
   * filepath.Join of two paths: the segments of q follow those of p, and the
   * result is rooted exactly when p is (Join("/a", "/b") == "/a/b" and
   * Join(".", "/b") == "b").
   */
  function JoinPath(p: Path, q: Path): (r: Path)
    ensures r.segs == p.segs + q.segs
    ensures r.abs == p.abs
  {
    Path(p.abs, p.segs + q.segs)
  }

  /**
   * filepath.Join(p, name) for a single name: one more segment below p. An
   * empty name is ignored, as filepath.Join ignores empty elements.
   */
  function Join(p: Path, name: string): (r: Path)
    ensures name != "" ==> Dir(r) == p && Base(r) == name
    ensures name != "" ==> |r.segs| == |p.segs| + 1 && (r.abs <==> p.abs)
    ensures name == "" ==> r == p
  {
    if name == "" then p else JoinPath(p, Path(false, [name]))
  }

  /** Dir and Base split a path with a last segment into the parts that Join puts back together. */
  lemma JoinDirBase(p: Path)
    requires WellFormed(p) && p.segs != []
    ensures Join(Dir(p), Base(p)) == p
  {
  }
}
