/**
 An abstract stand-in for `java.io.File` on a single-rooted (POSIX) filesystem.

 A path is the sequence of its name components; the root is the empty
 sequence. The filesystem is a snapshot: which paths exist and whether each is
 a directory, plus the ordered child list that `listFiles()` returns for a
 directory. A directory without an entry in `listing` stands for a
 `listFiles()` call that returns null (unreadable, vanished, ...).
 */
module FileSystem {
  import opened Wrappers

  type Path = seq<string>

  /** A path as `java.io.File` normalises it: no empty component, no separator inside one. */
  predicate WellFormed(p: Path) {
    forall i :: 0 <= i < |p| ==> p[i] != "" && '/' !in p[i]
  }

  /** `File.name`: the last component, or the empty name at the root. */
  function Name(p: Path): string {
    if p == [] then "" else p[|p| - 1]
  }

  /** `File.parent`: the path without its last component; null at the root. */
  function Parent(p: Path): (r: Option<Path>)
    ensures r.None? <==> p == []
    ensures r.Some? ==> r.value + [Name(p)] == p
  {
    if p == [] then None else Some(p[..|p| - 1])
  }

  /** The components, each preceded by the separator: "/a/b" for ["a", "b"]. */
  function Slashed(p: Path): string {
    if p == [] then "" else Slashed(p[..|p| - 1]) + "/" + p[|p| - 1]
  }

  /** `File.absolutePath`: "/" at the root. */
  function AbsolutePath(p: Path): string {
    if p == [] then "/" else Slashed(p)
  }

  /** Only the root has the empty name, and only the root prints as "/". */
  lemma RootCharacterised(p: Path)
    requires WellFormed(p)
    ensures Name(p) == "" <==> p == []
    ensures AbsolutePath(p) == "/" <==> p == []
  {
  }

  /** `c` is an immediate child of directory `d`, with a proper name. */
  predicate ChildOf(c: Path, d: Path) {
    |c| == |d| + 1 && c[..|d|] == d && WellFormed([c[|d|]])
  }

  datatype FileSystem = FileSystem(kind: map<Path, bool>, listing: map<Path, seq<Path>>)

  /** `File.isDirectory`: false for a path that does not exist. */
  predicate IsDirectory(fs: FileSystem, p: Path) {
    p in fs.kind && fs.kind[p]
  }

  /** `File.listFiles()`: the children in the host's order, or null. */
  function ListFiles(fs: FileSystem, d: Path): Option<seq<Path>> {
    if d in fs.listing then Some(fs.listing[d]) else None
  }

  /** Only directories have listings, and a listing holds immediate children. */
  predicate Valid(fs: FileSystem) {
    forall d :: d in fs.listing ==>
      IsDirectory(fs, d) && forall c :: c in fs.listing[d] ==> ChildOf(c, d)
  }
}
