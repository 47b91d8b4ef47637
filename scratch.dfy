/** Scratch files and directories. A path is its list of components; the
    filesystem is the set of paths that currently exist. Removing a path
    (`shutil.rmtree` for a directory, `os.unlink` for a file) removes it
    together with everything below it. */
module Scratch {

  datatype Path = Path(parts: seq<string>)

  /** `os.path.join(dir, name)` */
  function Child(dir: Path, name: string): (p: Path)
    ensures Within(dir, p) && p != dir
  {
    Path(dir.parts + [name])
  }

  /** `p` is `root` itself or lies below it. */
  predicate Within(root: Path, p: Path) {
    root.parts <= p.parts
  }

  predicate WithinAny(roots: seq<Path>, p: Path) {
    exists i | 0 <= i < |roots| :: Within(roots[i], p)
  }

  /** Nothing on disk lies inside `dir`: what `tempfile.mkdtemp()` hands out. */
  predicate FreshDir(disk: set<Path>, dir: Path) {
    forall p | p in disk :: !Within(dir, p)
  }

  /** The filesystem after every path of `roots` has been removed. */
  function Release(disk: set<Path>, roots: seq<Path>): (d: set<Path>)
    ensures d <= disk
    ensures forall p | p in disk :: p in d <==> !WithinAny(roots, p)
  {
    set p | p in disk && !WithinAny(roots, p)
  }

  /** Lying under one of `a + b` is lying under one of `a` or one of `b`. */
  lemma WithinAnyAppend(a: seq<Path>, b: seq<Path>, p: Path)
    ensures WithinAny(a + b, p) <==> WithinAny(a, p) || WithinAny(b, p)
  {
    var ab := a + b;
    if WithinAny(ab, p) {
      var i :| 0 <= i < |ab| && Within(ab[i], p);
      if i < |a| {
        assert a[i] == ab[i];
      } else {
        assert b[i - |a|] == ab[i];
      }
    }
    if WithinAny(a, p) {
      var i :| 0 <= i < |a| && Within(a[i], p);
      assert ab[i] == a[i];
    }
    if WithinAny(b, p) {
      var i :| 0 <= i < |b| && Within(b[i], p);
      assert ab[|a| + i] == b[i];
    }
  }

  /** Removing the paths of `a` and then those of `b` is removing those of
      `a + b` at once, and the order of removal does not matter. */
  lemma ReleaseSequential(disk: set<Path>, a: seq<Path>, b: seq<Path>)
    ensures Release(Release(disk, a), b) == Release(disk, a + b)
    ensures Release(disk, a + b) == Release(disk, b + a)
  {
    forall p | p in disk
      ensures WithinAny(a + b, p) <==> WithinAny(a, p) || WithinAny(b, p)
      ensures WithinAny(b + a, p) <==> WithinAny(b, p) || WithinAny(a, p)
    {
      WithinAnyAppend(a, b, p);
      WithinAnyAppend(b, a, p);
    }
  }

  /** Scratch paths created inside a fresh directory, released with that
      directory first among them, leave the filesystem as it was before. */
  lemma ReleaseRestores(disk: set<Path>, dir: Path, added: set<Path>, roots: seq<Path>)
    requires FreshDir(disk, dir)
    requires |roots| > 0 && roots[0] == dir
    requires forall i | 0 <= i < |roots| :: Within(dir, roots[i])
    requires forall p | p in added :: Within(dir, p)
    ensures Release(disk + added, roots) == disk
  {
    var d := Release(disk + added, roots);
    forall p | p in disk
      ensures p in d
    {
      forall i | 0 <= i < |roots|
        ensures !Within(roots[i], p)
      {
      }
    }
    forall p | p in added
      ensures p !in d
    {
      assert Within(roots[0], p);
    }
  }

  /** The path as text, its components joined by the host's separator. */
  function Render(p: Path, sep: char): string {
    JoinParts(p.parts, sep)
  }

  function JoinParts(parts: seq<string>, sep: char): string {
    if |parts| == 0 then ""
    else if |parts| == 1 then parts[0]
    else JoinParts(parts[..|parts| - 1], sep) + [sep] + parts[|parts| - 1]
  }
}
