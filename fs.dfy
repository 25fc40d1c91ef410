/**
 * The host filesystem as the `os` calls of the cgroup code see it: a map from
 * path to node, where every node's parent directory is itself present.
 * Paths are plain strings; "." and ".." are not interpreted.
 */
module Fs {
  import opened Wrappers
  import opened Text

  datatype Node = Dir | File(data: string)

  /** The error numbers the modelled calls can fail with. */
  datatype Errno = ENOENT | EEXIST | ENOTDIR | EISDIR

  type Tree = map<string, Node>

  /**
   * The directory holding `p`: "" when `p` has no '/' (the working
   * directory) or is "/" itself, "/" for a top-level absolute path.
   */
  function Parent(p: string): (q: string)
    ensures p == [] ==> q == []
    ensures p != [] ==> |q| < |p|
  {
    var n := |Base(p)|;
    if n == |p| then []
    else if |p| - n - 1 == 0 then (if |p| == 1 then [] else "/")
    else p[..|p| - n - 1]
  }

  /** Every present path has a present parent directory; "" is never a path. */
  ghost predicate TreeShaped(fs: Tree)
  {
    && "" !in fs
    && forall p :: p in fs ==> Parent(p) == [] || (Parent(p) in fs && fs[Parent(p)].Dir?)
  }

  /** Some ancestor of `p` is a regular file, so resolving `p` fails with ENOTDIR. */
  predicate BlockedByFile(fs: Tree, p: string)
    decreases |p|
  {
    var q := Parent(p);
    q != [] && ((q in fs && fs[q].File?) || BlockedByFile(fs, q))
  }

  /** `q` lies in the subtree rooted at `p`, below it. */
  predicate Below(q: string, p: string)
    decreases |q|
  {
    var r := Parent(q);
    r != [] && (r == p || Below(r, p))
  }

  /** `q` is `p` itself or lies in the subtree rooted at `p`. */
  predicate Within(q: string, p: string)
  {
    q == p || Below(q, p)
  }

  datatype StatResult = Found(node: Node) | Missing(errno: Errno)

  /** os.Stat: the node at `p`, or why there is none. */
  function Stat(fs: Tree, p: string): (r: StatResult)
    ensures r.Found? <==> p in fs
    ensures r.Found? ==> r.node == fs[p]
    ensures r.Missing? ==> r.errno in {ENOENT, ENOTDIR}
  {
    if p in fs then Found(fs[p])
    else if BlockedByFile(fs, p) then Missing(ENOTDIR)
    else Missing(ENOENT)
  }

  /** Why no entry can be made at `p` because of its parent, if any reason. */
  function ParentError(fs: Tree, p: string): Option<Errno>
  {
    var q := Parent(p);
    if q == [] then None
    else match Stat(fs, q)
      case Found(Dir) => None
      case Found(File(_)) => Some(ENOTDIR)
      case Missing(e) => Some(e)
  }

  /** os.Mkdir: creates one directory; its parent must already be a directory. */
  function Mkdir(fs: Tree, p: string): (r: (Option<Errno>, Tree))
    ensures r.0.None? <==> p != [] && p !in fs && ParentError(fs, p).None?
    ensures r.0.None? ==> r.1 == fs[p := Dir]
    ensures r.0.Some? ==> r.1 == fs
  {
    if p == [] then (Some(ENOENT), fs)
    else if ParentError(fs, p).Some? then (ParentError(fs, p), fs)
    else if p in fs then (Some(EEXIST), fs)
    else (None, fs[p := Dir])
  }

  /**
   * ioutil.WriteFile: creates or truncates the regular file at `p` and fills
   * it with `data`; a directory at `p` or a missing parent is an error.
   */
  function WriteFile(fs: Tree, p: string, data: string): (r: (Option<Errno>, Tree))
    ensures r.0.None? <==> p != [] && ParentError(fs, p).None? && !(p in fs && fs[p].Dir?)
    ensures r.0.None? ==> r.1 == fs[p := File(data)]
    ensures r.0.Some? ==> r.1 == fs
  {
    if p == [] then (Some(ENOENT), fs)
    else if ParentError(fs, p).Some? then (ParentError(fs, p), fs)
    else if p in fs && fs[p].Dir? then (Some(EISDIR), fs)
    else (None, fs[p := File(data)])
  }

  /** os.RemoveAll: deletes `p` and everything below it; a missing `p` is no error. */
  function RemoveAll(fs: Tree, p: string): (r: Tree)
    ensures forall q :: q in r <==> q in fs && !Within(q, p)
    ensures forall q :: q in r ==> r[q] == fs[q]
  {
    map q | q in fs && !Within(q, p) :: fs[q]
  }

  /** A file name joined below a directory path has that directory as its parent. */
  lemma ParentOfJoin(dir: string, name: string)
    requires dir != [] && dir[|dir| - 1] != '/'
    requires name != [] && '/' !in name
    ensures Parent(PathJoin(dir, name)) == dir
  {
    var q := PathJoin(dir, name);
    assert q[|q| - |name|..] == name;
    BaseOfSuffix(q, name);
    assert q[..|dir|] == dir;
  }

  /**
   * A Mkdir of a missing path with no regular file above it can only fail
   * because the path is empty or a directory above it is missing.
   */
  lemma MkdirFailsUnblocked(fs: Tree, p: string)
    requires p !in fs && !BlockedByFile(fs, p) && Mkdir(fs, p).0.Some?
    ensures Mkdir(fs, p).0 == Some(ENOENT)
  {
  }

  lemma MkdirKeepsTree(fs: Tree, p: string)
    requires TreeShaped(fs)
    ensures TreeShaped(Mkdir(fs, p).1)
  {
  }

  lemma WriteFileKeepsTree(fs: Tree, p: string, data: string)
    requires TreeShaped(fs)
    ensures TreeShaped(WriteFile(fs, p, data).1)
  {
  }

  /** Deleting a whole subtree never strands a node whose parent was deleted. */
  lemma RemoveAllKeepsTree(fs: Tree, p: string)
    requires TreeShaped(fs)
    ensures TreeShaped(RemoveAll(fs, p))
  {
    var r := RemoveAll(fs, p);
    forall q | q in r
      ensures Parent(q) == [] || (Parent(q) in r && r[Parent(q)].Dir?)
    {
      if Parent(q) != [] {
        assert Parent(q) in fs;
        if Within(Parent(q), p) {
          assert Below(q, p);
        }
      }
    }
  }
}
