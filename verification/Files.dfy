/** A file system of directories, regular files and symbolic links, keyed by cleaned absolute
    path, with the tree copy of the NFS fetcher and the tree measurement of the store. */
module Files {
  import opened Text
  import opened Index
  import S = Strings

  type Byte = b: int | 0 <= b < 256

  datatype Node =
    | Dir
    | File(bytes: seq<Byte>)
    | Link(target: string)
    | Special(size: nat)

  type Tree = map<Path, Node>

  /** `d.Info().Size()` of anything that is not a directory; a link's size is its text's. */
  function NodeSize(n: Node): nat {
    match n
    case Dir => 0
    case File(bytes) => |bytes|
    case Link(target) => |target|
    case Special(size) => size
  }

  /** A relative path as `filepath.Rel` prints it. */
  function RelName(q: Path): string {
    if q == [] then "." else S.Join(q, "/")
  }

  /** The name of a file in a tree splits at its slashes into the components. */
  lemma NameSplits(q: Path)
    requires q != [] && forall i :: 0 <= i < |q| ==> S.Clear(q[i], "/")
    ensures S.Split(RelName(q), "/") == q
  {
    S.SplitUndoesJoin(q, "/");
  }

  ghost function RelPaths(fs: Tree, root: Path): set<Path> {
    set p | p in fs && root <= p :: p[|root|..]
  }

  /** The subtree at `root`, by relative path. */
  ghost function Sub(fs: Tree, root: Path): Tree {
    map q | q in RelPaths(fs, root) && root + q in fs :: fs[root + q]
  }

  lemma SubAt(fs: Tree, root: Path, q: Path)
    ensures q in Sub(fs, root) <==> root + q in fs
    ensures q in Sub(fs, root) ==> Sub(fs, root)[q] == fs[root + q]
  {
    if root + q in fs {
      assert root <= root + q && (root + q)[|root|..] == q;
    }
  }

  lemma SubEqual(fs: Tree, root: Path, fs': Tree, root': Path)
    requires forall q: Path :: root + q in fs <==> root' + q in fs'
    requires forall q: Path :: root + q in fs ==> root' + q in fs' && fs[root + q] == fs'[root' + q]
    ensures Sub(fs, root) == Sub(fs', root')
  {
    forall q: Path
      ensures q in Sub(fs, root) <==> q in Sub(fs', root')
      ensures q in Sub(fs, root) && q in Sub(fs', root') ==> Sub(fs, root)[q] == Sub(fs', root')[q]
    {
      SubAt(fs, root, q);
      SubAt(fs', root', q);
    }
  }

  // ---------- Measuring ----------

  datatype Measure = Measure(size: int, names: multiset<string>)

  function AddNode(m: Measure, q: Path, n: Node): Measure {
    if n.Dir? then m else Measure(m.size + NodeSize(n), m.names + multiset{RelName(q)})
  }

  /** Total size and names of everything in a tree that is not a directory. */
  ghost function MeasureOf(t: Tree): Measure {
    if t == map[] then Measure(0, multiset{})
    else
      var q :| q in t;
      AddNode(MeasureOf(t - {q}), q, t[q])
  }

  /** The total does not depend on the order in which the nodes are visited. */
  lemma {:induction false} MeasureSplit(t: Tree, q: Path)
    requires q in t
    ensures MeasureOf(t) == AddNode(MeasureOf(t - {q}), q, t[q])
    decreases |t|
  {
    var p :| p in t && MeasureOf(t) == AddNode(MeasureOf(t - {p}), p, t[p]);
    if p != q {
      MeasureSplit(t - {p}, q);
      MeasureSplit(t - {q}, p);
      assert t - {p} - {q} == t - {q} - {p};
      AddNodeCommutes(MeasureOf(t - {p} - {q}), p, t[p], q, t[q]);
    }
  }

  lemma AddNodeCommutes(m: Measure, p: Path, a: Node, q: Path, b: Node)
    ensures AddNode(AddNode(m, p, a), q, b) == AddNode(AddNode(m, q, b), p, a)
  {
    assert m.names + multiset{RelName(p)} + multiset{RelName(q)}
        == m.names + multiset{RelName(q)} + multiset{RelName(p)};
  }

  /** The order in which a directory walk visits a tree: each path once, parents before children.
      The lexical order of `filepath.WalkDir` is one such order (module Walks). */
  ghost predicate IsWalk(walk: seq<Path>, t: Tree) {
    && (forall i, j :: 0 <= i < j < |walk| ==> walk[i] != walk[j] && !(walk[j] <= walk[i]))
    && Paths(walk) == t.Keys
  }

  ghost function Paths(walk: seq<Path>): set<Path> {
    set q | q in walk
  }

  lemma WalkVisits(walk: seq<Path>, t: Tree, q: Path)
    requires IsWalk(walk, t)
    ensures q in walk <==> q in t
  {
    assert q in walk <==> q in Paths(walk);
  }

  lemma WalkAt(walk: seq<Path>, t: Tree, i: nat)
    requires IsWalk(walk, t) && i < |walk|
    ensures walk[i] in t && walk[i] !in walk[..i] && walk[..i + 1] == walk[..i] + [walk[i]]
  {
    WalkVisits(walk, t, walk[i]);
    assert forall j :: 0 <= j < i ==> walk[j] != walk[i];
  }

  /** Parents come first. */
  lemma ParentsFirst(walk: seq<Path>, t: Tree, i: nat, q: Path)
    requires IsWalk(walk, t) && i < |walk| && q in t && q < walk[i]
    ensures q in walk[..i]
  {
    WalkVisits(walk, t, q);
    var j :| 0 <= j < |walk| && walk[j] == q;
    assert !(i <= j);
  }

  lemma NothingVisited(t: Tree, walk: seq<Path>)
    ensures MeasureOf(Visited(t, walk[..0])) == Measure(0, multiset{})
  {
    assert Visited(t, walk[..0]) == map[];
  }

  lemma VisitedAll(walk: seq<Path>, t: Tree)
    requires IsWalk(walk, t)
    ensures Visited(t, walk[..|walk|]) == t
  {
    assert walk[..|walk|] == walk;
    forall q ensures q in walk <==> q in t { WalkVisits(walk, t, q); }
  }

  ghost function Visited(t: Tree, walk: seq<Path>): Tree {
    map q | q in t && q in walk :: t[q]
  }

  lemma VisitOne(t: Tree, walk: seq<Path>, i: nat)
    requires IsWalk(walk, t) && i < |walk|
    ensures walk[i] in t
    ensures MeasureOf(Visited(t, walk[..i + 1])) == AddNode(MeasureOf(Visited(t, walk[..i])), walk[i], t[walk[i]])
  {
    var q := walk[i];
    WalkAt(walk, t, i);
    var v := Visited(t, walk[..i + 1]);
    assert v - {q} == Visited(t, walk[..i]);
    MeasureSplit(v, q);
  }

  lemma MeasureStep(fs: Tree, root: Path, walk: seq<Path>, i: nat, size: int, names: seq<string>)
    requires IsWalk(walk, Sub(fs, root)) && i < |walk|
    requires MeasureOf(Visited(Sub(fs, root), walk[..i])) == Measure(size, multiset(names))
    ensures root + walk[i] in fs
    ensures MeasureOf(Visited(Sub(fs, root), walk[..i + 1])) ==
            if fs[root + walk[i]].Dir? then Measure(size, multiset(names))
            else Measure(size + NodeSize(fs[root + walk[i]]), multiset(names + [RelName(walk[i])]))
  {
    VisitOne(Sub(fs, root), walk, i);
    SubAt(fs, root, walk[i]);
  }

  function Same(s: string): string { s }

  /** What `measureTree` returns for a tree. */
  ghost predicate Measured(t: Tree, size: int, files: seq<string>) {
    && size == MeasureOf(t).size
    && multiset(files) == MeasureOf(t).names
    && SortedBy(Same, files)
  }

  lemma NamesAscend(names: seq<string>)
    requires SortedBy(Same, names)
    ensures Ascending(names)
  {
    forall j: nat, k: nat, i: nat | j < k < |names| && i < |names[j]| && i < |names[k]|
                                    && names[j][..i] == names[k][..i] && names[j][i] != names[k][i]
      ensures names[j][i] < names[k][i]
    {
      assert !Less(Same(names[k]), Same(names[j]));
      InOrder(names[j], names[k]);
    }
  }

  /** The measurement is a function of the tree alone. */
  lemma MeasuredUnique(t: Tree, size: int, files: seq<string>, size': int, files': seq<string>)
    requires Measured(t, size, files) && Measured(t, size', files')
    ensures size == size' && files == files'
  {
    SortedUnique(Same, files, files');
  }

  /** What one more node adds: the bytes of a file, the text of a link, the size of anything else that is no
      directory, and its name, the components joined by slashes. */
  lemma MeasureMeans(t: Tree, q: Path, n: Node)
    requires q !in t
    ensures var before, after := MeasureOf(t), MeasureOf(t[q := n]);
            match n
            case Dir => after == before
            case File(bytes) => after.size == before.size + |bytes|
            case Link(target) => after.size == before.size + |target|
            case Special(size) => after.size == before.size + size
    ensures !n.Dir? ==> MeasureOf(t[q := n]).names == MeasureOf(t).names + multiset{RelName(q)}
    ensures MeasureOf(map[]) == Measure(0, multiset{})
  {
    MeasureSplit(t[q := n], q);
    assert t[q := n] - {q} == t;
  }

  // ---------- Copying ----------

  lemma PrefixesNest(a: Path, b: Path, q: Path)
    requires b <= a + q
    ensures a <= b || b <= a
  {
    if |b| <= |a| { assert b == (a + q)[..|b|] == a[..|b|]; } else { assert a == (a + q)[..|a|] == b[..|a|]; }
  }

  /** The node a finished copy leaves at `dst + q`: directories and files as in the source, a link
      only where nothing was, and everything the source does not have untouched. */
  ghost predicate CopiedAt(before: Tree, src: Path, dst: Path, after: Tree, q: Path) {
    if src + q !in before || (before[src + q].Link? && dst + q in before) then
      (dst + q in after <==> dst + q in before) && (dst + q in before ==> after[dst + q] == before[dst + q])
    else
      dst + q in after && after[dst + q] == before[src + q]
  }

  /** Such a copy, node by node. */
  lemma CopiedMeans(before: Tree, src: Path, dst: Path, after: Tree, q: Path)
    requires CopiedAt(before, src, dst, after, q)
    ensures src + q in before && (before[src + q].Link? ==> dst + q !in before) ==>
              dst + q in after && after[dst + q] == before[src + q]
    ensures dst + q in before && (src + q in before ==> before[src + q].Link?) ==>
              dst + q in after && after[dst + q] == before[dst + q]
    ensures src + q !in before && dst + q !in before ==> dst + q !in after
  {
  }

  /** Only paths below `dst` differ. */
  ghost predicate OnlyBelow(before: Tree, dst: Path, after: Tree) {
    forall p: Path :: !(dst <= p) ==> (p in after <==> p in before) && (p in before ==> after[p] == before[p])
  }

  ghost predicate WellFormed(fs: Tree) {
    forall p: Path :: p in fs && p != [] ==> p[..|p| - 1] in fs && fs[p[..|p| - 1]].Dir?
  }

  lemma {:induction false} AncestorsAreDirs(fs: Tree, p: Path, n: nat)
    requires WellFormed(fs) && p in fs && fs[p].Dir? && n <= |p|
    ensures p[..n] in fs && fs[p[..n]].Dir?
    decreases |p| - n
  {
    if n == |p| {
      assert p[..n] == p;
    } else {
      AncestorsAreDirs(fs, p, n + 1);
      assert p[..n + 1][..n] == p[..n];
    }
  }

  /** When the walk reaches `q`, everything above `q` has been visited. */
  lemma AncestorsVisited(fs: Tree, src: Path, walk: seq<Path>, i: nat, n: nat)
    requires WellFormed(fs) && IsWalk(walk, Sub(fs, src)) && i < |walk| && n < |walk[i]|
    ensures walk[i][..n] in walk[..i] && src + walk[i][..n] in fs && fs[src + walk[i][..n]].Dir?
  {
    WalkAt(walk, Sub(fs, src), i);
    SubAt(fs, src, walk[i]);
    AncestorIsDir(fs, src, walk[i], n);
    SubAt(fs, src, walk[i][..n]);
    ParentsFirst(walk, Sub(fs, src), i, walk[i][..n]);
  }

  lemma {:induction false} AncestorIsDir(fs: Tree, src: Path, q: Path, n: nat)
    requires WellFormed(fs) && src + q in fs && n < |q|
    ensures src + q[..n] in fs && fs[src + q[..n]].Dir?
    decreases |q|
  {
    var up := q[..|q| - 1];
    assert (src + q)[..|src + q| - 1] == src + up;
    if n == |q| - 1 {
    } else {
      AncestorIsDir(fs, src, up, n);
      assert up[..n] == q[..n];
    }
  }

  lemma BelowDst(dst: Path, q: Path, x: Path)
    requires x <= dst + q && x != dst + q
    ensures x <= dst || (|dst| < |x| < |dst| + |q| && x == dst + q[..|x| - |dst|])
  {
    if |x| <= |dst| { assert x == (dst + q)[..|x|] == dst[..|x|]; }
    else { assert x == (dst + q)[..|x|] == dst + q[..|x| - |dst|]; }
  }

  /** So, at that point, every directory above `dst + q` stands. */
  lemma AncestorsCopied(before: Tree, src: Path, dst: Path, now: Tree, walk: seq<Path>, i: nat)
    requires WellFormed(before) && IsWalk(walk, Sub(before, src)) && i < |walk|
    requires dst in before && before[dst].Dir?
    requires OnlyBelow(before, dst, now) && dst in now && now[dst].Dir?
    requires forall q :: q in walk[..i] ==> CopiedAt(before, src, dst, now, q)
    ensures forall x: Path :: x <= dst + walk[i] && x != dst + walk[i] ==> x in now && now[x].Dir?
  {
    var q := walk[i];
    forall x: Path | x <= dst + q && x != dst + q ensures x in now && now[x].Dir? {
      BelowDst(dst, q, x);
      if x == dst {
      } else if x <= dst {
        AncestorsAreDirs(before, dst, |x|);
        assert x == dst[..|x|];
        assert !(dst <= x);
      } else {
        var n := |x| - |dst|;
        AncestorsVisited(before, src, walk, i, n);
        assert CopiedAt(before, src, dst, now, q[..n]);
      }
    }
  }

  /** Where the copy stands after `done` has been visited. */
  ghost predicate CopyProgress(before: Tree, src: Path, dst: Path, now: Tree, done: seq<Path>) {
    && OnlyBelow(before, dst, now)
    && dst in now && now[dst].Dir?
    && (forall q :: q in done ==> CopiedAt(before, src, dst, now, q))
    && (forall q: Path :: q !in done ==> (dst + q in now <==> dst + q in before))
    && (forall q: Path :: q !in done && dst + q in before ==> dst + q in now && now[dst + q] == before[dst + q])
  }

  lemma CopyBegins(fs: Tree, src: Path, dst: Path)
    requires dst in fs && fs[dst].Dir?
    ensures CopyProgress(fs, src, dst, fs, [])
  {
  }

  /** Changing `dst + q` alone, to what the copy should leave there, is progress. */
  lemma CopyStep(before: Tree, src: Path, dst: Path, now: Tree, done: seq<Path>, q: Path, next: Tree)
    requires CopyProgress(before, src, dst, now, done) && q !in done
    requires forall x: Path :: x != dst + q ==> (x in next <==> x in now) && (x in now ==> next[x] == now[x])
    requires CopiedAt(before, src, dst, next, q)
    requires dst in before && before[dst].Dir?
    requires q == [] ==> src in before && before[src].Dir?
    ensures CopyProgress(before, src, dst, next, done + [q])
  {
    assert dst + [] == dst && src + [] == src;
    forall p: Path ensures dst + p == dst + q <==> p == q {
      if dst + p == dst + q { assert p == (dst + p)[|dst|..] == (dst + q)[|dst|..] == q; }
    }
    forall p | p in done + [q] ensures CopiedAt(before, src, dst, next, p) {
      if p != q { assert CopiedAt(before, src, dst, now, p); }
    }
    forall p: Path | p !in done + [q]
      ensures dst + p in next <==> dst + p in before
      ensures dst + p in before ==> dst + p in next && next[dst + p] == before[dst + p]
    {
      assert p !in done;
    }
    assert OnlyBelow(before, dst, next);
  }

  /** Copying into an empty directory leaves a tree equal to the source, and only that. */
  lemma CopyIntoEmptyIsEqual(before: Tree, src: Path, dst: Path, after: Tree)
    requires src in before && before[src].Dir?
    requires dst in before && before[dst].Dir?
    requires forall q: Path :: q != [] ==> dst + q !in before
    requires forall q: Path :: CopiedAt(before, src, dst, after, q)
    ensures Sub(after, dst) == Sub(before, src)
  {
    assert src + [] == src && dst + [] == dst;
    forall q: Path
      ensures dst + q in after <==> src + q in before
      ensures dst + q in after ==> src + q in before && after[dst + q] == before[src + q]
    {
      assert CopiedAt(before, src, dst, after, q);
    }
    SubEqual(after, dst, before, src);
  }

  /** After such a copy both sides measure the same, size and sorted names. */
  lemma CopyMeasuresTheSame(before: Tree, src: Path, dst: Path, after: Tree,
                            size: int, files: seq<string>, size': int, files': seq<string>)
    requires src in before && before[src].Dir?
    requires dst in before && before[dst].Dir?
    requires forall q: Path :: q != [] ==> dst + q !in before
    requires forall q: Path :: CopiedAt(before, src, dst, after, q)
    requires Measured(Sub(before, src), size, files)
    requires Measured(Sub(after, dst), size', files')
    ensures size == size' && files == files'
  {
    CopyIntoEmptyIsEqual(before, src, dst, after);
    MeasuredUnique(Sub(before, src), size, files, size', files');
  }

  /** What the callback may rely on when the walk reaches `walk[i]`. */
  lemma CopyReady(before: Tree, src: Path, dst: Path, now: Tree, walk: seq<Path>, i: nat)
    requires WellFormed(before) && IsWalk(walk, Sub(before, src)) && Disjoint(src, dst) && i < |walk|
    requires dst in before && before[dst].Dir?
    requires CopyProgress(before, src, dst, now, walk[..i])
    ensures walk[i] !in walk[..i] && walk[..i + 1] == walk[..i] + [walk[i]]
    ensures src + walk[i] in before && src + walk[i] in now && now[src + walk[i]] == before[src + walk[i]]
    ensures !(dst <= src + walk[i])
    ensures forall x: Path :: x <= dst + walk[i] && x != dst + walk[i] ==> x in now && now[x].Dir?
  {
    var q := walk[i];
    WalkAt(walk, Sub(before, src), i);
    SubAt(before, src, q);
    if dst <= src + q { PrefixesNest(src, dst, q); }
    AncestorsCopied(before, src, dst, now, walk, i);
  }

  /** A completed walk leaves every node as the copy should. */
  lemma CopyFinished(before: Tree, src: Path, dst: Path, now: Tree, walk: seq<Path>)
    requires IsWalk(walk, Sub(before, src)) && CopyProgress(before, src, dst, now, walk)
    requires forall q :: q in walk && src + q in before ==> CanCopy(before, src, dst, q)
    ensures forall q: Path :: CopiedAt(before, src, dst, now, q)
    ensures forall q: Path :: src + q in before ==> CanCopy(before, src, dst, q)
  {
    forall q: Path
      ensures CopiedAt(before, src, dst, now, q)
      ensures src + q in before ==> CanCopy(before, src, dst, q)
    {
      SubAt(before, src, q);
      WalkVisits(walk, Sub(before, src), q);
    }
  }

  /** Nothing at the destination stands in the way of this node, and it is of a kind that can be copied. */
  predicate CanCopy(fs: Tree, src: Path, dst: Path, q: Path)
    requires src + q in fs
  {
    match fs[src + q]
    case Dir => dst + q in fs ==> fs[dst + q].Dir?
    case File(_) => dst + q in fs ==> fs[dst + q].File?
    case Link(_) => true
    case Special(_) => false
  }

  class FileSystem {
    const faultless: bool  // whether every operation that can succeed does
    var nodes: Tree

    constructor (nodes: Tree, faultless: bool)
      ensures this.nodes == nodes && this.faultless == faultless
    {
      this.nodes, this.faultless := nodes, faultless;
    }

    /** `os.MkdirAll`: creates the missing directories on the way; any creation may fail. */
    method MkdirAll(p: Path) returns (ok: bool)
      modifies this
      ensures forall x: Path :: !(x <= p) ==> (x in nodes <==> x in old(nodes))
      ensures forall x: Path :: x in old(nodes) ==> x in nodes && nodes[x] == old(nodes[x])
      ensures forall x: Path :: x in nodes && x !in old(nodes) ==> nodes[x] == Dir
      ensures ok ==> forall n :: 0 <= n <= |p| ==> p[..n] in nodes && nodes[p[..n]] == Dir
      ensures faultless ==>
                (ok <==> forall n :: 0 <= n <= |p| && p[..n] in old(nodes) ==> old(nodes)[p[..n]] == Dir)
    {
      ok := true;
      var i := 0;
      while i <= |p|
        invariant 0 <= i <= |p| + 1
        invariant forall x: Path :: !(x <= p) ==> (x in nodes <==> x in old(nodes))
        invariant forall x: Path :: x in old(nodes) ==> x in nodes && nodes[x] == old(nodes[x])
        invariant forall x: Path :: x in nodes && x !in old(nodes) ==> nodes[x] == Dir
        invariant forall n :: 0 <= n < i ==> p[..n] in nodes && nodes[p[..n]] == Dir
      {
        var d := p[..i];
        var fault: bool := *;
        if d in nodes {
          if !nodes[d].Dir? { ok := false; return; }
        } else if fault && !faultless {
          ok := false;
          return;
        } else {
          nodes := nodes[d := Dir];
        }
        i := i + 1;
      }
    }

    /** `copyFile`: the bytes of `src` end up in `dst`; a failure may leave `dst` partly written.
        Writing through a link that already stands at `dst` is outside this file system. */
    method CopyFile(src: Path, dst: Path) returns (ok: bool)
      requires dst != [] && src != dst
      requires dst in nodes ==> !nodes[dst].Link?
      modifies this
      ensures forall x: Path :: !(x <= dst) ==> (x in nodes <==> x in old(nodes))
      ensures forall x: Path :: x != dst && x in old(nodes) ==> x in nodes && nodes[x] == old(nodes[x])
      ensures ok ==> old(src in nodes && nodes[src].File?) && dst in nodes && nodes[dst] == old(nodes[src])
      ensures ok && dst in old(nodes) ==> old(nodes)[dst].File?
      ensures faultless ==>
                (ok <==> && src in old(nodes) && old(nodes)[src].File?
                         && (dst in old(nodes) ==> old(nodes)[dst].File?)
                         && forall n :: 0 <= n < |dst| && dst[..n] in old(nodes) ==> old(nodes)[dst[..n]] == Dir)
    {
      ok := MkdirAll(dst[..|dst| - 1]);
      assert forall x: Path :: x <= dst[..|dst| - 1] ==> x == dst[..|x|];
      assert forall n :: 0 <= n <= |dst| - 1 ==> dst[..|dst| - 1][..n] == dst[..n];
      if !ok {
        if faultless {
          ghost var n :| 0 <= n < |dst| && dst[..|dst| - 1][..n] in old(nodes)
                         && old(nodes)[dst[..|dst| - 1][..n]] != Dir;
          assert dst[..|dst| - 1][..n] == dst[..n];
        }
        return;
      }
      var openFault: bool, writeFault: bool := *, *;
      if src !in nodes || !nodes[src].File? || (openFault && !faultless) || (dst in nodes && !nodes[dst].File?) {
        return false;
      }
      var bytes := nodes[src].bytes;
      nodes := nodes[dst := File([])];
      if writeFault && !faultless {
        var n: nat :| n <= |bytes|;
        nodes := nodes[dst := File(bytes[..n])];
        return false;
      }
      nodes := nodes[dst := File(bytes)];
      var syncFault: bool := *;
      ok := faultless || !syncFault;
    }

    /** `copyTree`. On success every path of the source is copied and nothing else changes; a
        source node that is no directory, file or link makes the copy fail; whatever happens,
        only paths below `dst` change. */
    method CopyTree(src: Path, dst: Path, walk: seq<Path>) returns (ok: bool)
      requires WellFormed(nodes) && IsWalk(walk, Sub(nodes, src)) && Disjoint(src, dst)
      requires src in nodes && nodes[src].Dir? && dst in nodes && nodes[dst].Dir?
      requires forall q: Path :: src + q in nodes && nodes[src + q].File? && dst + q in nodes ==> !nodes[dst + q].Link?
      modifies this
      ensures OnlyBelow(old(nodes), dst, nodes)
      ensures ok ==> forall q: Path :: CopiedAt(old(nodes), src, dst, nodes, q)
      ensures ok ==> forall q: Path :: src + q in old(nodes) ==> CanCopy(old(nodes), src, dst, q)
      ensures faultless ==> (ok <==> forall q: Path :: src + q in old(nodes) ==> CanCopy(old(nodes), src, dst, q))
    {
      hide CanCopy, CopiedAt, IsWalk, Sub, WellFormed;
      ghost var before := nodes;
      ok := true;
      var i := 0;
      CopyBegins(nodes, src, dst);
      while i < |walk|
        invariant 0 <= i <= |walk|
        invariant CopyProgress(before, src, dst, nodes, walk[..i])
        invariant forall q :: q in walk[..i] && src + q in before ==> CanCopy(before, src, dst, q)
      {
        CopyReady(before, src, dst, nodes, walk, i);
        var walkFault: bool := *;
        if walkFault && !faultless { return false; }
        ok := CopyNode(src, dst, walk[i], before, walk[..i]);
        if !ok {
          assert faultless ==> !CanCopy(before, src, dst, walk[i]);
          return;
        }
        i := i + 1;
      }
      assert walk[..|walk|] == walk;
      hide CopiedAt, CanCopy;
      CopyFinished(before, src, dst, nodes, walk);
    }

    /** The walk callback of `copyTree`, for the path `src + q`. */
    method CopyNode(src: Path, dst: Path, q: Path, ghost before: Tree, ghost done: seq<Path>) returns (ok: bool)
      requires CopyProgress(before, src, dst, nodes, done) && q !in done
      requires dst in before && before[dst].Dir? && src in before && before[src].Dir?
      requires src + q in before && src + q in nodes && nodes[src + q] == before[src + q] && !(dst <= src + q)
      requires before[src + q].File? && dst + q in before ==> !before[dst + q].Link?
      requires forall x: Path :: x <= dst + q && x != dst + q ==> x in nodes && nodes[x].Dir?
      modifies this
      ensures ok ==> CopyProgress(before, src, dst, nodes, done + [q]) && CanCopy(before, src, dst, q)
      ensures faultless ==> (ok <==> CanCopy(before, src, dst, q))
      ensures OnlyBelow(before, dst, nodes)
    {
      ghost var was := nodes;
      var target := dst + q;
      assert dst <= target && target[|dst|..] == q;
      assert q == [] ==> target == dst && src + q == src;
      match nodes[src + q]
      case Dir =>
        ok := MkdirAll(target);
        assert target[..|target|] == target;
        if ok { CopyStep(before, src, dst, was, done, q, nodes); }
      case File(_) =>
        ok := CopyFile(src + q, target);
        if ok { CopyStep(before, src, dst, was, done, q, nodes); }
      case Link(text) =>
        var readFault: bool, linkFault: bool := *, *;
        if readFault && !faultless { return false; }
        if target in nodes {
          CopyStep(before, src, dst, was, done, q, nodes);
          return true;
        }
        if linkFault && !faultless { return false; }
        nodes := nodes[target := Link(text)];
        ok := true;
        CopyStep(before, src, dst, was, done, q, nodes);
      case Special(_) =>
        ok := false;
    }

    /** `measureTree`: whatever order the walk takes, the size is the total over the tree and the
        names come out sorted. */
    method MeasureTree(root: Path, walk: seq<Path>) returns (ok: bool, size: int, files: seq<string>)
      requires IsWalk(walk, Sub(nodes, root))
      ensures ok ==> Measured(Sub(nodes, root), size, files)
      ensures !ok ==> size == 0 && files == []
      ensures ok ==> Ascending(files)
      ensures faultless ==> ok
    {
      hide IsWalk, MeasureOf, Visited;
      var names := [];
      size, files := 0, [];
      NothingVisited(Sub(nodes, root), walk);
      var i := 0;
      while i < |walk|
        invariant 0 <= i <= |walk|
        invariant MeasureOf(Visited(Sub(nodes, root), walk[..i])) == Measure(size, multiset(names))
      {
        MeasureStep(nodes, root, walk, i, size, names);
        var fault: bool := *;
        if fault && !faultless { return false, 0, []; }
        if !nodes[root + walk[i]].Dir? {
          size := size + NodeSize(nodes[root + walk[i]]);
          names := names + [RelName(walk[i])];
        }
        i := i + 1;
      }
      VisitedAll(walk, Sub(nodes, root));
      files := SortBy(Same, names);
      NamesAscend(files);
      ok := true;
    }
  }
}
