/** The order of `filepath.WalkDir`: lexical by component, a directory before what it holds. */
module Walks {
  import opened Text
  import opened Index
  import opened Files

  /** Component by component, and a path before its extensions. */
  predicate PathLess(a: Path, b: Path) {
    if b == [] then false
    else if a == [] then true
    else if a[0] == b[0] then PathLess(a[1..], b[1..])
    else Less(a[0], b[0])
  }

  /** The paths first differ at place `i`. */
  predicate PartAt(a: Path, b: Path, i: nat) {
    i < |a| && i < |b| && a[..i] == b[..i] && a[i] != b[i]
  }

  /** What the order means: a directory before what it holds, and otherwise by the name at the first place
      where the paths differ. */
  lemma {:induction false} PathLessIff(a: Path, b: Path)
    ensures PathLess(a, b) <==> (|a| < |b| && a <= b) || (exists i: nat :: PartAt(a, b, i) && Less(a[i], b[i]))
  {
    hide Less;
    if a != [] && b != [] && a[0] == b[0] {
      PathLessIff(a[1..], b[1..]);
      assert a == [a[0]] + a[1..] && b == [b[0]] + b[1..];
      if i: nat :| PartAt(a[1..], b[1..], i) && Less(a[1..][i], b[1..][i]) {
        assert a[..i + 1] == [a[0]] + a[1..][..i] && b[..i + 1] == [b[0]] + b[1..][..i];
        assert PartAt(a, b, i + 1);
      }
      if i: nat :| PartAt(a, b, i) && Less(a[i], b[i]) {
        assert a[1..][..i - 1] == a[..i][1..] && b[1..][..i - 1] == b[..i][1..];
        assert PartAt(a[1..], b[1..], i - 1);
      }
    } else if a != [] && b != [] {
      assert PartAt(a, b, 0);
      assert forall i: nat :: i > 0 && i < |a| && i < |b| ==> a[..i][0] == a[0] && b[..i][0] == b[0];
    } else if b == [] {
      LessTotal("", "");
    }
  }

  lemma {:induction false} PathTotal(a: Path, b: Path)
    ensures PathLess(a, b) || PathLess(b, a) || a == b
    ensures !(PathLess(a, b) && PathLess(b, a))
    ensures PathLess(a, b) ==> a != b
  {
    if a != [] && b != [] {
      LessTotal(a[0], b[0]);
      if a[0] == b[0] {
        PathTotal(a[1..], b[1..]);
        assert a == [a[0]] + a[1..] && b == [b[0]] + b[1..];
      }
    }
  }

  lemma {:induction false} PathTransitive(a: Path, b: Path, c: Path)
    requires PathLess(a, b) && PathLess(b, c)
    ensures PathLess(a, c)
  {
    if a != [] {
      LessTotal(a[0], b[0]);
      LessTotal(b[0], c[0]);
      if a[0] == b[0] && b[0] == c[0] {
        PathTransitive(a[1..], b[1..], c[1..]);
      } else if a[0] != b[0] && b[0] != c[0] {
        LessTransitive(a[0], b[0], c[0]);
        LessTotal(a[0], c[0]);
      }
    }
  }

  lemma {:induction false} PrefixLess(a: Path, b: Path)
    requires a < b
    ensures PathLess(a, b)
  {
    if a != [] { PrefixLess(a[1..], b[1..]); }
  }

  predicate Lexical(walk: seq<Path>) {
    forall i, j :: 0 <= i < j < |walk| ==> PathLess(walk[i], walk[j])
  }

  /** The lexical order over all paths of a tree visits each once and parents first. */
  lemma LexicalIsWalk(walk: seq<Path>, t: Tree)
    requires Lexical(walk) && Paths(walk) == t.Keys
    ensures IsWalk(walk, t)
  {
    forall i, j | 0 <= i < j < |walk| ensures walk[i] != walk[j] && !(walk[j] <= walk[i]) {
      PathTotal(walk[i], walk[j]);
      if walk[j] < walk[i] { PrefixLess(walk[j], walk[i]); }
    }
  }

  lemma {:induction false} LastPath(paths: set<Path>) returns (last: Path)
    requires paths != {}
    ensures last in paths && forall p :: p in paths && p != last ==> PathLess(p, last)
  {
    var q :| q in paths;
    if paths == {q} {
      last := q;
    } else {
      var m := LastPath(paths - {q});
      PathTotal(q, m);
      last := if PathLess(q, m) then m else q;
      forall p | p in paths && p != last ensures PathLess(p, last) {
        if p != q && p != m && last == q { PathTransitive(p, m, q); }
      }
    }
  }

  /** Every tree has its lexical walk. */
  lemma {:induction false} LexicalWalkExists(t: Tree) returns (walk: seq<Path>)
    ensures Lexical(walk) && IsWalk(walk, t)
    decreases |t|
  {
    if t == map[] {
      walk := [];
    } else {
      var last := LastPath(t.Keys);
      var before := LexicalWalkExists(t - {last});
      walk := before + [last];
      forall i | 0 <= i < |before| ensures PathLess(walk[i], last) { WalkVisits(before, t - {last}, before[i]); }
      forall q ensures q in walk <==> q in t { WalkVisits(before, t - {last}, q); }
      assert Paths(walk) == t.Keys;
    }
    LexicalIsWalk(walk, t);
  }
}
