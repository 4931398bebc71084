/** Strings as the Go code compares, sorts and splits them. */
module Text {

  /** Go's `<` on strings: lexicographic by character. */
  predicate Less(a: string, b: string) {
    if b == "" then false
    else if a == "" then true
    else if a[0] == b[0] then Less(a[1..], b[1..])
    else a[0] < b[0]
  }

  lemma {:induction false} LessIrreflexive(a: string)
    ensures !Less(a, a)
  {
    if a != "" { LessIrreflexive(a[1..]); }
  }

  lemma {:induction false} LessTransitive(a: string, b: string, c: string)
    requires Less(a, b) && Less(b, c)
    ensures Less(a, c)
  {
    if a != "" && a[0] == b[0] && b[0] == c[0] { LessTransitive(a[1..], b[1..], c[1..]); }
  }

  /** Any two strings compare one way, the other way, or are equal, and never two of these at once. */
  lemma {:induction false} LessTotal(a: string, b: string)
    ensures Less(a, b) || Less(b, a) || a == b
    ensures !(Less(a, b) && Less(b, a))
    ensures Less(a, b) ==> a != b
  {
    if a != "" && b != "" && a[0] == b[0] {
      LessTotal(a[1..], b[1..]);
      assert a == [a[0]] + a[1..] && b == [b[0]] + b[1..];
    }
  }

  /** `a` and `b` agree up to place `i` and differ there. */
  predicate DifferAt(a: string, b: string, i: nat) {
    i < |a| && i < |b| && a[..i] == b[..i] && a[i] != b[i]
  }

  /** What `<` means: a proper prefix comes first, and otherwise the smaller character at the first place
      where the two differ. */
  lemma {:induction false} LessIff(a: string, b: string)
    ensures Less(a, b) <==> (|a| < |b| && a <= b) || (exists i: nat :: DifferAt(a, b, i) && a[i] < b[i])
  {
    if a != "" && b != "" && a[0] == b[0] {
      LessIff(a[1..], b[1..]);
      assert a == [a[0]] + a[1..] && b == [b[0]] + b[1..];
      if i: nat :| DifferAt(a[1..], b[1..], i) && a[1..][i] < b[1..][i] {
        assert a[..i + 1] == [a[0]] + a[1..][..i] && b[..i + 1] == [b[0]] + b[1..][..i];
        assert DifferAt(a, b, i + 1);
      }
      if i: nat :| DifferAt(a, b, i) && a[i] < b[i] {
        assert a[1..][..i - 1] == a[..i][1..] && b[1..][..i - 1] == b[..i][1..];
        assert DifferAt(a[1..], b[1..], i - 1);
      }
    } else if a != "" && b != "" {
      assert DifferAt(a, b, 0);
      assert forall i: nat :: i > 0 && i < |a| && i < |b| ==> a[..i][0] == a[0] && b[..i][0] == b[0];
    }
  }

  /** So in the order of `<` the earlier string has the smaller character where the two first differ, and
      is not the longer one when they differ nowhere. */
  lemma InOrder(a: string, b: string)
    requires !Less(b, a)
    ensures forall i: nat :: i < |a| && i < |b| && a[..i] == b[..i] && a[i] != b[i] ==> a[i] < b[i]
    ensures b <= a ==> a == b
  {
    LessIff(b, a);
    forall i: nat | i < |a| && i < |b| && a[..i] == b[..i] && a[i] != b[i] ensures a[i] < b[i] {
      assert DifferAt(b, a, i);
    }
  }

  /** Where two of the strings first differ, the one in front has the smaller character. */
  ghost predicate Ascending(names: seq<string>) {
    forall j: nat, k: nat, i: nat ::
      j < k < |names| && i < |names[j]| && i < |names[k]|
      && names[j][..i] == names[k][..i] && names[j][i] != names[k][i] ==>
        names[j][i] < names[k][i]
  }

  ghost predicate SortedBy<T(!new)>(key: T -> string, s: seq<T>) {
    forall i, j :: 0 <= i < j < |s| ==> !Less(key(s[j]), key(s[i]))
  }

  /** One step of the sort behind `sort.Slice` and `sort.Strings`. */
  function InsertBy<T(!new)>(key: T -> string, x: T, s: seq<T>): (r: seq<T>)
    ensures multiset(r) == multiset{x} + multiset(s)
    ensures SortedBy(key, s) ==> SortedBy(key, r)
  {
    if s == [] then [x]
    else if Less(key(s[0]), key(x)) then
      var rest := InsertBy(key, x, s[1..]);
      assert s == [s[0]] + s[1..];
      assert SortedBy(key, s) ==> SortedBy(key, [s[0]] + rest) by {
        if SortedBy(key, s) { InsertAfterHead(key, x, s, rest); }
      }
      [s[0]] + rest
    else
      assert SortedBy(key, s) ==> SortedBy(key, [x] + s) by {
        if SortedBy(key, s) { InsertAtFront(key, x, s); }
      }
      [x] + s
  }

  lemma InsertAfterHead<T(!new)>(key: T -> string, x: T, s: seq<T>, rest: seq<T>)
    requires s != [] && SortedBy(key, s) && SortedBy(key, rest)
    requires Less(key(s[0]), key(x))
    requires multiset(rest) == multiset{x} + multiset(s[1..])
    ensures SortedBy(key, [s[0]] + rest)
  {
    forall y | y in rest ensures !Less(key(y), key(s[0])) {
      assert y in multiset(rest);
      if y == x {
        LessTotal(key(s[0]), key(x));
      } else {
        assert y in s[1..];
      }
    }
  }

  lemma InsertAtFront<T(!new)>(key: T -> string, x: T, s: seq<T>)
    requires s != [] && SortedBy(key, s) && !Less(key(s[0]), key(x))
    ensures SortedBy(key, [x] + s)
  {
    forall i | 0 <= i < |s| ensures !Less(key(s[i]), key(x)) {
      if i > 0 && Less(key(s[i]), key(x)) {
        LessTotal(key(s[0]), key(s[i]));
        if Less(key(s[0]), key(s[i])) { LessTransitive(key(s[0]), key(s[i]), key(x)); }
      }
    }
  }

  /** The contract of the library sorts: a rearrangement in which no later key is smaller. */
  function SortBy<T(!new)>(key: T -> string, s: seq<T>): (r: seq<T>)
    ensures multiset(r) == multiset(s)
    ensures SortedBy(key, r)
  {
    if s == [] then []
    else
      assert s == [s[0]] + s[1..];
      InsertBy(key, s[0], SortBy(key, s[1..]))
  }

  /** The first element of a sorted sequence is a least one. */
  lemma HeadIsLeast<T(!new)>(key: T -> string, s: seq<T>, x: T)
    requires SortedBy(key, s) && x in s
    ensures !Less(key(x), key(s[0]))
  {
    LessTotal(key(x), key(x));
  }

  lemma SortedTail<T(!new)>(key: T -> string, s: seq<T>)
    requires s != [] && SortedBy(key, s)
    ensures SortedBy(key, s[1..])
  {
  }

  /** A sorted arrangement is unique when the key tells the elements apart. */
  lemma {:induction false} SortedUnique<T(!new)>(key: T -> string, s: seq<T>, t: seq<T>)
    requires SortedBy(key, s) && SortedBy(key, t) && multiset(s) == multiset(t)
    requires forall x, y :: x in s && y in s && key(x) == key(y) ==> x == y
    ensures s == t
  {
    hide Less, SortedBy;
    assert |s| == |multiset(s)| == |multiset(t)| == |t|;
    if s != [] {
      var a, b := s[0], t[0];
      assert a in multiset(t) && b in multiset(s);
      HeadIsLeast(key, s, b);
      HeadIsLeast(key, t, a);
      LessTotal(key(a), key(b));
      assert a == b;
      var s', t' := s[1..], t[1..];
      assert s == [a] + s' && t == [a] + t';
      assert multiset(s') == multiset(s) - multiset{a};
      assert multiset(t') == multiset(t) - multiset{a};
      SortedTail(key, s);
      SortedTail(key, t);
      SortedUnique(key, s', t');
    }
  }
}
