/** Lexical paths: the cleaning, joining and relating of the Go path library by contract, and the
    containment test `underRoot` as written. */
module Paths {
  import opened Index
  import opened Wrappers
  import S = Strings

  // ---------- Components ----------

  /** The pieces between slashes; there is always at least one. */
  function Components(s: string): (r: seq<string>)
    ensures |r| >= 1
  {
    S.Split(s, "/")
  }

  function Slashed(parts: seq<string>): string {
    S.Join(parts, "/")
  }

  predicate NoSlash(c: string) { '/' !in c }

  predicate PlainName(c: string) {
    c != "" && c != "." && c != ".." && NoSlash(c)
  }

  ghost predicate CleanPath(p: Path) {
    forall i :: 0 <= i < |p| ==> PlainName(p[i])
  }

  lemma SlashAt(s: string, i: nat)
    ensures S.At(s, "/", i) <==> i < |s| && s[i] == '/'
  {
    if i < |s| { assert s[i..i + 1] == [s[i]]; }
  }

  lemma NoSlashClear(c: string)
    requires NoSlash(c)
    ensures S.Clear(c, "/")
  {
    forall i: nat | i < |c| ensures !S.At(c + "/", "/", i) { SlashAt(c + "/", i); }
  }

  lemma {:induction false} ComponentsHaveNoSlash(s: string)
    ensures forall i :: 0 <= i < |Components(s)| ==> NoSlash(Components(s)[i])
    decreases |s|
  {
    var i := S.FindFrom(s, "/", 0);
    forall j: nat | j < |s| && (i == -1 || j < i) ensures s[j] != '/' { SlashAt(s, j); }
    if i == -1 {
      assert Components(s) == [s];
    } else {
      ComponentsHaveNoSlash(s[i + 1..]);
      assert Components(s) == [s[..i]] + Components(s[i + 1..]);
    }
  }

  lemma ComponentsOfName(c: string)
    requires NoSlash(c)
    ensures Components(c) == [c]
  {
    NoSlashClear(c);
    S.ClearAlone(c, "/");
  }

  /** Splitting at a slash splits the components. */
  lemma {:induction false} ComponentsOfJoin(a: string, b: string)
    ensures Components(a + "/" + b) == Components(a) + Components(b)
    decreases |a|
  {
    var i := S.FindFrom(a, "/", 0);
    if i == -1 {
      forall j: nat | j < |a| ensures a[j] != '/' { SlashAt(a, j); }
      FirstComponent(a, b);
    } else {
      forall j: nat | j < i ensures a[j] != '/' { SlashAt(a, j); }
      SlashAt(a, i);
      var tail := a[i + 1..];
      ComponentsOfJoin(tail, b);
      FirstComponent(a[..i], tail + "/" + b);
      assert a == a[..i] + "/" + tail;
      assert a + "/" + b == a[..i] + "/" + (tail + "/" + b);
      assert Components(a) == [a[..i]] + Components(tail);
    }
  }

  lemma FirstComponent(c: string, rest: string)
    requires NoSlash(c)
    ensures Components(c + "/" + rest) == [c] + Components(rest)
  {
    NoSlashClear(c);
    S.ClearFinds(c, "/", rest);
    var s := c + "/" + rest;
    assert s[..|c|] == c && s[|c| + 1..] == rest;
  }

  /** Joining names and splitting again gives the names back. */
  lemma {:induction false} ComponentsOfSlashed(parts: seq<string>)
    requires parts != [] && forall i :: 0 <= i < |parts| ==> NoSlash(parts[i])
    ensures Components(Slashed(parts)) == parts
  {
    ComponentsOfName(parts[0]);
    if |parts| > 1 {
      ComponentsOfSlashed(parts[1..]);
      ComponentsOfJoin(parts[0], Slashed(parts[1..]));
      assert [parts[0]] + parts[1..] == parts;
    }
  }

  // ---------- Absolute paths ----------

  function Enter(at: Path, c: string): Path {
    if c == "" || c == "." then at
    else if c == ".." then (if at == [] then [] else at[..|at| - 1])
    else at + [c]
  }

  /** Follow the components from an absolute place; ".." at the top stays at the top. */
  function Resolve(at: Path, parts: seq<string>): Path
    decreases |parts|
  {
    if parts == [] then at else Resolve(Enter(at, parts[0]), parts[1..])
  }

  predicate IsAbs(s: string) {
    s != "" && s[0] == '/'
  }

  /** `filepath.Abs`: fails only when the working directory is needed and cannot be read. */
  function Abs(cwd: Option<Path>, s: string): Option<Path> {
    if IsAbs(s) then Some(Resolve([], Components(s)))
    else match cwd
      case None => None
      case Some(d) => Some(Resolve(d, Components(s)))
  }

  ghost predicate CleanCwd(cwd: Option<Path>) {
    cwd.Some? ==> CleanPath(cwd.value)
  }

  lemma {:induction false} ResolveClean(at: Path, parts: seq<string>)
    requires CleanPath(at) && forall i :: 0 <= i < |parts| ==> NoSlash(parts[i])
    ensures CleanPath(Resolve(at, parts))
    decreases |parts|
  {
    if parts != [] {
      assert CleanPath(Enter(at, parts[0]));
      ResolveClean(Enter(at, parts[0]), parts[1..]);
    }
  }

  lemma AbsClean(cwd: Option<Path>, s: string)
    requires CleanCwd(cwd)
    ensures Abs(cwd, s).Some? ==> CleanPath(Abs(cwd, s).value)
  {
    ComponentsHaveNoSlash(s);
    ResolveClean([], Components(s));
    if cwd.Some? { ResolveClean(cwd.value, Components(s)); }
  }

  lemma {:induction false} ResolveAppend(at: Path, a: seq<string>, b: seq<string>)
    ensures Resolve(at, a + b) == Resolve(Resolve(at, a), b)
    decreases |a|
  {
    if a == [] {
      assert a + b == b;
    } else {
      ResolveAppend(Enter(at, a[0]), a[1..], b);
      assert (a + b)[1..] == a[1..] + b;
    }
  }

  /** What one component does: a name goes one down, ".." exactly one up and at the top nowhere, and the
      empty one and "." stay. */
  lemma ComponentMeans(at: Path, c: string)
    ensures Resolve(at, [""]) == at && Resolve(at, ["."]) == at
    ensures Resolve(at + [c], [".."]) == at && Resolve([], [".."]) == []
    ensures PlainName(c) ==> Resolve(at, [c]) == at + [c]
  {
    assert (at + [c])[..|at|] == at;
  }

  lemma {:induction false} NamesLead(at: Path, names: seq<string>)
    requires forall i :: 0 <= i < |names| ==> PlainName(names[i])
    ensures Resolve(at, names) == at + names
    decreases |names|
  {
    if names == [] {
      assert at + names == at;
    } else {
      NamesLead(at + [names[0]], names[1..]);
      assert at + [names[0]] + names[1..] == at + names;
    }
  }

  /** A path that starts with a slash names a place of its own, whatever the working directory; every other
      needs one. */
  lemma RootedStays(cwd: Option<Path>, s: string)
    requires s != "" && s[0] == '/'
    ensures Abs(cwd, s) == Abs(None, s) && Abs(cwd, s).Some?
    ensures s == "/" ==> Abs(cwd, s) == Some([])
  {
    if s == "/" {
      ComponentsOfJoin("", "");
      ComponentsOfName("");
      assert "" + "/" + "" == s;
      assert Components(s) == ["", ""];
    }
  }

  /** A place is named by a slash and its components. */
  lemma PlaceNamed(cwd: Option<Path>, p: Path)
    requires CleanPath(p)
    ensures Abs(cwd, "/" + Slashed(p)) == Some(p)
  {
    hide Resolve, Components, Slashed;
    ComponentsOfJoin("", Slashed(p));
    ComponentsOfName("");
    assert "" + "/" + Slashed(p) == "/" + Slashed(p);
    SlashedResolve([], p);
    NamesLead([], p);
    assert [] + p == p;
    ResolveAppend([], [""], Components(Slashed(p)));
    ComponentMeans([], "");
  }

  /** A path that does not start with a slash is taken from the working directory: it names what it names
      behind the directory's own path, and for plain names the place below. */
  lemma RelativeFromCwd(d: Path, s: string)
    requires CleanPath(d) && (s == "" || s[0] != '/')
    ensures Abs(Some(d), s) == Abs(None, "/" + Slashed(d) + "/" + s)
    ensures (forall i :: 0 <= i < |Components(s)| ==> PlainName(Components(s)[i])) ==>
              Abs(Some(d), s) == Some(d + Components(s))
    ensures Abs(None, s) == None
  {
    var dir := "/" + Slashed(d);
    PlaceNamed(None, d);
    ComponentsOfJoin(dir, s);
    assert IsAbs(dir) && IsAbs(dir + "/" + s);
    ResolveAppend([], Components(dir), Components(s));
    assert "/" + Slashed(d) + "/" + s == dir + "/" + s;
    if forall i :: 0 <= i < |Components(s)| ==> PlainName(Components(s)[i]) { NamesLead(d, Components(s)); }
  }

  // ---------- Clean and Join ----------

  /** One component of `filepath.Clean`: a rooted path drops a leading "..", a relative one keeps it. */
  function CleanEnter(rooted: bool, kept: seq<string>, c: string): seq<string> {
    if c == "" || c == "." then kept
    else if c == ".." then
      if kept != [] && kept[|kept| - 1] != ".." then kept[..|kept| - 1]
      else if rooted then kept
      else kept + [".."]
    else kept + [c]
  }

  function CleanParts(rooted: bool, kept: seq<string>, parts: seq<string>): seq<string>
    decreases |parts|
  {
    if parts == [] then kept else CleanParts(rooted, CleanEnter(rooted, kept, parts[0]), parts[1..])
  }

  /** `filepath.Clean`. */
  function Clean(s: string): string {
    var kept := CleanParts(IsAbs(s), [], Components(s));
    if IsAbs(s) then "/" + Slashed(kept)
    else if kept == [] then "."
    else Slashed(kept)
  }

  /** `filepath.Join` of two elements: empty ones are ignored. */
  function Join(a: string, b: string): string {
    if a == "" && b == "" then ""
    else if a == "" then Clean(b)
    else if b == "" then Clean(a)
    else Clean(a + "/" + b)
  }

  /** What cleaning may keep: no "", no ".", no slash; for a rooted path no ".." either. */
  ghost predicate KeptOK(rooted: bool, kept: seq<string>) {
    forall i :: 0 <= i < |kept| ==> kept[i] != "" && kept[i] != "." && NoSlash(kept[i]) && (rooted ==> kept[i] != "..")
  }

  /** Resolving the cleaned components reaches the same place. */
  lemma {:induction false} CleanPartsResolve(rooted: bool, at: Path, kept: seq<string>, parts: seq<string>)
    requires KeptOK(rooted, kept) && forall i :: 0 <= i < |parts| ==> NoSlash(parts[i])
    requires rooted ==> at == []
    ensures KeptOK(rooted, CleanParts(rooted, kept, parts))
    ensures Resolve(at, CleanParts(rooted, kept, parts)) == Resolve(Resolve(at, kept), parts)
    decreases |parts|
  {
    if parts != [] {
      CleanEnterResolve(rooted, at, kept, parts[0]);
      CleanPartsResolve(rooted, at, CleanEnter(rooted, kept, parts[0]), parts[1..]);
    }
  }

  lemma CleanEnterResolve(rooted: bool, at: Path, kept: seq<string>, c: string)
    requires KeptOK(rooted, kept) && NoSlash(c)
    requires rooted ==> at == []
    ensures KeptOK(rooted, CleanEnter(rooted, kept, c))
    ensures Resolve(at, CleanEnter(rooted, kept, c)) == Enter(Resolve(at, kept), c)
  {
    ResolveAppend(at, kept, [c]);
    assert Resolve(Resolve(at, kept), [c]) == Enter(Resolve(at, kept), c);
    if c == ".." && kept != [] && kept[|kept| - 1] != ".." {
      var init, last := kept[..|kept| - 1], kept[|kept| - 1];
      assert kept == init + [last];
      ResolveAppend(at, init, [last]);
      assert Resolve(at, kept) == Resolve(at, init) + [last];
    } else if c == ".." && rooted {
      assert kept == [];
    }
  }

  /** Cleaning a path never changes what it names, from any working directory. */
  lemma CleanKeepsMeaning(cwd: Option<Path>, s: string)
    requires CleanCwd(cwd)
    ensures Abs(cwd, Clean(s)) == Abs(cwd, s)
  {
    var parts, rooted := Components(s), IsAbs(s);
    var kept := CleanParts(rooted, [], parts);
    ComponentsHaveNoSlash(s);
    if rooted {
      CleanPartsResolve(true, [], [], parts);
      ComponentsOfJoin("", Slashed(kept));
      assert "" + "/" + Slashed(kept) == Clean(s);
      assert Components("") == [""];
      SlashedResolve([], kept);
      ResolveAppend([], [""], Components(Slashed(kept)));
    } else {
      if cwd.Some? { CleanPartsResolve(false, cwd.value, [], parts); }
      CleanPartsResolve(false, [], [], parts);
      if kept == [] {
        ComponentsOfName(".");
        if cwd.Some? { assert Resolve(cwd.value, ["."]) == cwd.value; }
      } else {
        ComponentsOfSlashed(kept);
        NotAbs(kept);
      }
    }
  }

  lemma SlashedResolve(at: Path, kept: seq<string>)
    requires forall i :: 0 <= i < |kept| ==> NoSlash(kept[i])
    ensures Resolve(at, Components(Slashed(kept))) == Resolve(at, kept)
  {
    if kept == [] {
      assert Resolve(at, [""]) == at;
    } else {
      ComponentsOfSlashed(kept);
    }
  }

  lemma NotAbs(kept: seq<string>)
    requires KeptOK(false, kept) && kept != []
    ensures !IsAbs(Slashed(kept))
  {
    assert kept[0][0] in kept[0];
  }

  /** Nothing superfluous: no empty part, no ".", and ".." only at the head of a path that is not rooted. */
  ghost predicate Lean(rooted: bool, parts: seq<string>) {
    && (forall i :: 0 <= i < |parts| ==> NoSlash(parts[i]) && parts[i] != "" && parts[i] != ".")
    && (forall i :: 0 <= i < |parts| && parts[i] == ".." ==> !rooted)
    && (forall i, j :: 0 <= i < j < |parts| && parts[j] == ".." ==> parts[i] == "..")
  }

  lemma {:induction false} CleanPartsLean(rooted: bool, kept: seq<string>, parts: seq<string>)
    requires Lean(rooted, kept) && forall i :: 0 <= i < |parts| ==> NoSlash(parts[i])
    ensures Lean(rooted, CleanParts(rooted, kept, parts))
    decreases |parts|
  {
    if parts != [] {
      CleanEnterLean(rooted, kept, parts[0]);
      CleanPartsLean(rooted, CleanEnter(rooted, kept, parts[0]), parts[1..]);
    }
  }

  lemma CleanEnterLean(rooted: bool, kept: seq<string>, c: string)
    requires Lean(rooted, kept) && NoSlash(c)
    ensures Lean(rooted, CleanEnter(rooted, kept, c))
  {
  }

  lemma {:induction false} LeanStays(rooted: bool, kept: seq<string>, parts: seq<string>)
    requires Lean(rooted, kept + parts)
    ensures CleanParts(rooted, kept, parts) == kept + parts
    decreases |parts|
  {
    if parts == [] {
      assert kept + parts == kept;
    } else {
      var all := kept + parts;
      assert all[|kept|] == parts[0];
      if kept != [] { assert all[|kept| - 1] == kept[|kept| - 1]; }
      assert kept + [parts[0]] + parts[1..] == all;
      LeanStays(rooted, kept + [parts[0]], parts[1..]);
    }
  }

  /** The text of a path with these parts. */
  function Text(rooted: bool, parts: seq<string>): string {
    if rooted then "/" + Slashed(parts) else if parts == [] then "." else Slashed(parts)
  }

  lemma TextCleans(rooted: bool, parts: seq<string>)
    requires Lean(rooted, parts)
    ensures Clean(Text(rooted, parts)) == Text(rooted, parts)
  {
    var s := Text(rooted, parts);
    LeanStays(rooted, [], parts);
    assert [] + parts == parts;
    if rooted {
      ComponentsOfJoin("", Slashed(parts));
      ComponentsOfName("");
      assert "" + "/" + Slashed(parts) == s;
      if parts == [] {
        assert CleanParts(true, [], ["", ""]) == [];
      } else {
        ComponentsOfSlashed(parts);
        assert ([""] + parts)[1..] == parts;
      }
    } else if parts == [] {
      ComponentsOfName(".");
      assert CleanParts(false, [], ["."]) == [];
    } else {
      ComponentsOfSlashed(parts);
      NotAbs(parts);
    }
  }

  /** A cleaned path has nothing superfluous, starts with a slash exactly when the path did, and stays as it
      is when cleaned again. */
  lemma CleanForm(s: string) returns (parts: seq<string>)
    ensures var rooted := s != "" && s[0] == '/'; Lean(rooted, parts) && Clean(s) == Text(rooted, parts)
    ensures Clean(Clean(s)) == Clean(s)
  {
    hide Components, Slashed;
    parts := CleanParts(IsAbs(s), [], Components(s));
    ComponentsHaveNoSlash(s);
    CleanPartsLean(IsAbs(s), [], Components(s));
    assert Clean(s) == Text(IsAbs(s), parts);
    hide Clean, Text, Lean, CleanParts;
    TextCleans(IsAbs(s), parts);
  }

  /** Joining resolves the second path from where the first one leads. */
  lemma JoinResolves(cwd: Option<Path>, a: string, b: string)
    requires CleanCwd(cwd) && a != ""
    ensures Abs(cwd, a).None? ==> Abs(cwd, Join(a, b)).None?
    ensures Abs(cwd, a).Some? ==> Abs(cwd, Join(a, b)) == Some(Resolve(Abs(cwd, a).value, Components(b)))
    ensures b != "" ==> Abs(cwd, Join("", b)) == Abs(cwd, b)
    ensures Join("", "") == ""
  {
    CleanKeepsMeaning(cwd, b);
    CleanKeepsMeaning(cwd, a);
    CleanKeepsMeaning(cwd, a + "/" + b);
    ComponentsOfJoin(a, b);
    var at := if IsAbs(a) || cwd.None? then [] else cwd.value;
    ResolveAppend(at, Components(a), Components(b));
    if b == "" && Abs(cwd, a).Some? {
      assert Resolve(Abs(cwd, a).value, [""]) == Abs(cwd, a).value;
    }
  }

  // ---------- Rel and underRoot ----------

  function CommonPrefix(a: Path, b: Path): nat {
    if a == [] || b == [] || a[0] != b[0] then 0 else 1 + CommonPrefix(a[1..], b[1..])
  }

  lemma {:induction false} CommonPrefixBounds(a: Path, b: Path)
    ensures CommonPrefix(a, b) <= |a| && CommonPrefix(a, b) <= |b|
    ensures CommonPrefix(a, b) == |a| <==> a <= b
  {
    if a != [] && b != [] && a[0] == b[0] {
      CommonPrefixBounds(a[1..], b[1..]);
      assert a == [a[0]] + a[1..] && b == [b[0]] + b[1..];
      assert a <= b <==> a[1..] <= b[1..];
    } else if a != [] && b != [] {
      assert !(a <= b);
    }
  }

  function Ups(n: nat): seq<string> {
    if n == 0 then [] else [".."] + Ups(n - 1)
  }

  /** `filepath.Rel` of two cleaned absolute paths: up from what is left of the base, then down. */
  function Rel(base: Path, target: Path): string {
    var n := CommonPrefix(base, target);
    var up: nat := if |base| >= n then |base| - n else 0;
    var parts := Ups(up) + (if n <= |target| then target[n..] else []);
    if parts == [] then "." else Slashed(parts)
  }

  predicate HasDotDotPrefix(rel: string) {
    if |rel| < 2 then false
    else rel[0] == '.' && rel[1] == '.' && (|rel| == 2 || rel[2] == '/')
  }

  /** `underRoot`. */
  predicate UnderRoot(cwd: Option<Path>, root: string, path: string) {
    match Abs(cwd, root)
    case None => false
    case Some(absRoot) =>
      match Abs(cwd, path)
      case None => false
      case Some(absPath) =>
        var rel := Rel(absRoot, absPath);
        rel != ".." && !HasDotDotPrefix(rel)
  }

  lemma SlashedStart(parts: seq<string>)
    requires parts != []
    ensures |parts| == 1 ==> Slashed(parts) == parts[0]
    ensures |parts| > 1 ==> parts[0] + "/" <= Slashed(parts)
  {
  }

  /** On the printed form, only a first component that is exactly ".." counts. */
  lemma DotDotFirst(parts: seq<string>)
    requires parts != [] && parts[0] != "" && parts[0] != "." && NoSlash(parts[0])
    ensures HasDotDotPrefix(Slashed(parts)) <==> parts[0] == ".."
    ensures Slashed(parts) == ".." ==> parts[0] == ".."
  {
    SlashedStart(parts);
    var c, s := parts[0], Slashed(parts);
    assert c <= s;
    assert forall i :: 0 <= i < |c| ==> s[i] == c[i] && c[i] in c;
    if |parts| > 1 { assert s[|c|] == '/'; }
    if |c| == 2 { assert c == [c[0], c[1]]; }
    if |c| == 1 { assert c == [c[0]]; }
  }

  lemma RelIff(base: Path, target: Path)
    requires CleanPath(base) && CleanPath(target)
    ensures (Rel(base, target) != ".." && !HasDotDotPrefix(Rel(base, target))) <==> base <= target
  {
    CommonPrefixBounds(base, target);
    var n := CommonPrefix(base, target);
    var parts := Ups(|base| - n) + target[n..];
    if n < |base| {
      assert Ups(|base| - n)[0] == "..";
      DotDotFirst(parts);
    } else if parts != [] {
      assert parts == target[n..];
      DotDotFirst(parts);
    }
  }

  lemma {:induction false} UpsLead(base: Path, n: nat)
    requires n <= |base|
    ensures Resolve(base, Ups(n)) == base[..|base| - n]
    ensures forall i :: 0 <= i < |Ups(n)| ==> NoSlash(Ups(n)[i])
    decreases n
  {
    if n == 0 {
      assert base[..|base|] == base;
    } else {
      UpsLead(base[..|base| - 1], n - 1);
    }
  }

  /** The relative path leads from the base to the target. */
  lemma RelLeads(base: Path, target: Path)
    requires CleanPath(base) && CleanPath(target)
    ensures Resolve(base, Components(Rel(base, target))) == target
  {
    hide Resolve, Components, Slashed, Ups, CommonPrefix, PlainName;
    CommonPart(base, target);
    var n := CommonPrefix(base, target);
    var ups, down := Ups(|base| - n), target[n..];
    UpsLead(base, |base| - n);
    NamesLead(base[..n], down);
    ResolveAppend(base, ups, down);
    assert base[..n] + down == target;
    NoSlashes(down);
    Printed(base, ups + down);
  }

  lemma NoSlashes(p: Path)
    requires forall i :: 0 <= i < |p| ==> PlainName(p[i])
    ensures forall i :: 0 <= i < |p| ==> NoSlash(p[i])
  {
  }

  lemma Printed(at: Path, parts: seq<string>)
    requires forall i :: 0 <= i < |parts| ==> NoSlash(parts[i])
    ensures Resolve(at, Components(if parts == [] then "." else Slashed(parts))) == Resolve(at, parts)
  {
    if parts == [] {
      ComponentsOfName(".");
      ComponentMeans(at, "");
    } else {
      ComponentsOfSlashed(parts);
    }
  }

  lemma {:induction false} CommonPart(a: Path, b: Path)
    ensures CommonPrefix(a, b) <= |a| && CommonPrefix(a, b) <= |b|
    ensures a[..CommonPrefix(a, b)] == b[..CommonPrefix(a, b)]
  {
    if a != [] && b != [] && a[0] == b[0] {
      CommonPart(a[1..], b[1..]);
      var n := CommonPrefix(a[1..], b[1..]);
      assert a[..n + 1] == [a[0]] + a[1..][..n] && b[..n + 1] == [b[0]] + b[1..][..n];
    }
  }

  /** The test holds exactly when the cleaned absolute components of root start those of path;
      names such as "..foo" are ordinary. */
  lemma UnderRootIff(cwd: Option<Path>, root: string, path: string)
    requires CleanCwd(cwd)
    ensures UnderRoot(cwd, root, path)
       <==> Abs(cwd, root).Some? && Abs(cwd, path).Some? && Abs(cwd, root).value <= Abs(cwd, path).value
  {
    AbsClean(cwd, root);
    AbsClean(cwd, path);
    if Abs(cwd, root).Some? && Abs(cwd, path).Some? {
      RelIff(Abs(cwd, root).value, Abs(cwd, path).value);
    }
  }

  // ---------- The NFS guard ----------

  /** The check `nfsFetcher.Fetch` makes before it reads anything. */
  predicate NfsAllowed(cwd: Option<Path>, mount: string, subpath: string) {
    UnderRoot(cwd, mount, Join(mount, subpath))
  }

  /** Following the components never climbs above the start. */
  predicate StaysBelow(depth: nat, parts: seq<string>)
    decreases |parts|
  {
    if parts == [] then true
    else if parts[0] == "" || parts[0] == "." then StaysBelow(depth, parts[1..])
    else if parts[0] == ".." then depth > 0 && StaysBelow(depth - 1, parts[1..])
    else StaysBelow(depth + 1, parts[1..])
  }

  lemma {:induction false} StaysBelowKeepsPrefix(root: Path, below: Path, parts: seq<string>)
    requires StaysBelow(|below|, parts)
    ensures root <= Resolve(root + below, parts)
    decreases |parts|
  {
    if parts == [] {
    } else if parts[0] == "" || parts[0] == "." {
      StaysBelowKeepsPrefix(root, below, parts[1..]);
    } else if parts[0] == ".." {
      var up := below[..|below| - 1];
      assert (root + below)[..|root + below| - 1] == root + up;
      StaysBelowKeepsPrefix(root, up, parts[1..]);
    } else {
      assert root + below + [parts[0]] == root + (below + [parts[0]]);
      StaysBelowKeepsPrefix(root, below + [parts[0]], parts[1..]);
    }
  }

  /** To stay below is for no first part of the way to lead out of where it starts. */
  lemma {:induction false} StaysBelowIff(root: Path, below: Path, parts: seq<string>)
    requires root != []
    ensures StaysBelow(|below|, parts)
       <==> forall n: nat :: n <= |parts| ==> root <= Resolve(root + below, parts[..n])
    decreases |parts|
  {
    var at := root + below;
    if parts == [] {
      assert forall n: nat :: n <= |parts| ==> parts[..n] == [];
    } else {
      var next, more := Enter(at, parts[0]), parts[1..];
      assert forall n: nat :: 0 < n <= |parts| ==> parts[..n][1..] == more[..n - 1] && parts[..n][0] == parts[0];
      assert forall n: nat :: n <= |more| ==> parts[..n + 1][1..] == more[..n];
      assert parts[..0] == [] && parts[..1] == [parts[0]];
      if parts[0] == "" || parts[0] == "." {
        StaysBelowIff(root, below, more);
      } else if parts[0] == ".." {
        if below == [] {
          assert Resolve(at, parts[..1]) == next && |next| < |root|;
        } else {
          assert next == root + below[..|below| - 1];
          StaysBelowIff(root, below[..|below| - 1], more);
        }
      } else {
        assert next == root + (below + [parts[0]]);
        StaysBelowIff(root, below + [parts[0]], more);
      }
    }
  }

  /** The guard lets a subpath through exactly when the place it leads to lies inside the mount. */
  lemma NfsAllowedIff(cwd: Option<Path>, mount: string, subpath: string)
    requires CleanCwd(cwd) && mount != ""
    ensures NfsAllowed(cwd, mount, subpath)
       <==> Abs(cwd, mount).Some? && Abs(cwd, mount).value <= Resolve(Abs(cwd, mount).value, Components(subpath))
  {
    UnderRootIff(cwd, mount, Join(mount, subpath));
    JoinResolves(cwd, mount, subpath);
  }

  /** In particular every subpath that never climbs above the mount is let through. */
  lemma NfsAllowsDescent(cwd: Option<Path>, mount: string, subpath: string)
    requires CleanCwd(cwd) && mount != "" && Abs(cwd, mount).Some?
    requires StaysBelow(0, Components(subpath))
    ensures NfsAllowed(cwd, mount, subpath)
  {
    NfsAllowedIff(cwd, mount, subpath);
    StaysBelowKeepsPrefix(Abs(cwd, mount).value, [], Components(subpath));
    assert Abs(cwd, mount).value + [] == Abs(cwd, mount).value;
  }

  /** The directory the store gives a model is the child of its root named by the id. */
  lemma DefaultDirectory(cwd: Option<Path>, dir: string, id: string)
    requires CleanCwd(cwd) && dir != "" && Abs(cwd, dir).Some? && PlainName(id)
    ensures Abs(cwd, Join(dir, id)) == Some(Abs(cwd, dir).value + [id])
    ensures UnderRoot(cwd, dir, Join(dir, id))
  {
    JoinResolves(cwd, dir, id);
    ComponentsOfName(id);
    UnderRootIff(cwd, dir, Join(dir, id));
  }
}
