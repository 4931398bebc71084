/** `nfsFetcher.Fetch`: the guard on the subpath, then a copy of a file or of a tree. */
module NfsFetcher {
  import opened Wrappers
  import opened Index
  import opened Files
  import P = Paths

  datatype Reply = Escapes | Missing | CopyFailed | Copied(reported: seq<string>)

  /** What stands at `dest` after a good fetch of `src`, and what is reported for it: a directory is
      copied node by node and left for the store to list; a file goes under its own name. */
  ghost predicate Fetched(before: Tree, src: Path, dest: Path, after: Tree, reported: seq<string>) {
    src in before &&
    if before[src].Dir? then
      reported == [] && forall q: Path :: CopiedAt(before, src, dest, after, q)
    else
      && before[src].File? && src != [] && reported == [src[|src| - 1]]
      && dest + reported in after && after[dest + reported] == before[src]
      && forall x: Path :: x != dest + reported ==>
            (x in after <==> x in before) && (x in before ==> after[x] == before[x])
  }

  /** When no operation fails without cause: what is not there is missing, a directory is copied if nothing
      stands in the way of any of its nodes, and of anything else a regular file is, under its own name. */
  ghost predicate Outcome(before: Tree, src: Path, dest: Path, r: Reply) {
    if src !in before then r == Missing
    else if before[src].Dir? then
      r == if (forall q: Path :: src + q in before ==> CanCopy(before, src, dest, q)) then Copied([]) else CopyFailed
    else
      && src != []
      && var base := src[|src| - 1];
         r == if before[src].File? && (dest + [base] in before ==> before[dest + [base]].File?) then Copied([base])
              else CopyFailed
  }

  /** The environment: the store has made `dest`, a directory apart from the source; the walk is one of
      the source, which is no link itself; and no link stands where a regular file is to be written.
      Links may stand where the source has links, as an earlier copy leaves them. */
  ghost predicate Ready(before: Tree, src: Path, dest: Path, walk: seq<Path>) {
    && WellFormed(before) && dest in before && before[dest].Dir? && Disjoint(src, dest)
    && IsWalk(walk, Sub(before, src)) && (src in before ==> !before[src].Link?)
    && (src in before && before[src].Dir? ==>
          forall q: Path :: src + q in before && before[src + q].File? && dest + q in before ==>
            !before[dest + q].Link?)
    && (src in before && !before[src].Dir? && src != [] ==>
          dest + [src[|src| - 1]] in before ==> !before[dest + [src[|src| - 1]]].Link?)
  }

  /** `Fetch`. It reads nothing outside the mount: it is refused exactly when following the subpath from the
      mount leads out of it, and then nothing changes; otherwise only paths below `dest` change, whatever
      fails, and what is copied stood where the subpath leads. */
  method Fetch(fs: FileSystem, cwd: Option<Path>, mount: string, subpath: string, dest: Path, walk: seq<Path>)
    returns (r: Reply)
    requires P.CleanCwd(cwd) && mount != ""
    requires P.NfsAllowed(cwd, mount, subpath) && P.Abs(cwd, mount).Some? ==>
               Ready(fs.nodes, P.Resolve(P.Abs(cwd, mount).value, P.Components(subpath)), dest, walk)
    modifies fs
    ensures r.Escapes? <==> !(P.Abs(cwd, mount).Some?
                              && P.Abs(cwd, mount).value <= P.Resolve(P.Abs(cwd, mount).value, P.Components(subpath)))
    ensures r.Escapes? || r.Missing? ==> fs.nodes == old(fs.nodes)
    ensures OnlyBelow(old(fs.nodes), dest, fs.nodes)
    ensures !r.Escapes? ==>
              var src := P.Resolve(P.Abs(cwd, mount).value, P.Components(subpath));
              && (fs.faultless ==> Outcome(old(fs.nodes), src, dest, r))
              && (r.Copied? ==> Fetched(old(fs.nodes), src, dest, fs.nodes, r.reported))
  {
    P.NfsAllowedIff(cwd, mount, subpath);
    P.JoinResolves(cwd, mount, subpath);
    var srcPath := P.Abs(cwd, P.Join(mount, subpath));
    if !P.NfsAllowed(cwd, mount, subpath) { return Escapes; }
    r := CopySource(fs, srcPath.value, dest, walk);
  }

  /** The copy, once the guard has let the source through. */
  method CopySource(fs: FileSystem, src: Path, dest: Path, walk: seq<Path>) returns (r: Reply)
    requires Ready(fs.nodes, src, dest, walk)
    modifies fs
    ensures !r.Escapes? && (r.Missing? ==> fs.nodes == old(fs.nodes))
    ensures OnlyBelow(old(fs.nodes), dest, fs.nodes)
    ensures fs.faultless ==> Outcome(old(fs.nodes), src, dest, r)
    ensures r.Copied? ==> Fetched(old(fs.nodes), src, dest, fs.nodes, r.reported)
  {
    hide IsWalk, Sub;
    var statFault: bool := *;
    if src !in fs.nodes || (statFault && !fs.faultless) { return Missing; }
    if !fs.nodes[src].Dir? {
      assert src != [];
      var base := src[|src| - 1];
      var target := dest + [base];
      ParentStands(fs.nodes, dest, base);
      var copied := fs.CopyFile(src, target);
      return if copied then Copied([base]) else CopyFailed;
    }
    var done := fs.CopyTree(src, dest, walk);
    r := if done then Copied([]) else CopyFailed;
  }

  /** Everything above a child of `dest` stands already. */
  lemma ParentStands(fs: Tree, dest: Path, base: string)
    requires WellFormed(fs) && dest in fs && fs[dest].Dir?
    ensures forall x: Path :: x <= dest + [base] && x != dest + [base] ==> x in fs && fs[x].Dir?
  {
    forall x: Path | x <= dest + [base] && x != dest + [base] ensures x in fs && fs[x].Dir? {
      assert x == (dest + [base])[..|x|] == dest[..|x|];
      if |x| < |dest| { AncestorsAreDirs(fs, dest, |x|); }
    }
  }
}
