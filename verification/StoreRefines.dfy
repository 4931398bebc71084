/** The store as an object is the store as a system: what a method does, with whatever faults it meets,
    is a run of the system's steps. */
module StoreRefines {
  import opened Text
  import opened Wrappers
  import opened Index
  import opened Files
  import opened StoreCore
  import opened StoreSystem
  import opened StoreSafety
  import opened ModelStore
  import opened StoreGap

  lemma AndThen(cfg: Config, s: Sys, actions: seq<Action>, m: Sys, a: Action, t: Sys)
    requires LeadsTo(cfg, s, actions, m) && Step(cfg, m, a, t)
    ensures LeadsTo(cfg, s, actions + [a], t)
  {
    hide LeadsTo, Step;
    Done(cfg, t);
    Then(cfg, m, a, t, [], t);
    assert [a] + [] == [a];
    Joined(cfg, s, actions, m, [a], t);
  }

  // ---------- Saving ----------

  /** Whatever a save leaves on disk, the system's save can leave. */
  lemma SaveRuns(cfg: Config, s: Sys, d': Disk, ok: bool) returns (actions: seq<Action>, t: Sys)
    requires s.core.lock.Held? && s.core.lock.phase.Creating? && SaveLeaves(s.core.mem, s.core.disk, d', ok)
    ensures LeadsTo(cfg, s, actions, t) && t == AtPhase(s, d', if ok then Saved else Unsaved)
  {
    hide LeadsTo, SaveLeavesBy;
    if !ok && d' == s.core.disk {
      t := AtPhase(s, d', Unsaved);
      Done(cfg, s);
      AndThen(cfg, s, [], s, Save(true, false, "", []), t);
      actions := [] + [Save(true, false, "", [])];
    } else {
      var tmp, listing, complete, left :|
        SaveLeavesBy(s.core.mem, s.core.disk, d', ok, tmp, listing, complete, left);
      actions, t := SaveRunsBy(cfg, s, d', ok, tmp, listing, complete, left);
    }
  }

  lemma SaveRunsBy(cfg: Config, s: Sys, d': Disk, ok: bool, tmp: string, listing: seq<Entry>, complete: bool,
        left: bool)
    returns (actions: seq<Action>, t: Sys)
    requires s.core.lock.Held? && s.core.lock.phase.Creating?
    requires SaveLeavesBy(s.core.mem, s.core.disk, d', ok, tmp, listing, complete, left)
    ensures LeadsTo(cfg, s, actions, t) && t == AtPhase(s, d', if ok then Saved else Unsaved)
  {
    hide LeadsTo, IsListing;
    var save := Save(false, false, tmp, listing);
    var m := AtPhase(s, s.core.disk[tmp := TempFile([], false)], Writing(tmp));
    Done(cfg, s);
    AndThen(cfg, s, [], s, save, m);
    var rest;
    if !ok && !complete {
      var fault := Save(true, left, "", listing);
      t := AtPhase(s, d', Unsaved);
      assert m.core.disk[tmp := TempFile(listing, false)] == s.core.disk[tmp := TempFile(listing, false)];
      AndThen(cfg, s, [] + [save], m, fault, t);
      actions := [] + [save] + [fault];
    } else {
      rest, t := ClosingRuns(cfg, s, m, d', ok, tmp, listing, left);
      Joined(cfg, s, [] + [save], m, rest, t);
      actions := [] + [save] + rest;
    }
  }

  /** From the writing on, when it succeeds. */
  lemma ClosingRuns(cfg: Config, s: Sys, s1: Sys, d': Disk, ok: bool, tmp: string, listing: seq<Entry>, left: bool)
    returns (actions: seq<Action>, t: Sys)
    requires s.core.lock.Held? && s1 == AtPhase(s, s.core.disk[tmp := TempFile([], false)], Writing(tmp))
    requires SaveLeavesBy(s.core.mem, s.core.disk, d', ok, tmp, listing, true, left)
          || (ok && SaveLeavesBy(s.core.mem, s.core.disk, d', ok, tmp, listing, false, left))
    ensures LeadsTo(cfg, s1, actions, t) && t == AtPhase(s, d', if ok then Saved else Unsaved)
  {
    hide LeadsTo, IsListing;
    var save, fault := Save(false, false, tmp, listing), Save(true, left, "", []);
    var d2 := s1.core.disk[tmp := TempFile(listing, true)];
    assert d2 == s.core.disk[tmp := TempFile(listing, true)];
    var s2, s3 := AtPhase(s, d2, Closing(tmp)), AtPhase(s, d2, Renaming(tmp));
    t := AtPhase(s, d', if ok then Saved else Unsaved);
    Done(cfg, s1);
    AndThen(cfg, s1, [], s1, save, s2);
    if ok {
      assert d' == (d2 - {tmp})[INDEX_NAME := IndexFile(listing)];
      AndThen(cfg, s1, [] + [save], s2, save, s3);
      AndThen(cfg, s1, [] + [save] + [save], s3, save, t);
      actions := [] + [save] + [save] + [save];
    } else {
      AndThen(cfg, s1, [] + [save], s2, fault, t);
      actions := [] + [save] + [fault];
    }
  }

  // ---------- Marking ----------

  /** Where a mark leads. */
  function Marked(s: Sys, why: Purpose, id: string, ok: bool): Pc {
    if !ok then MarkFailed(why, SaveFailed)
    else if why.Direct? then Ended(None)
    else Reread(why, id, Deletes(s, why), Stagings(s, why))
  }

  lemma MarkRuns(cfg: Config, s: Sys, c: nat, why: Purpose, id: string, d': Disk, ok: bool)
    returns (actions: seq<Action>, t: Sys)
    requires s.core.lock.Free? && c in s.callers && s.callers[c] == WantMark(why, id) && id in s.core.mem.entries
    requires SaveLeaves(Touch(s.core.mem, id, s.now), s.core.disk, d', ok)
    ensures LeadsTo(cfg, s, actions, t)
    ensures t == Move(s.(core := Core(Touch(s.core.mem, id, s.now), d', Free)), c, Marked(s, why, id, ok))
  {
    hide LeadsTo, SaveLeaves, KeyFor, Touch;
    var m := Move(s.(core := TakeMark(s.core, c, id, s.now)), c, Marking(why, id));
    Done(cfg, s);
    AndThen(cfg, s, [], s, BeginMark(c), m);
    var saves, saved := SaveRuns(cfg, m, d', ok);
    Joined(cfg, s, [] + [BeginMark(c)], m, saves, saved);
    t := Move(saved.(core := Release(saved.core)), c, Marked(s, why, id, ok));
    AndThen(cfg, s, [] + [BeginMark(c)] + saves, saved, EndMark(c), t);
    actions := [] + [BeginMark(c)] + saves + [EndMark(c)];
    assert t.callers == s.callers[c := Marked(s, why, id, ok)];
  }

  /** `markUsed` as the object does it is `markUsed` as the system does it. */
  method MarkUsedRuns(store: Store, c: nat, id: string, now: int, ghost s: Sys)
    returns (err: Option<Error>, ghost actions: seq<Action>, ghost t: Sys)
    requires store.Valid() && UsedBefore(store.Mem(), now)
    requires s.core == Core(store.Mem(), store.disk, Free) && c !in s.callers && s.now == now
    modifies store
    ensures LeadsTo(store.cfg, s, actions, t)
    ensures t.core == Core(store.Mem(), store.disk, Free) && t.callers == s.callers[c := Ended(err)]
  {
    hide LeadsTo, SaveLeaves, Touch, Store.Valid, UsedBefore;
    err := store.MarkUsed(id, now);
    ghost var m := Move(s, c, WantMark(Direct, id));
    Done(store.cfg, s);
    AndThen(store.cfg, s, [], s, ArriveMark(c, id), m);
    actions := [] + [ArriveMark(c, id)];
    if id in s.core.mem.entries {
      ghost var rest;
      rest, t := MarkRuns(store.cfg, m, c, Direct, id, store.disk, err == None);
      Joined(store.cfg, s, actions, m, rest, t);
      actions := actions + rest;
    } else {
      t := Move(m, c, Ended(Some(NotFound)));
      AndThen(store.cfg, s, actions, m, BeginMark(c), t);
      actions := actions + [BeginMark(c)];
    }
    assert t.callers == s.callers[c := Ended(err)];
  }

  // ---------- Deleting ----------

  /** The removal of the files, as far as it gets. */
  lemma RemovalRuns(cfg: Config, s: Sys, mid: Disk, ok: bool) returns (actions: seq<Action>, t: Sys)
    requires s.core.lock.Held? && s.core.lock.task.Remove? && s.core.lock.phase.Removing?
    requires RemovalLeaves(s.core.lock.task.gone.id, s.core.disk, mid, ok)
    ensures LeadsTo(cfg, s, actions, t) && t.callers == s.callers
    ensures var e := s.core.lock.task.gone;
            t.core == if ok then Core(WithoutEntry(s.core.mem, e), mid, s.core.lock.(phase := Creating))
                      else s.core.(disk := mid)
  {
    hide LeadsTo;
    var id := s.core.lock.task.gone.id;
    Done(cfg, s);
    if ok {
      t := s.(core := FilesRemoved(s.core), damaged := s.damaged + {id});
      AndThen(cfg, s, [], s, RemoveAll, t);
      actions := [] + [RemoveAll];
    } else if mid == s.core.disk {
      actions, t := [], s;
    } else {
      var tree :| mid == WithModelDir(s.core.disk, id, Some(tree));
      t := WithDir(s, id, Some(tree)).(damaged := s.damaged + {id});
      AndThen(cfg, s, [], s, RemoveSome(tree), t);
      actions := [] + [RemoveSome(tree)];
    }
  }

  /** The save of a Delete and its return. */
  lemma DropRuns(cfg: Config, s: Sys, c: nat, before: Maps, d': Disk, ok: bool)
    returns (actions: seq<Action>, t: Sys)
    requires s.core.lock.Held? && s.core.lock.owner == c && s.core.lock.task.Remove? && s.core.lock.phase.Creating?
    requires c in s.callers && s.callers[c].Deleting?
    requires s.core.mem == WithoutEntry(before, s.core.lock.task.gone) && SaveLeaves(s.core.mem, s.core.disk, d', ok)
    requires WithEntry(s.core.mem, s.core.lock.task.gone) == before
    ensures LeadsTo(cfg, s, actions, t)
    ensures t.core == Core(if ok then s.core.mem else before, d', Free)
    ensures t.callers == s.callers[c := Ended(if ok then None else Some(SaveFailed))]
  {
    hide LeadsTo, SaveLeaves, KeyFor, WithoutEntry, WithEntry;
    var e := s.core.lock.task.gone;
    var saves, saved := SaveRuns(cfg, s, d', ok);
    var r := saved.(core := Release(saved.core));
    t := if ok then
           Move(r.(tally := r.tally.(deletes := r.tally.deletes + multiset{KeyOf(e)}), damaged := r.damaged - {e.id}),
                c, Ended(None))
         else Move(r, c, Ended(Some(SaveFailed)));
    AndThen(cfg, s, saves, saved, EndDelete(c), t);
    actions := saves + [EndDelete(c)];
  }

  /** A Delete up to its save, or to the removal it gives up. */
  lemma DeleteOpens(cfg: Config, s: Sys, c: nat, id: string, mid: Disk, ok: bool)
    returns (actions: seq<Action>, t: Sys)
    requires s.core.lock.Free? && c in s.callers && s.callers[c] == WantDelete(id)
    requires id in s.core.mem.entries && s.core.mem.entries[id].id == id
    requires if cfg.root <= s.core.mem.entries[id].path then RemovalLeaves(id, s.core.disk, mid, ok)
             else ok && mid == s.core.disk
    ensures LeadsTo(cfg, s, actions, t) && t.callers == s.callers[c := Deleting(id)]
    ensures var e := s.core.mem.entries[id];
            t.core == Core(if ok then WithoutEntry(s.core.mem, e) else s.core.mem, mid,
                           Held(c, Remove(e), if ok then Creating else Removing, s.core.mem))
  {
    hide LeadsTo, RemovalLeaves, WithoutEntry;
    var e := s.core.mem.entries[id];
    t := Move(s.(core := TakeDelete(s.core, c, e, cfg.root <= e.path)), c, Deleting(id));
    Done(cfg, s);
    AndThen(cfg, s, [], s, BeginDelete(c), t);
    actions := [] + [BeginDelete(c)];
    if cfg.root <= e.path {
      var m := t;
      var files;
      files, t := RemovalRuns(cfg, m, mid, ok);
      Joined(cfg, s, actions, m, files, t);
      actions := actions + files;
    }
  }

  lemma DeleteRunsBy(cfg: Config, s: Sys, c: nat, id: string, mid: Disk, d': Disk, err: Option<Error>)
    returns (actions: seq<Action>, t: Sys)
    requires s.core.lock.Free? && c in s.callers && s.callers[c] == WantDelete(id) && Consistent(cfg, s.core.mem)
    requires id in s.core.mem.entries && DeleteLeavesBy(cfg, s.core.mem, s.core.disk, id, mid, d', err)
    ensures LeadsTo(cfg, s, actions, t) && t.callers == s.callers[c := Ended(err)]
    ensures var e := s.core.mem.entries[id];
            t.core == Core(if err == None then WithoutEntry(s.core.mem, e) else s.core.mem, d', Free)
  {
    hide LeadsTo, SaveLeaves, RemovalLeaves, Consistent, WithoutEntry, WithEntry, KeyFor, Step;
    var m, e := s.core.mem, s.core.mem.entries[id];
    KeptIDs(cfg, m, id);
    ReinsertExact(cfg, m, e);
    var open, s1 := DeleteOpens(cfg, s, c, id, mid, err != Some(RemoveFailed));
    var rest;
    if err == Some(RemoveFailed) {
      rest, t := GiveUpRuns(cfg, s1, c);
    } else {
      rest, t := DropRuns(cfg, s1, c, m, d', err == None);
    }
    Joined(cfg, s, open, s1, rest, t);
    actions := open + rest;
  }

  lemma GiveUpRuns(cfg: Config, s: Sys, c: nat) returns (actions: seq<Action>, t: Sys)
    requires s.core.lock.Held? && s.core.lock.owner == c && s.core.lock.task.Remove? && s.core.lock.phase.Removing?
    requires c in s.callers && s.callers[c].Deleting?
    ensures LeadsTo(cfg, s, actions, t) && t == Move(s.(core := s.core.(lock := Free)), c, Ended(Some(RemoveFailed)))
  {
    hide LeadsTo;
    t := Move(s.(core := Release(s.core)), c, Ended(Some(RemoveFailed)));
    Done(cfg, s);
    AndThen(cfg, s, [], s, EndDelete(c), t);
    actions := [] + [EndDelete(c)];
  }

  lemma DeleteSpecRuns(cfg: Config, s: Sys, c: nat, id: string, d': Disk, err: Option<Error>)
    returns (actions: seq<Action>, t: Sys)
    requires s.core.lock.Free? && c !in s.callers && Consistent(cfg, s.core.mem)
    requires DeleteLeaves(cfg, s.core.mem, s.core.disk, id, d', err)
    ensures LeadsTo(cfg, s, actions, t) && t.callers == s.callers[c := Ended(err)]
    ensures t.core.disk == d' && t.core.lock.Free?
    ensures if id in s.core.mem.entries && err == None
            then t.core.mem == WithoutEntry(s.core.mem, s.core.mem.entries[id]) else t.core.mem == s.core.mem
  {
    hide LeadsTo, WithoutEntry, Consistent, DeleteLeavesBy;
    var m := Move(s, c, WantDelete(id));
    Done(cfg, s);
    AndThen(cfg, s, [], s, ArriveDelete(c, id), m);
    var rest;
    if id in s.core.mem.entries {
      var mid :| DeleteLeavesBy(cfg, s.core.mem, s.core.disk, id, mid, d', err);
      rest, t := DeleteRunsBy(cfg, m, c, id, mid, d', err);
    } else {
      t := Move(m, c, Ended(Some(NotFound)));
      Done(cfg, m);
      AndThen(cfg, m, [], m, BeginDelete(c), t);
      rest := [] + [BeginDelete(c)];
    }
    Joined(cfg, s, [] + [ArriveDelete(c, id)], m, rest, t);
    actions := [] + [ArriveDelete(c, id)] + rest;
    assert t.callers == s.callers[c := Ended(err)];
  }

  /** `Delete` as the object does it is `Delete` as the system does it. */
  method DeleteRuns(store: Store, c: nat, id: string, ghost s: Sys)
    returns (err: Option<Error>, ghost actions: seq<Action>, ghost t: Sys)
    requires store.Valid() && s.core == Core(store.Mem(), store.disk, Free) && c !in s.callers
    modifies store
    ensures LeadsTo(store.cfg, s, actions, t)
    ensures t.core == Core(store.Mem(), store.disk, Free) && t.callers == s.callers[c := Ended(err)]
  {
    hide LeadsTo, WithoutEntry, Consistent, IndexOK, DeleteLeaves, DirFits, SameExcept, Older, Load;
    err := store.Delete(id);
    actions, t := DeleteSpecRuns(store.cfg, s, c, id, store.disk, err);
  }

  // ---------- Fetching ----------

  /** The directory is there and the fetcher starts. */
  lemma FetcherStarts(cfg: Config, s: Sys, c: nat, req: Request) returns (t: Sys)
    requires c in s.callers && s.callers[c] == MakeDir(req)
    ensures Step(cfg, s, MakeDirectory(c, false), t)
    ensures t.core == s.core.(disk := t.core.disk) && t.callers == s.callers[c := Fetching(req)] && t.now == s.now
    ensures forall dir :: Placed(cfg, req, t.core.disk, dir) == Placed(cfg, req, s.core.disk, dir)
  {
    hide KeyFor;
    var id := cfg.hash(Key(req));
    var begun := s.(tally := s.tally.(starts := s.tally.starts + multiset{Key(req)}));
    t := Move(if req.dest.Some? || id in s.core.disk then begun else WithDir(begun, id, Some(map[])), c, Fetching(req));
    forall dir ensures Placed(cfg, req, t.core.disk, dir) == Placed(cfg, req, s.core.disk, dir) {
      if dir.None? && req.dest.None? { assert t.core.disk - {id} == s.core.disk - {id}; }
    }
  }

  /** What it leaves, up to the walk over it. */
  lemma FetcherLeaves(cfg: Config, s: Sys, c: nat, req: Request, tree: Tree, reported: seq<string>)
    returns (actions: seq<Action>, t: Sys)
    requires c in s.callers && s.callers[c] == MakeDir(req)
    ensures LeadsTo(cfg, s, actions, t)
    ensures t.core == s.core.(disk := Placed(cfg, req, s.core.disk, Some(tree))) && t.now == s.now
    ensures t.callers == s.callers[c := Measuring(req, reported)]
  {
    hide LeadsTo, KeyFor;
    var m := FetcherStarts(cfg, s, c, req);
    Done(cfg, s);
    AndThen(cfg, s, [], s, MakeDirectory(c, false), m);
    actions := [] + [MakeDirectory(c, false)];
    if req.dest.None? {
      var n := WithDir(m, cfg.hash(Key(req)), Some(tree));
      AndThen(cfg, s, actions, m, FetcherWrites(c, tree), n);
      actions, m := actions + [FetcherWrites(c, tree)], n;
    }
    assert m.core.disk == Placed(cfg, req, s.core.disk, Some(tree));
    t := Move(m, c, Measuring(req, reported));
    AndThen(cfg, s, actions, m, FetcherReturns(c, reported), t);
    actions := actions + [FetcherReturns(c, reported)];
  }

  /** The ways a fetch fails before it takes the lock. */
  lemma FailureRuns(cfg: Config, s: Sys, c: nat, req: Request, work: Work, d': Disk, out: Outcome)
    returns (actions: seq<Action>, t: Sys)
    requires c in s.callers && s.callers[c] == MakeDir(req) && !work.Ready?
    requires FetchLeaves(cfg, req, s.now, work, s.core.mem, s.core.disk, d', out)
    ensures LeadsTo(cfg, s, actions, t)
    ensures t.core == s.core.(disk := d') && t.callers == s.callers[c := Finish(req, out, false)]
  {
    hide LeadsTo, KeyFor, Step, Placed;
    match work
    case NoDirectory => actions, t := NoDirectoryRuns(cfg, s, c, req);
    case FetcherError(remains) => actions, t := FetcherErrorRuns(cfg, s, c, req, remains);
    case Unmeasured(tree) => actions, t := UnmeasuredRuns(cfg, s, c, req, tree);
  }

  lemma NoDirectoryRuns(cfg: Config, s: Sys, c: nat, req: Request) returns (actions: seq<Action>, t: Sys)
    requires c in s.callers && s.callers[c] == MakeDir(req)
    ensures LeadsTo(cfg, s, actions, t)
    ensures t.core == s.core && t.callers == s.callers[c := Finish(req, Err(MkdirFailed), false)]
  {
    hide LeadsTo, KeyFor;
    t := FailFetch(s, c, req, MkdirFailed);
    Done(cfg, s);
    AndThen(cfg, s, [], s, MakeDirectory(c, true), t);
    actions := [] + [MakeDirectory(c, true)];
  }

  lemma FetcherErrorRuns(cfg: Config, s: Sys, c: nat, req: Request, remains: Option<Tree>)
    returns (actions: seq<Action>, t: Sys)
    requires c in s.callers && s.callers[c] == MakeDir(req)
    ensures LeadsTo(cfg, s, actions, t)
    ensures t.core == s.core.(disk := Placed(cfg, req, s.core.disk, remains))
    ensures t.callers == s.callers[c := Finish(req, Err(FetcherFailed), false)]
  {
    hide LeadsTo, KeyFor;
    Done(cfg, s);
    var m := FetcherStarts(cfg, s, c, req);
    AndThen(cfg, s, [], s, MakeDirectory(c, false), m);
    t := FailFetch(if req.dest.Some? then m else WithDir(m, cfg.hash(Key(req)), remains), c, req, FetcherFailed);
    assert t.core.disk == Placed(cfg, req, m.core.disk, remains);
    AndThen(cfg, s, [] + [MakeDirectory(c, false)], m, FetcherFails(c, remains), t);
    actions := [] + [MakeDirectory(c, false)] + [FetcherFails(c, remains)];
  }

  lemma UnmeasuredRuns(cfg: Config, s: Sys, c: nat, req: Request, tree: Tree) returns (actions: seq<Action>, t: Sys)
    requires c in s.callers && s.callers[c] == MakeDir(req)
    ensures LeadsTo(cfg, s, actions, t)
    ensures t.core == s.core.(disk := Placed(cfg, req, s.core.disk, Some(tree)))
    ensures t.callers == s.callers[c := Finish(req, Err(MeasureFailed), false)]
  {
    hide LeadsTo, KeyFor, Placed;
    var m;
    actions, m := FetcherLeaves(cfg, s, c, req, tree, []);
    t := FailFetch(m, c, req, MeasureFailed);
    AndThen(cfg, s, actions, m, MeasureDir(c, true, 0, []), t);
    actions := actions + [MeasureDir(c, true, 0, [])];
  }

  /** A fetch that gets to the lock: measured, inserted, saved or taken back. */
  lemma StagingRuns(cfg: Config, s: Sys, c: nat, req: Request, staged: Staged, d': Disk, ok: bool)
    returns (actions: seq<Action>, t: Sys)
    requires s.core.lock.Free? && c in s.callers && s.callers[c] == MakeDir(req)
    requires Measured(staged.tree, staged.size, staged.discovered)
    requires cfg.hash(Key(req)) !in s.core.mem.entries && Key(req) !in s.core.mem.byKey
    requires SaveLeaves(WithEntry(s.core.mem, NewEntry(cfg, req, staged, s.now)),
                        Placed(cfg, req, s.core.disk, Some(staged.tree)), d', ok)
    ensures LeadsTo(cfg, s, actions, t)
    ensures var e := NewEntry(cfg, req, staged, s.now);
            && t.core == Core(if ok then WithEntry(s.core.mem, e) else s.core.mem, d', Free)
            && t.callers == s.callers[c := Finish(req, if ok then Ok(e) else Err(SaveFailed), false)]
  {
    hide LeadsTo, KeyFor, SaveLeaves, Measured, SortBy, Step, WithEntry;
    var e := NewEntry(cfg, req, staged, s.now);
    var leaves, s1 := FetcherLeaves(cfg, s, c, req, staged.tree, staged.reported);
    var s2 := Move(s1, c, WantStage(req, e));
    MeasureRuns(cfg, s1, c, req, staged);
    AndThen(cfg, s, leaves, s1, MeasureDir(c, false, staged.size, staged.discovered), s2);
    var rest;
    rest, t := CommitRuns(cfg, s2, c, req, e, d', ok);
    actions := leaves + [MeasureDir(c, false, staged.size, staged.discovered)];
    Joined(cfg, s, actions, s2, rest, t);
    actions := actions + rest;
  }

  lemma MeasureRuns(cfg: Config, s: Sys, c: nat, req: Request, staged: Staged)
    requires c in s.callers && s.callers[c] == Measuring(req, staged.reported)
    requires Measured(staged.tree, staged.size, staged.discovered)
    requires req.dest.None? ==>
               var id := cfg.hash(Key(req)); id in s.core.disk && s.core.disk[id] == ModelDir(staged.tree)
    ensures Step(cfg, s, MeasureDir(c, false, staged.size, staged.discovered),
                 Move(s, c, WantStage(req, NewEntry(cfg, req, staged, s.now))))
  {
    hide KeyFor, Measured, SortBy;
  }

  lemma CommitRuns(cfg: Config, s: Sys, c: nat, req: Request, e: Entry, d': Disk, ok: bool)
    returns (actions: seq<Action>, t: Sys)
    requires s.core.lock.Free? && c in s.callers && s.callers[c] == WantStage(req, e)
    requires e.id !in s.core.mem.entries && KeyOf(e) !in s.core.mem.byKey
    requires SaveLeaves(WithEntry(s.core.mem, e), s.core.disk, d', ok)
    ensures LeadsTo(cfg, s, actions, t)
    ensures t.core == Core(if ok then WithEntry(s.core.mem, e) else s.core.mem, d', Free)
    ensures t.callers == s.callers[c := Finish(req, if ok then Ok(e) else Err(SaveFailed), false)]
  {
    RollbackExactIff(s.core.mem, e);
    hide LeadsTo, SaveLeaves, KeyFor, WithEntry, WithoutEntry;
    var m := Move(s.(core := TakeStage(s.core, c, e)), c, Staging(req, e));
    Done(cfg, s);
    AndThen(cfg, s, [], s, BeginStage(c), m);
    var saves, saved := SaveRuns(cfg, m, d', ok);
    Joined(cfg, s, [] + [BeginStage(c)], m, saves, saved);
    var r := saved.(core := Release(saved.core));
    t := if ok then
           Move(r.(tally := r.tally.(stagings := r.tally.stagings + multiset{Key(req)})), c, Finish(req, Ok(e), false))
         else FailFetch(r, c, req, SaveFailed);
    AndThen(cfg, s, [] + [BeginStage(c)] + saves, saved, EndStage(c), t);
    actions := [] + [BeginStage(c)] + saves + [EndStage(c)];
    assert t.callers == s.callers[c := Finish(req, if ok then Ok(e) else Err(SaveFailed), false)];
  }

  /** A Fetch of a model that is not indexed, when no flight of its key is under way. */
  lemma MissRuns(cfg: Config, s: Sys, c: nat, req: Request, work: Work, d': Disk, out: Outcome)
    returns (actions: seq<Action>, t: Sys)
    requires s.core.lock.Free? && c !in s.callers && Validate(cfg, req).None? && ReqOK(cfg, req) && WorkOK(work)
    requires Find(s.core.mem, Key(req)) == None && Key(req) !in s.flights
    requires cfg.hash(Key(req)) !in s.core.mem.entries && Key(req) !in s.core.mem.byKey
    requires FetchLeaves(cfg, req, s.now, work, s.core.mem, s.core.disk, d', out)
    ensures LeadsTo(cfg, s, actions, t)
    ensures t.core == Core(if out.Ok? then WithEntry(s.core.mem, out.value) else s.core.mem, d', Free)
    ensures c in t.callers && t.callers[c] == Returned(req, out, false)
  {
    hide LeadsTo, KeyFor, SaveLeaves, WithEntry, Measured, Find, Placed, NewEntry, Step;
    var lead, s1 := FetchLeads(cfg, s, c, req);
    var rest, s2;
    if work.Ready? {
      rest, s2 := StagingRuns(cfg, s1, c, req, work.staged, d', out.Ok?);
    } else {
      rest, s2 := FailureRuns(cfg, s1, c, req, work, d', out);
    }
    Joined(cfg, s, lead, s1, rest, s2);
    t := Lands(cfg, s2, c, req, out);
    AndThen(cfg, s, lead + rest, s2, LandFlight(c), t);
    actions := lead + rest + [LandFlight(c)];
  }

  lemma Lands(cfg: Config, s: Sys, c: nat, req: Request, out: Outcome) returns (t: Sys)
    requires c in s.callers && s.callers[c] == Finish(req, out, false)
    ensures Step(cfg, s, LandFlight(c), t) && t.core == s.core
    ensures c in t.callers && t.callers[c] == Returned(req, out, false)
  {
    hide KeyFor;
    t := s.(flights := s.flights - {Key(req)},
            callers := map d | d in s.callers :: Landed(s.callers[d], Key(req), out, false));
  }

  /** A Fetch of a model that is indexed, with nobody between its mark and its re-read. */
  lemma HitRuns(cfg: Config, s: Sys, c: nat, req: Request, d': Disk, ok: bool)
    returns (actions: seq<Action>, t: Sys)
    requires s.core.lock.Free? && c !in s.callers && Validate(cfg, req).None? && ReqOK(cfg, req)
    requires var id := cfg.hash(Key(req)); Find(s.core.mem, Key(req)) == Some(id) && id in s.core.mem.entries
    requires SaveLeaves(Touch(s.core.mem, cfg.hash(Key(req)), s.now), s.core.disk, d', ok)
    ensures LeadsTo(cfg, s, actions, t)
    ensures var id := cfg.hash(Key(req)); var m := Touch(s.core.mem, id, s.now);
            && t.core == Core(m, d', Free) && c in t.callers && id in m.entries
            && t.callers[c] == Returned(req, if ok then Ok(m.entries[id]) else Err(SaveFailed), false)
  {
    hide LeadsTo, KeyFor, SaveLeaves, Find;
    var id := cfg.hash(Key(req));
    var s1 := Move(s, c, Lookup(req));
    var s2 := Move(s1, c, WantMark(Fast(req), id));
    Done(cfg, s);
    AndThen(cfg, s, [], s, Arrive(c, req), s1);
    AndThen(cfg, s, [] + [Arrive(c, req)], s1, LookUp(c), s2);
    var rest, s3 := MarkRuns(cfg, s2, c, Fast(req), id, d', ok);
    actions := [] + [Arrive(c, req)] + [LookUp(c)];
    Joined(cfg, s, actions, s2, rest, s3);
    actions, t := actions + rest, s3;
    if ok {
      t := Move(s3, c, Returned(req, Ok(ReadEntry(s3.core.mem, id)), false));
      AndThen(cfg, s, actions, s3, ReRead(c), t);
      actions := actions + [ReRead(c)];
    }
  }

  lemma BadRuns(cfg: Config, s: Sys, c: nat, req: Request) returns (t: Sys)
    requires c !in s.callers && Validate(cfg, req).Some?
    ensures LeadsTo(cfg, s, [Arrive(c, req)], t) && t.core == s.core
    ensures c in t.callers && t.callers[c] == Returned(req, Err(Validate(cfg, req).value), false)
  {
    hide LeadsTo;
    t := Move(s, c, Returned(req, Err(Validate(cfg, req).value), false));
    Done(cfg, s);
    AndThen(cfg, s, [], s, Arrive(c, req), t);
    assert [] + [Arrive(c, req)] == [Arrive(c, req)];
  }

  lemma RefusalIs(cfg: Config, req: Request, out: Outcome)
    requires out == Err(SourceRequired) <==> req.source == ""
    requires out == Err(ModelRequired) <==> req.source != "" && req.modelID == ""
    requires out == Err(UnknownSource) <==> req.source != "" && req.modelID != "" && req.source !in cfg.sources
    requires out == Err(MountRequired) <==>
             req.source == "nfs" && req.modelID != "" && "nfs" in cfg.sources && req.mountSource == ""
    ensures Refused(out) <==> Validate(cfg, req).Some?
    ensures Refused(out) ==> out == Err(Validate(cfg, req).value)
  {
  }

  /** A Fetch that answers so is one of the system's. */
  lemma FetchSpecRuns(cfg: Config, s: Sys, c: nat, req: Request, work: Work, m': Maps, d': Disk, out: Outcome,
        ran: bool, faultless: bool)
    returns (actions: seq<Action>, t: Sys)
    requires ValidConfig(cfg) && Consistent(cfg, s.core.mem) && s.core.lock.Free? && c !in s.callers
    requires Validate(cfg, req).None? ==> ReqOK(cfg, req) && Key(req) !in s.flights && WorkOK(work)
    requires if Validate(cfg, req).Some? then
               out == Err(Validate(cfg, req).value) && m' == s.core.mem && d' == s.core.disk
             else if ran then
               && cfg.hash(Key(req)) !in s.core.mem.entries
               && MissAnswer(cfg, req, s.now, work, s.core.mem, m', out, faultless)
               && FetchLeaves(cfg, req, s.now, work, s.core.mem, s.core.disk, d', out)
             else
               && HitAnswer(s.core.mem, cfg.hash(Key(req)), s.now, m', out, faultless)
               && SaveLeaves(m', s.core.disk, d', out.Ok?)
    ensures LeadsTo(cfg, s, actions, t) && t.core == Core(m', d', Free)
    ensures c in t.callers && t.callers[c] == Returned(req, out, false)
  {
    hide LeadsTo, SaveLeaves, FetchLeaves, KeyFor, Find, WorkOK, ReqOK, Validate, Consistent, ValidConfig, MissAnswer,
         HitAnswer, WithEntry, Touch;
    Indexed(cfg, s.core.mem, req);
    AnswersBoth(cfg, req, s.now, work, s.core.mem, m', out, faultless);
    if Validate(cfg, req).Some? {
      t := BadRuns(cfg, s, c, req);
      actions := [Arrive(c, req)];
    } else if ran {
      actions, t := MissRuns(cfg, s, c, req, work, d', out);
    } else {
      actions, t := HitRuns(cfg, s, c, req, d', out.Ok?);
    }
  }

  /** The answer of the object, as the system's runs want it. */
  lemma AnswersBoth(cfg: Config, req: Request, now: int, work: Work, m: Maps, m': Maps, out: Outcome, faultless: bool)
    ensures MissAnswer(cfg, req, now, work, m, m', out, faultless) ==>
            m' == if out.Ok? then WithEntry(m, out.value) else m
    ensures var id := cfg.hash(Key(req));
            HitAnswer(m, id, now, m', out, faultless) ==>
              && id in m.entries && m' == Touch(m, id, now)
              && out == if out.Ok? then Ok(m'.entries[id]) else Err(SaveFailed)
  {
  }

  /** `Fetch` as the object does it is `Fetch` as the system does it when no other caller acts meanwhile. */
  method FetchRuns(store: Store, c: nat, req: Request, now: int, work: Work, ghost s: Sys)
    returns (out: Outcome, ran: bool, ghost actions: seq<Action>, ghost t: Sys)
    requires store.Valid() && UsedBefore(store.Mem(), now) && WorkOK(work)
    requires Validate(store.cfg, req).None? ==> ReqOK(store.cfg, req) && Key(req) !in s.flights
    requires s.core == Core(store.Mem(), store.disk, Free) && c !in s.callers && s.now == now
    modifies store
    ensures LeadsTo(store.cfg, s, actions, t)
    ensures t.core == Core(store.Mem(), store.disk, Free)
    ensures c in t.callers && t.callers[c] == Returned(req, out, false)
  {
    hide LeadsTo, SaveLeaves, FetchLeaves, UsedBefore, Find, WorkOK, ReqOK, SameOther, Older, Validate, MissAnswer,
         HitAnswer, EntryFor, Load, Refused, Consistent, ValidConfig, IndexOK;
    out, ran := store.Fetch(req, now, work);
    RefusalIs(store.cfg, req, out);
    actions, t := FetchSpecRuns(store.cfg, s, c, req, work, store.Mem(), store.disk, out, ran, store.faultless);
  }

  lemma Indexed(cfg: Config, m: Maps, req: Request)
    requires ValidConfig(cfg) && Consistent(cfg, m)
    ensures ReqOK(cfg, req) ==>
            var id := cfg.hash(Key(req));
            if id in m.entries then Find(m, Key(req)) == Some(id)
            else Find(m, Key(req)) == None && Key(req) !in m.byKey
  {
    if ReqOK(cfg, req) { IndexedIff(cfg, m, Key(req)); }
  }
}
