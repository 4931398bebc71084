/** The steps that take, hold or give back the write lock, end a flight, or end the process, keep the
    invariant of the store system. */
module StoreLocks {
  import opened Index
  import opened StoreCore
  import opened StoreSystem
  import opened StoreSafety
  import opened StoreSteps

  // ---------- Steps of one caller that change the maps or the lock ----------

  ghost predicate OthersStable(cfg: Config, s: Sys, c: nat, s': Sys) {
    forall d :: d in s.callers && d != c ==> StableFor(cfg, s, s', s.callers[d])
  }

  /** `c` takes the free lock or gives back the one it holds; nobody else's lock changes hands. */
  ghost predicate LockMove(s: Sys, c: nat, pc: Pc, s': Sys) {
    && c in s.callers
    && s' == s.(core := s'.core, callers := s.callers[c := pc], tally := s'.tally, damaged := s'.damaged)
    && (if s'.core.lock.Held?
        then s.core.lock.Free? && s'.core.lock.owner == c && TaskFits(pc, s'.core.lock.task)
        else s.core.lock.Held? && s.core.lock.owner == c && !Holding(pc))
    && LeaderOf(pc) == LeaderOf(s.callers[c])
    && !pc.Follow?
  }

  lemma LockMoveShared(s: Sys, c: nat, pc: Pc, s': Sys)
    requires LockInv(s) && FlightInv(s) && LockMove(s, c, pc, s')
    ensures LockInv(s') && FlightInv(s')
  {
    assert forall d :: Leads(s', d) == Leads(s, d);
  }

  lemma LockMoveCallers(cfg: Config, s: Sys, c: nat, pc: Pc, s': Sys)
    requires CallersInv(cfg, s) && LockMove(s, c, pc, s') && OthersStable(cfg, s, c, s')
    requires PcOK(cfg, s'.core, s'.tally.deletes, s'.now, pc)
    ensures CallersInv(cfg, s')
  {
    forall d | d in s'.callers ensures PcOK(cfg, s'.core, s'.tally.deletes, s'.now, s'.callers[d]) {
      if d != c {
        assert StableFor(cfg, s, s', s.callers[d]);
        StableKeeps(cfg, s, s', s.callers[d]);
      }
    }
  }

  lemma LockMoveKeeps(cfg: Config, s: Sys, c: nat, pc: Pc, s': Sys)
    requires Inv(cfg, s) && LockMove(s, c, pc, s') && OthersStable(cfg, s, c, s')
    requires PcOK(cfg, s'.core, s'.tally.deletes, s'.now, pc)
    requires CoreInv(cfg, s'.core, s'.now) && TallyInv(s') && DirInv(cfg, s')
    ensures Inv(cfg, s')
  {
    LockMoveShared(s, c, pc, s');
    LockMoveCallers(cfg, s, c, pc, s');
  }

  /** With the settled keys and the tally untouched, only whether `c` still runs can matter. */
  lemma SameTally(s: Sys, c: nat, pc: Pc, s': Sys)
    requires TallyInv(s) && FlightInv(s) && LockMove(s, c, pc, s') && s'.tally == s.tally
    requires Settled(s'.core).byKey.Keys == Settled(s.core).byKey.Keys
    requires Running(s.callers[c]) ==> Running(pc)
    ensures TallyInv(s')
  {
    forall k ensures One(IsRunning(s, k)) <= One(IsRunning(s', k)) {
    }
  }

  // ---------- markUsed ----------

  lemma MarkStable(cfg: Config, s: Sys, c: nat, s': Sys)
    requires s'.now == s.now && s'.tally == s.tally && s'.core.disk == s.core.disk
    requires s'.core.mem.byKey == s.core.mem.byKey && Settled(s'.core).byKey == Settled(s.core).byKey
    ensures OthersStable(cfg, s, c, s')
  {
  }

  lemma MarkDirs(cfg: Config, s: Sys, s': Sys)
    requires DirInv(cfg, s) && s'.core.disk == s.core.disk && s'.damaged == s.damaged
    requires Older(s.core.mem.entries, s'.core.mem.entries)
    requires Settled(s'.core) == s.core.mem || Settled(s'.core) == s'.core.mem
    requires s'.core.lock.Held? ==> s'.core.lock.task.Mark?
    ensures DirInv(cfg, s')
  {
    forall id | id in s'.core.mem.entries && id !in s.damaged
          ensures DirFits(cfg, s.core.disk, s'.core.mem.entries[id]) {
      assert id in s.core.mem.entries;
    }
  }

  lemma BeginMarkPc(cfg: Config, s: Sys, c: nat, s': Sys)
    requires StepBeginMark(s, c, s') && s.callers[c].id in s.core.mem.entries
    requires PcOK(cfg, s.core, s.tally.deletes, s.now, s.callers[c])
    ensures var pc := Marking(s.callers[c].why, s.callers[c].id);
            LockMove(s, c, pc, s') && PcOK(cfg, s'.core, s'.tally.deletes, s'.now, pc)
    ensures s'.core == TakeMark(s.core, c, s.callers[c].id, s.now) && s'.tally == s.tally && s'.damaged == s.damaged
    ensures s.callers[c].WantMark?
  {
  }

  /** A change of the maps in LastUsedAt alone. */
  ghost predicate MarkChange(s: Sys, s': Sys) {
    && s'.core.disk == s.core.disk && s'.damaged == s.damaged && s'.tally == s.tally && s'.now == s.now
    && s'.core.mem.byKey == s.core.mem.byKey && Settled(s'.core).byKey == Settled(s.core).byKey
    && Older(s.core.mem.entries, s'.core.mem.entries)
    && (Settled(s'.core) == s.core.mem || Settled(s'.core) == s'.core.mem)
    && (s'.core.lock.Held? ==> s'.core.lock.task.Mark?)
  }

  lemma MarkMoveKeeps(cfg: Config, s: Sys, c: nat, pc: Pc, s': Sys)
    requires Inv(cfg, s) && LockMove(s, c, pc, s') && MarkChange(s, s')
    requires PcOK(cfg, s'.core, s'.tally.deletes, s'.now, pc) && CoreInv(cfg, s'.core, s'.now)
    requires !Running(s.callers[c])
    ensures Inv(cfg, s')
  {
    MarkStable(cfg, s, c, s');
    MarkDirs(cfg, s, s');
    SameTally(s, c, pc, s');
    LockMoveKeeps(cfg, s, c, pc, s');
  }

  lemma BeginMarkCore(cfg: Config, s: Sys, c: nat, s': Sys)
    requires CoreInv(cfg, s.core, s.now) && StepBeginMark(s, c, s') && s.callers[c].id in s.core.mem.entries
    ensures CoreInv(cfg, s'.core, s'.now) && MarkChange(s, s')
  {
    TakeMarkKeeps(cfg, s.core, c, s.callers[c].id, s.now);
    OlderTouched(s.core.mem, s.callers[c].id, s.now);
  }

  lemma BeginMarkKeeps(cfg: Config, s: Sys, c: nat, s': Sys)
    requires ValidConfig(cfg) && Inv(cfg, s) && StepBeginMark(s, c, s') && s.callers[c].id in s.core.mem.entries
    ensures Inv(cfg, s')
  {
    hide CoreInv, CallersInv, FlightInv, TallyInv, DirInv, LockInv, PcOK, MarkChange, LockMove;
    CallerOK(cfg, s, c);
    BeginMarkPc(cfg, s, c, s');
    BeginMarkCore(cfg, s, c, s');
    MarkMoveKeeps(cfg, s, c, Marking(s.callers[c].why, s.callers[c].id), s');
  }

  lemma EndMarkCore(cfg: Config, s: Sys, c: nat, s': Sys)
    requires CoreInv(cfg, s.core, s.now) && LockInv(s) && StepEndMark(s, c, s')
    ensures s.core.lock.task == Mark(s.callers[c].id)
    ensures s'.core == Core(s.core.mem, s.core.disk, Free) && CoreInv(cfg, s'.core, s'.now)
    ensures MarkChange(s, s') && s.callers[c].id in s.core.mem.entries && s.callers[c].Marking?
  {
    assert TaskFits(s.callers[c], s.core.lock.task);
    ReleaseKeeps(cfg, s.core, s.now);
  }

  lemma MarkedKey(cfg: Config, s: Sys, c: nat)
    requires ValidConfig(cfg) && Consistent(cfg, s.core.mem) && c in s.callers && s.callers[c].Marking?
    requires PcOK(cfg, s.core, s.tally.deletes, s.now, s.callers[c]) && s.callers[c].id in s.core.mem.entries
    ensures !s.callers[c].why.Direct? ==> Key(s.callers[c].why.req) in s.core.mem.byKey
  {
    if !s.callers[c].why.Direct? { IndexedIff(cfg, s.core.mem, Key(s.callers[c].why.req)); }
  }

  lemma EndMarkPc(cfg: Config, s: Sys, c: nat, s': Sys)
    requires StepEndMark(s, c, s') && s'.core == Core(s.core.mem, s.core.disk, Free)
    requires PcOK(cfg, s.core, s.tally.deletes, s.now, s.callers[c])
    requires !s.callers[c].why.Direct? ==> Key(s.callers[c].why.req) in s.core.mem.byKey
    ensures LockMove(s, c, s'.callers[c], s')
    ensures PcOK(cfg, s'.core, s'.tally.deletes, s'.now, s'.callers[c])
  {
  }

  lemma EndMarkKeeps(cfg: Config, s: Sys, c: nat, s': Sys)
    requires ValidConfig(cfg) && Inv(cfg, s) && StepEndMark(s, c, s')
    ensures Inv(cfg, s')
  {
    hide CoreInv, CallersInv, FlightInv, TallyInv, DirInv, LockInv, PcOK, MarkChange, LockMove;
    CallerOK(cfg, s, c);
    EndMarkCore(cfg, s, c, s');
    MarkedKey(cfg, s, c);
    EndMarkPc(cfg, s, c, s');
    MarkMoveKeeps(cfg, s, c, s'.callers[c], s');
  }

  // ---------- The commit of a staged entry ----------

  lemma BeginStageStable(cfg: Config, s: Sys, c: nat, s': Sys)
    requires FlightInv(s) && StepBeginStage(s, c, s') && EntryFor(cfg, s.callers[c].req, s.callers[c].entry)
    ensures OthersStable(cfg, s, c, s')
  {
    var e := s.callers[c].entry;
    forall d | d in s.callers && d != c ensures StableFor(cfg, s, s', s.callers[d]) {
      if PastCheck(s.callers[d]) && Key(s.callers[d].req) == KeyOf(e) { OneLeader(s, c, d); }
    }
  }

  lemma BeginStageDirs(cfg: Config, s: Sys, c: nat, s': Sys)
    requires DirInv(cfg, s) && StepBeginStage(s, c, s') && DirFits(cfg, s.core.disk, s.callers[c].entry)
    ensures DirInv(cfg, s')
  {
  }

  lemma BeginStagePc(cfg: Config, s: Sys, c: nat, s': Sys)
    requires StepBeginStage(s, c, s') && PcOK(cfg, s.core, s.tally.deletes, s.now, s.callers[c])
    ensures var pc := Staging(s.callers[c].req, s.callers[c].entry);
            LockMove(s, c, pc, s') && PcOK(cfg, s'.core, s'.tally.deletes, s'.now, pc)
    ensures s'.tally == s.tally && Settled(s'.core) == Settled(s.core) && s'.now == s.now
    ensures s'.core == TakeStage(s.core, c, s.callers[c].entry)
  {
  }

  lemma BeginStageCore(cfg: Config, s: Sys, c: nat)
    requires ValidConfig(cfg) && CoreInv(cfg, s.core, s.now) && s.core.lock.Free?
    requires c in s.callers && s.callers[c].WantStage? && PcOK(cfg, s.core, s.tally.deletes, s.now, s.callers[c])
    ensures CoreInv(cfg, TakeStage(s.core, c, s.callers[c].entry), s.now)
  {
    TakeStageKeeps(cfg, s.core, c, s.callers[c].entry, s.now);
  }

  lemma BeginStageKeeps(cfg: Config, s: Sys, c: nat, s': Sys)
    requires ValidConfig(cfg) && Inv(cfg, s) && StepBeginStage(s, c, s')
    ensures Inv(cfg, s')
  {
    hide CoreInv, CallersInv, FlightInv, TallyInv, DirInv, LockInv;
    CallerOK(cfg, s, c);
    BeginStageCore(cfg, s, c);
    BeginStagePc(cfg, s, c, s');
    BeginStageStable(cfg, s, c, s');
    BeginStageDirs(cfg, s, c, s');
    SameTally(s, c, Staging(s.callers[c].req, s.callers[c].entry), s');
    LockMoveKeeps(cfg, s, c, Staging(s.callers[c].req, s.callers[c].entry), s');
  }

  /** What the release of a staging does: keep the new entry, or go back to the maps found. */
  lemma EndStageMaps(cfg: Config, s: Sys, c: nat, s': Sys)
    requires CoreInv(cfg, s.core, s.now) && LockInv(s) && StepEndStage(s, c, s')
    ensures s.core.lock.task == Stage(s.callers[c].entry)
    ensures s'.core.mem == (if s.core.lock.phase.Saved? then WithEntry(s.core.lock.before, s.callers[c].entry)
          else s.core.lock.before)
    ensures s.core.mem == WithEntry(s.core.lock.before, s.callers[c].entry)
    ensures KeyOf(s.callers[c].entry) !in s.core.lock.before.byKey
  {
    assert TaskFits(s.callers[c], s.core.lock.task);
    if !s.core.lock.phase.Saved? { RollbackRestores(cfg, s.core, s.now); }
  }

  lemma EndStageTally(cfg: Config, s: Sys, c: nat, s': Sys)
    requires TallyInv(s) && FlightInv(s) && StepEndStage(s, c, s')
          && EntryFor(cfg, s.callers[c].req, s.callers[c].entry)
    requires s'.core.mem == (if s.core.lock.phase.Saved? then WithEntry(s.core.lock.before, s.callers[c].entry)
          else s.core.lock.before)
    requires KeyOf(s.callers[c].entry) !in s.core.lock.before.byKey
    ensures TallyInv(s')
  {
    var req := s.callers[c].req;
    if s.core.lock.phase.Saved? {
      forall k ensures s'.tally.starts[k] <= s'.tally.stagings[k] + s'.tally.failures[k] + One(IsRunning(s', k)) {
        if k != Key(req) { assert IsRunning(s', k) == IsRunning(s, k); }
      }
    } else {
      FailTally(cfg, s, c, s.(core := Release(s.core)), req, SaveFailed, s');
    }
  }

  /** Giving the lock back with the maps either as they are or as they were found troubles nobody. */
  lemma ReleaseStable(cfg: Config, s: Sys, c: nat, s': Sys)
    requires s'.now == s.now && s'.tally.deletes == s.tally.deletes && s'.core.disk == s.core.disk
    requires s.core.lock.Held? && s'.core.lock.Free?
    requires s'.core.mem.byKey == s.core.lock.before.byKey
          || (s'.core.mem.byKey == s.core.mem.byKey && s.core.lock.before.byKey.Keys <= s.core.mem.byKey.Keys)
    ensures OthersStable(cfg, s, c, s')
  {
  }

  lemma EndStagePc(cfg: Config, s: Sys, c: nat, s': Sys)
    requires StepEndStage(s, c, s') && PcOK(cfg, s.core, s.tally.deletes, s.now, s.callers[c])
    ensures LockMove(s, c, s'.callers[c], s')
    ensures PcOK(cfg, s'.core, s'.tally.deletes, s'.now, s'.callers[c])
    ensures s'.damaged == s.damaged && s'.tally.deletes == s.tally.deletes && s'.core == Release(s.core)
  {
  }

  lemma EndStageKeeps(cfg: Config, s: Sys, c: nat, s': Sys)
    requires ValidConfig(cfg) && Inv(cfg, s) && StepEndStage(s, c, s')
    ensures Inv(cfg, s')
  {
    CallerOK(cfg, s, c);
    EndStageMaps(cfg, s, c, s');
    EndStagePc(cfg, s, c, s');
    ReleaseKeeps(cfg, s.core, s.now);
    EndStageTally(cfg, s, c, s');
    ReleaseStable(cfg, s, c, s');
    LockMoveKeeps(cfg, s, c, s'.callers[c], s');
  }

  // ---------- Delete ----------

  lemma BeginDeletePc(cfg: Config, s: Sys, c: nat, s': Sys)
    requires StepBeginDelete(cfg, s, c, s') && s.callers[c].id in s.core.mem.entries
    requires s.core.mem.entries[s.callers[c].id].id == s.callers[c].id
    ensures LockMove(s, c, Deleting(s.callers[c].id), s') && s'.tally == s.tally && s'.damaged == s.damaged
    ensures Settled(s'.core) == Settled(s.core) == s.core.mem && s'.now == s.now && s'.core.disk == s.core.disk
    ensures s'.core.mem.byKey.Keys <= s.core.mem.byKey.Keys
  {
  }

  lemma ShrinkStable(cfg: Config, s: Sys, c: nat, s': Sys)
    requires s'.now == s.now && s'.tally == s.tally && s'.core.disk == s.core.disk
    requires Settled(s'.core) == Settled(s.core) && s'.core.mem.byKey.Keys <= s.core.mem.byKey.Keys
    ensures OthersStable(cfg, s, c, s')
  {
  }

  lemma BeginDeleteDirs(cfg: Config, s: Sys, c: nat, s': Sys)
    requires DirInv(cfg, s) && s.core.lock.Free? && StepBeginDelete(cfg, s, c, s')
          && s.callers[c].id in s.core.mem.entries
    requires Consistent(cfg, s.core.mem)
    ensures DirInv(cfg, s')
  {
    var e := s.core.mem.entries[s.callers[c].id];
    assert PathOK(cfg, e);
  }

  lemma BeginDeleteKeeps(cfg: Config, s: Sys, c: nat, s': Sys)
    requires ValidConfig(cfg) && Inv(cfg, s) && StepBeginDelete(cfg, s, c, s') && s.callers[c].id in s.core.mem.entries
    ensures Inv(cfg, s')
  {
    hide CoreInv, CallersInv, FlightInv, TallyInv, DirInv, LockInv, PcOK;
    var id := s.callers[c].id;
    var e := s.core.mem.entries[id];
    CallerOK(cfg, s, c);
    TakeDeleteKeeps(cfg, s.core, c, e, cfg.root <= e.path, s.now);
    BeginDeletePc(cfg, s, c, s');
    ShrinkStable(cfg, s, c, s');
    BeginDeleteDirs(cfg, s, c, s');
    SameTally(s, c, Deleting(id), s');
    LockMoveKeeps(cfg, s, c, Deleting(id), s');
  }

  lemma EndDeleteMaps(cfg: Config, s: Sys, c: nat, s': Sys)
    requires CoreInv(cfg, s.core, s.now) && StepEndDelete(s, c, s')
    ensures var e := s.core.lock.task.gone;
            && e.id in s.core.lock.before.entries && s.core.lock.before.entries[e.id] == e
            && KeyOf(e) in s.core.lock.before.byKey
            && s'.core.mem == (if s.core.lock.phase.Saved? then WithoutEntry(s.core.lock.before, e)
                  else s.core.lock.before)
  {
    if !s.core.lock.phase.Saved? { RollbackRestores(cfg, s.core, s.now); }
  }

  lemma EndDeletePc(cfg: Config, s: Sys, c: nat, s': Sys)
    requires StepEndDelete(s, c, s')
    ensures LockMove(s, c, s'.callers[c], s')
    ensures PcOK(cfg, s'.core, s'.tally.deletes, s'.now, s'.callers[c])
    ensures s'.core == Release(s.core)
  {
  }

  lemma EndDeleteStable(cfg: Config, s: Sys, c: nat, s': Sys)
    requires StepEndDelete(s, c, s')
    requires s'.core.mem == if s.core.lock.phase.Saved? then WithoutEntry(s.core.lock.before, s.core.lock.task.gone)
          else s.core.lock.before
    ensures OthersStable(cfg, s, c, s')
  {
  }

  lemma EndDeleteTally(s: Sys, c: nat, s': Sys)
    requires TallyInv(s) && FlightInv(s) && StepEndDelete(s, c, s')
          && KeyOf(s.core.lock.task.gone) in s.core.lock.before.byKey
    requires s'.core.mem == if s.core.lock.phase.Saved? then WithoutEntry(s.core.lock.before, s.core.lock.task.gone)
          else s.core.lock.before
    ensures TallyInv(s')
  {
    forall k ensures IsRunning(s', k) == IsRunning(s, k) {
    }
  }

  lemma EndDeleteDirs(cfg: Config, s: Sys, c: nat, s': Sys)
    requires DirInv(cfg, s) && StepEndDelete(s, c, s')
    requires s'.core.mem == if s.core.lock.phase.Saved? then WithoutEntry(s.core.lock.before, s.core.lock.task.gone)
          else s.core.lock.before
    ensures DirInv(cfg, s')
  {
  }

  lemma EndDeleteKeeps(cfg: Config, s: Sys, c: nat, s': Sys)
    requires ValidConfig(cfg) && Inv(cfg, s) && StepEndDelete(s, c, s')
    ensures Inv(cfg, s')
  {
    hide CoreInv, CallersInv, FlightInv, TallyInv, DirInv, LockInv, PcOK;
    EndDeleteMaps(cfg, s, c, s');
    EndDeletePc(cfg, s, c, s');
    ReleaseKeeps(cfg, s.core, s.now);
    EndDeleteStable(cfg, s, c, s');
    EndDeleteTally(s, c, s');
    EndDeleteDirs(cfg, s, c, s');
    LockMoveKeeps(cfg, s, c, s'.callers[c], s');
  }
}
