/** Where the store loses files: a Delete removes them before it saves the index, and does not bring them
    back when the save fails or the process dies in between. */
module StoreLoss {
  import opened Wrappers
  import opened Text
  import opened Index
  import opened Files
  import opened StoreCore
  import opened StoreSystem
  import opened StoreSafety
  import opened StoreLocks
  import opened StoreFileSteps
  import opened StoreTheorems

  // ---------- Directories of indexed entries do not come back ----------

  lemma OtherStepsKeepDisk(cfg: Config, s: Sys, a: Action, s': Sys)
    requires Step(cfg, s, a, s') && !a.Save? && !a.MakeDirectory? && !a.FetcherWrites? && !a.FetcherFails?
    requires !a.RemoveSome? && !a.RemoveAll?
    ensures s'.core.disk == s.core.disk
  {
    hide KeyFor, Find, Validate, DestOf, Measured, SortBy, WithEntry, WithoutEntry, Touch;
  }

  lemma SaveKeepsDirs(cfg: Config, s: Sys, a: Action, s': Sys, id: string)
    requires Inv(cfg, s) && Step(cfg, s, a, s') && a.Save? && id != INDEX_NAME && !IsTempName(id)
    ensures id in s'.core.disk <==> id in s.core.disk
  {
    hide LockInv, FlightInv, TallyInv, CallersInv, DirInv, Consistent, IndexOK, DiskMatches, TaskOK, IsListing;
  }

  lemma RemovalMakesNothing(cfg: Config, s: Sys, a: Action, s': Sys, id: string)
    requires Step(cfg, s, a, s') && (a.RemoveSome? || a.RemoveAll?) && id !in s.core.disk
    ensures id !in s'.core.disk
  {
    hide KeyFor;
  }

  lemma IndexedIsPlain(cfg: Config, s: Sys, id: string)
    requires ValidConfig(cfg) && Inv(cfg, s) && id in Settled(s.core).entries
    ensures id != INDEX_NAME && !IsTempName(id)
  {
    hide LockInv, FlightInv, TallyInv, CallersInv, DirInv;
    CoreConsistent(cfg, s);
    HexIsPlain(cfg, KeyOf(Settled(s.core).entries[id]));
  }

  /** No step makes the directory of an entry that is indexed. */
  lemma NoNewDir(cfg: Config, s: Sys, a: Action, s': Sys, id: string)
    requires ValidConfig(cfg) && Inv(cfg, s) && Step(cfg, s, a, s')
    requires id in Settled(s.core).entries && id !in s.core.disk
    ensures id !in s'.core.disk
  {
    hide Inv, Step, Settled, ValidConfig;
    if a.Save? {
      IndexedIsPlain(cfg, s, id);
      SaveKeepsDirs(cfg, s, a, s', id);
    } else if a.MakeDirectory? || a.FetcherWrites? || a.FetcherFails? {
      FetchStepTouchesOwn(cfg, s, a, s', id);
    } else if a.RemoveSome? || a.RemoveAll? {
      RemovalMakesNothing(cfg, s, a, s', id);
    } else {
      OtherStepsKeepDisk(cfg, s, a, s');
    }
  }

  /** In every run: while an entry stays indexed its directory, once gone, stays gone, whatever callers
      fetch and whenever the process restarts. */
  lemma {:induction false} LostStays(cfg: Config, states: seq<Sys>, actions: seq<Action>, i: nat, j: nat, id: string)
    requires ValidConfig(cfg) && IsRun(cfg, states, actions) && i <= j < |states|
    requires forall n :: i <= n <= j ==> id in Settled(states[n].core).entries
    requires id !in states[i].core.disk
    ensures id !in states[j].core.disk
    decreases j - i
  {
    hide Inv, Init, Step;
    if i < j {
      LostStays(cfg, states, actions, i, j - 1, id);
      StepAt(cfg, states, actions, j - 1);
      NoNewDir(cfg, states[j - 1], actions[j - 1], states[j], id);
    }
  }

  // ---------- The Delete that loses ----------

  /** While a Delete of the store's own files is past their removal, they are gone. */
  ghost predicate FilesGone(cfg: Config, s: Sys) {
    s.core.lock.Held? && s.core.lock.task.Remove? && !s.core.lock.phase.Removing? ==>
      IsDefault(cfg, s.core.lock.task.gone) ==> s.core.lock.task.gone.id !in s.core.disk
  }

  lemma GoneSettled(cfg: Config, s: Sys)
    requires Inv(cfg, s) && s.core.lock.Held? && s.core.lock.task.Remove?
    ensures var e := s.core.lock.task.gone; e.id in Settled(s.core).entries && Settled(s.core).entries[e.id] == e
  {
    hide LockInv, FlightInv, TallyInv, CallersInv, DirInv, Consistent, IndexOK, DiskMatches, TempOK;
  }

  /** How a step comes to a Delete past its removal: it was there, or has just removed the files. */
  lemma PastRemoval(cfg: Config, s: Sys, a: Action, s': Sys)
    requires Step(cfg, s, a, s')
    requires s'.core.lock.Held? && s'.core.lock.task.Remove? && !s'.core.lock.phase.Removing?
    requires IsDefault(cfg, s'.core.lock.task.gone)
    ensures (a.RemoveAll? && s'.core.lock.task.gone.id !in s'.core.disk)
         || (s.core.lock.Held? && s.core.lock.task == s'.core.lock.task && !s.core.lock.phase.Removing?)
  {
    hide KeyFor, Find, Validate, DestOf, Measured, SortBy, WithEntry, WithoutEntry, Touch, WithModelDir, IsListing;
    assert cfg.root <= cfg.root + [s'.core.lock.task.gone.id];
  }

  lemma FilesStayGone(cfg: Config, s: Sys, a: Action, s': Sys)
    requires ValidConfig(cfg) && Inv(cfg, s) && FilesGone(cfg, s) && Step(cfg, s, a, s')
    requires s'.core.lock.Held? && s'.core.lock.task.Remove? && !s'.core.lock.phase.Removing?
    requires IsDefault(cfg, s'.core.lock.task.gone)
    ensures s'.core.lock.task.gone.id !in s'.core.disk
  {
    hide Inv, Step, ValidConfig, Settled, IsDefault;
    PastRemoval(cfg, s, a, s');
    if s.core.lock.Held? && s.core.lock.task == s'.core.lock.task && !s.core.lock.phase.Removing? {
      GoneSettled(cfg, s);
      NoNewDir(cfg, s, a, s', s.core.lock.task.gone.id);
    }
  }

  lemma StepLeavesGone(cfg: Config, s: Sys, a: Action, s': Sys)
    requires ValidConfig(cfg) && Inv(cfg, s) && FilesGone(cfg, s) && Step(cfg, s, a, s')
    ensures FilesGone(cfg, s')
  {
    hide Inv, Step, ValidConfig, Settled, IsDefault;
    if s'.core.lock.Held? && s'.core.lock.task.Remove? && !s'.core.lock.phase.Removing? {
      if IsDefault(cfg, s'.core.lock.task.gone) { FilesStayGone(cfg, s, a, s'); }
    }
  }

  lemma {:induction false} RunLeavesGone(cfg: Config, states: seq<Sys>, actions: seq<Action>, i: nat)
    requires ValidConfig(cfg) && IsRun(cfg, states, actions) && i < |states|
    ensures FilesGone(cfg, states[i])
  {
    hide Inv, Step;
    if i > 0 {
      RunLeavesGone(cfg, states, actions, i - 1);
      StepAt(cfg, states, actions, i - 1);
      StepLeavesGone(cfg, states[i - 1], actions[i - 1], states[i]);
    }
  }

  /** In every run a Delete that returns because its save failed leaves its entry indexed as it was, and
      the entry then has its files exactly when they are not in the store's own directory. */
  lemma FailedDeleteLosesFiles(cfg: Config, states: seq<Sys>, actions: seq<Action>, i: nat)
    requires ValidConfig(cfg) && IsRun(cfg, states, actions) && i < |actions| && actions[i].EndDelete?
    requires states[i].core.lock.Held? && states[i].core.lock.task.Remove? && states[i].core.lock.phase.Unsaved?
    ensures var e, t := states[i].core.lock.task.gone, states[i + 1];
            && e.id in t.core.mem.entries && t.core.mem.entries[e.id] == e
            && (DirFits(cfg, t.core.disk, e) <==> !IsDefault(cfg, e))
            && actions[i].c in t.callers && t.callers[actions[i].c] == Ended(Some(SaveFailed))
  {
    hide Inv, Init;
    RunLeavesGone(cfg, states, actions, i);
    StepAt(cfg, states, actions, i);
    LossAt(cfg, states[i], actions[i].c, states[i + 1]);
  }

  lemma LossAt(cfg: Config, s: Sys, c: nat, s': Sys)
    requires ValidConfig(cfg) && Inv(cfg, s) && FilesGone(cfg, s)
    requires StepEndDelete(s, c, s') && s.core.lock.phase.Unsaved?
    ensures var e := s.core.lock.task.gone;
            && e.id in s'.core.mem.entries && s'.core.mem.entries[e.id] == e
            && (DirFits(cfg, s'.core.disk, e) <==> !IsDefault(cfg, e))
            && c in s'.callers && s'.callers[c] == Ended(Some(SaveFailed))
  {
    hide LockInv, FlightInv, TallyInv, CallersInv, DirInv, CoreInv;
    EndDeleteMaps(cfg, s, c, s');
  }

  /** So does a crash between the removal and the rename: the next process has the entry and not its files. */
  lemma CrashLosesFiles(cfg: Config, states: seq<Sys>, actions: seq<Action>, i: nat)
    requires ValidConfig(cfg) && IsRun(cfg, states, actions) && i < |states|
    requires states[i].core.lock.Held? && states[i].core.lock.task.Remove?
    requires IsDefault(cfg, states[i].core.lock.task.gone)
    requires !states[i].core.lock.phase.Removing? && !states[i].core.lock.phase.Saved?
    ensures var id, t := states[i].core.lock.task.gone.id, Restarted(states[i]);
            id in t.core.mem.entries && id !in t.core.disk
  {
    hide Inv, Init, IsRun;
    RunLeavesGone(cfg, states, actions, i);
    RunHolds(cfg, states, actions, i);
    CrashAnywhere(cfg, states, actions, i);
    GoneSettled(cfg, states[i]);
    UnsavedReload(cfg, states[i]);
  }

  lemma UnsavedReload(cfg: Config, s: Sys)
    requires Inv(cfg, s) && s.core.lock.Held? && !s.core.lock.phase.Saved?
    ensures Reload(s.core.disk).entries.Keys == Settled(s.core).entries.Keys
  {
    hide LockInv, FlightInv, TallyInv, CallersInv, DirInv, Consistent, IndexOK, TaskOK, TempOK;
  }
}
