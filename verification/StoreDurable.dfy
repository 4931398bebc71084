/** Counting over whole runs, crashes and restarts included: what counts is what the renames have made
    durable. */
module StoreDurable {
  import opened Text
  import opened Index
  import opened Files
  import opened StoreCore
  import opened StoreSystem
  import opened StoreSafety
  import opened StoreFileSteps
  import opened StoreTheorems
  import opened StoreLoss

  // ---------- What is durable ----------

  /** The rename of a save. */
  predicate Renames(s: Sys, a: Action) {
    a.Save? && !a.fault && s.core.lock.Held? && s.core.lock.phase.Renaming?
  }

  predicate CommitsAt(s: Sys, a: Action, key: string) {
    Renames(s, a) && s.core.lock.task.Stage? && KeyOf(s.core.lock.task.entry) == key
  }

  predicate RemovesAt(s: Sys, a: Action, key: string) {
    Renames(s, a) && s.core.lock.task.Remove? && KeyOf(s.core.lock.task.gone) == key
  }

  /** The stagings and the removals of the key that the first `i` steps have made durable. */
  function Commits(states: seq<Sys>, actions: seq<Action>, i: nat, key: string): nat
    requires i <= |actions| && i <= |states|
  {
    if i == 0 then 0 else Commits(states, actions, i - 1, key) + One(CommitsAt(states[i - 1], actions[i - 1], key))
  }

  function Removals(states: seq<Sys>, actions: seq<Action>, i: nat, key: string): nat
    requires i <= |actions| && i <= |states|
  {
    if i == 0 then 0 else Removals(states, actions, i - 1, key) + One(RemovesAt(states[i - 1], actions[i - 1], key))
  }

  predicate OnDisk(s: Sys, key: string) {
    key in Reload(s.core.disk).byKey
  }

  /** Entries that differ in LastUsedAt alone have the same keys. */
  lemma OlderSameKeys(cfg: Config, m: Maps, n: Maps)
    requires Consistent(cfg, m) && Consistent(cfg, n) && Older(m.entries, n.entries)
    ensures m.byKey.Keys == n.byKey.Keys
  {
    forall k ensures k in m.byKey <==> k in n.byKey {
      if k in m.byKey { assert KeyOf(n.entries[m.byKey[k]]) == k; }
      if k in n.byKey {
        var id := n.byKey[k];
        assert id in m.entries && KeyOf(m.entries[id]) == k;
      }
    }
  }

  /** What the index on disk holds: up to the rename the keys found on locking, then those in memory. */
  lemma DiskKeys(cfg: Config, s: Sys, key: string)
    requires Inv(cfg, s)
    ensures !(s.core.lock.Held? && s.core.lock.phase.Saved?) ==> (OnDisk(s, key) <==> key in Settled(s.core).byKey)
    ensures s.core.lock.Held? && s.core.lock.phase.Saved? ==> (OnDisk(s, key) <==> key in s.core.mem.byKey)
  {
    hide LockInv, FlightInv, TallyInv, CallersInv, DirInv, Consistent, TaskOK, TempOK, DiskShape, IsListing;
    if !(s.core.lock.Held? && s.core.lock.phase.Saved?) { OlderSameKeys(cfg, Reload(s.core.disk), Settled(s.core)); }
  }

  /** What a section means to do to the keys. */
  lemma TaskKeys(cfg: Config, s: Sys, key: string)
    requires Inv(cfg, s) && s.core.lock.Held? && !s.core.lock.phase.Removing?
    ensures var k, task := Settled(s.core).byKey, s.core.lock.task;
            match task
            case Mark(_) => key in s.core.mem.byKey <==> key in k
            case Stage(e) => KeyOf(e) !in k && (key in s.core.mem.byKey <==> key in k || key == KeyOf(e))
            case Remove(e) => KeyOf(e) in k && (key in s.core.mem.byKey <==> key in k && key != KeyOf(e))
  {
    hide LockInv, FlightInv, TallyInv, CallersInv, DirInv, IndexOK, TempOK, DiskMatches, UsedBefore, Older, EntryOK;
  }

  lemma RenameCounts(cfg: Config, s: Sys, a: Action, s': Sys, key: string)
    requires Inv(cfg, s) && Inv(cfg, s') && Step(cfg, s, a, s') && Renames(s, a)
    ensures One(OnDisk(s', key)) + One(RemovesAt(s, a, key)) == One(OnDisk(s, key)) + One(CommitsAt(s, a, key))
  {
    hide Inv, OnDisk, IsListing;
    DiskKeys(cfg, s, key);
    DiskKeys(cfg, s', key);
    TaskKeys(cfg, s, key);
  }

  lemma SaveKeepsIndex(cfg: Config, s: Sys, a: Action, s': Sys)
    requires Inv(cfg, s) && Step(cfg, s, a, s') && a.Save? && !Renames(s, a)
    ensures ReadIndex(s'.core.disk) == ReadIndex(s.core.disk)
  {
    hide LockInv, FlightInv, TallyInv, CallersInv, DirInv, Consistent, DiskMatches, TaskOK, IsListing, DiskShape;
    assert TEMP_PREFIX[0] != INDEX_NAME[0];
  }

  lemma DirsKeepIndex(cfg: Config, s: Sys, a: Action, s': Sys)
    requires ValidConfig(cfg) && Step(cfg, s, a, s') && (a.MakeDirectory? || a.FetcherWrites? || a.FetcherFails?)
    ensures ReadIndex(s'.core.disk) == ReadIndex(s.core.disk)
  {
    hide KeyFor, ValidConfig;
    HexIsPlain(cfg, Key(s.callers[a.c].req));
  }

  lemma RemovalKeepsIndex(cfg: Config, s: Sys, a: Action, s': Sys)
    requires ValidConfig(cfg) && Inv(cfg, s) && Step(cfg, s, a, s') && (a.RemoveSome? || a.RemoveAll?)
    ensures ReadIndex(s'.core.disk) == ReadIndex(s.core.disk)
  {
    hide LockInv, FlightInv, TallyInv, CallersInv, DirInv, CoreInv;
    GoneKnown(cfg, s.core, s.now);
  }

  /** Nothing but a rename changes the index on disk. */
  lemma IndexChangesByRename(cfg: Config, s: Sys, a: Action, s': Sys)
    requires ValidConfig(cfg) && Inv(cfg, s) && Step(cfg, s, a, s') && !Renames(s, a)
    ensures ReadIndex(s'.core.disk) == ReadIndex(s.core.disk)
  {
    hide Inv, Step, ValidConfig, Renames, ReadIndex;
    if a.Save? {
      SaveKeepsIndex(cfg, s, a, s');
    } else if a.MakeDirectory? || a.FetcherWrites? || a.FetcherFails? {
      DirsKeepIndex(cfg, s, a, s');
    } else if a.RemoveSome? || a.RemoveAll? {
      RemovalKeepsIndex(cfg, s, a, s');
    } else {
      OtherStepsKeepDisk(cfg, s, a, s');
    }
  }

  /** Over whole runs, through any crashes and restarts: per key, what was on disk at the start plus the
      stagings made durable since is what is on disk now plus the removals made durable since. */
  lemma {:induction false} DurableConservation(cfg: Config, states: seq<Sys>, actions: seq<Action>, i: nat, key: string)
    requires ValidConfig(cfg) && IsRun(cfg, states, actions) && i < |states|
    ensures One(OnDisk(states[0], key)) + Commits(states, actions, i, key)
         == One(OnDisk(states[i], key)) + Removals(states, actions, i, key)
  {
    hide Inv, Step, Init, Renames;
    if i > 0 {
      DurableConservation(cfg, states, actions, i - 1, key);
      StepAt(cfg, states, actions, i - 1);
      RunHolds(cfg, states, actions, i);
      if Renames(states[i - 1], actions[i - 1]) {
        RenameCounts(cfg, states[i - 1], actions[i - 1], states[i], key);
      } else {
        IndexChangesByRename(cfg, states[i - 1], actions[i - 1], states[i]);
      }
    }
  }

  // ---------- Fetcher starts through crashes ----------

  function Restarts(actions: seq<Action>, i: nat): nat
    requires i <= |actions|
  {
    if i == 0 then 0 else Restarts(actions, i - 1) + One(actions[i - 1].Restart?)
  }

  /** What the processes that have died by step `i` had counted. */
  datatype Counts = Counts(starts: nat, stagings: nat, failures: nat)

  function CountsOf(s: Sys, key: string): Counts {
    Counts(s.tally.starts[key], s.tally.stagings[key], s.tally.failures[key])
  }

  function Plus(a: Counts, b: Counts): Counts {
    Counts(a.starts + b.starts, a.stagings + b.stagings, a.failures + b.failures)
  }

  function Past(states: seq<Sys>, actions: seq<Action>, i: nat, key: string): Counts
    requires i <= |actions| && i <= |states|
  {
    if i == 0 then Counts(0, 0, 0)
    else if actions[i - 1].Restart? then Plus(Past(states, actions, i - 1, key), CountsOf(states[i - 1], key))
    else Past(states, actions, i - 1, key)
  }

  /** What all processes have counted by step `i`. */
  function Total(states: seq<Sys>, actions: seq<Action>, i: nat, key: string): Counts
    requires i <= |actions| && i < |states|
  {
    Plus(Past(states, actions, i, key), CountsOf(states[i], key))
  }

  /** A staging of the key is durable and its doFetch has not returned. */
  predicate JustStaged(s: Sys, key: string) {
    s.core.lock.Held? && s.core.lock.phase.Saved? && s.core.lock.task.Stage? && KeyOf(s.core.lock.task.entry) == key
  }

  lemma {:induction false} PastStarts(cfg: Config, states: seq<Sys>, actions: seq<Action>, i: nat, key: string)
    requires ValidConfig(cfg) && IsRun(cfg, states, actions) && i < |states|
    ensures var p := Past(states, actions, i, key); p.starts <= p.stagings + p.failures + Restarts(actions, i)
  {
    hide Step, Init, CoreInv, LockInv, FlightInv, CallersInv, DirInv;
    if i > 0 {
      PastStarts(cfg, states, actions, i - 1, key);
      RunHolds(cfg, states, actions, i - 1);
      TallyAt(cfg, states[i - 1], key);
    }
  }

  lemma TallyAt(cfg: Config, s: Sys, key: string)
    requires Inv(cfg, s)
    ensures s.tally.starts[key] <= s.tally.stagings[key] + s.tally.failures[key] + One(IsRunning(s, key))
  {
    hide CoreInv, LockInv, FlightInv, CallersInv, DirInv;
  }

  lemma EndStageCounts(cfg: Config, s: Sys, a: Action, s': Sys, key: string)
    requires Inv(cfg, s) && Step(cfg, s, a, s') && a.EndStage?
    ensures s'.tally.stagings[key] + One(JustStaged(s', key)) <= s.tally.stagings[key] + One(JustStaged(s, key))
  {
    hide CoreInv, FlightInv, TallyInv, DirInv;
    CallerOK(cfg, s, a.c);
    assert TaskFits(s.callers[a.c], s.core.lock.task);
  }

  lemma SaveCounts(cfg: Config, s: Sys, a: Action, s': Sys, key: string)
    requires Step(cfg, s, a, s') && a.Save?
    ensures s'.tally.stagings == s.tally.stagings
    ensures JustStaged(s', key) ==> JustStaged(s, key) || CommitsAt(s, a, key)
  {
    hide KeyFor, IsListing, DropTemp;
  }

  lemma OtherStepCounts(cfg: Config, s: Sys, a: Action, s': Sys, key: string)
    requires Step(cfg, s, a, s') && !a.EndStage? && !a.Restart? && !a.Save?
    ensures s'.tally.stagings == s.tally.stagings && (JustStaged(s', key) ==> JustStaged(s, key))
  {
    hide KeyFor, Find, Validate, DestOf, Measured, SortBy, WithEntry, WithoutEntry, Touch, WithModelDir, CommitsAt;
  }

  /** Every staging that was counted was made durable first. */
  lemma {:induction false} StagingsCommitted(cfg: Config, states: seq<Sys>, actions: seq<Action>, i: nat, key: string)
    requires ValidConfig(cfg) && IsRun(cfg, states, actions) && i < |states|
    ensures Total(states, actions, i, key).stagings + One(JustStaged(states[i], key))
         <= Commits(states, actions, i, key)
  {
    hide Inv, Step, JustStaged, CommitsAt;
    if i == 0 {
      FreshCounts(cfg, states[0], key);
    } else {
      StagingsCommitted(cfg, states, actions, i - 1, key);
      StepAt(cfg, states, actions, i - 1);
      var s, a, s' := states[i - 1], actions[i - 1], states[i];
      hide Init;
      if a.Restart? {
        RestartCounts(cfg, s, a, s', key);
      } else if a.EndStage? {
        EndStageCounts(cfg, s, a, s', key);
      } else if a.Save? {
        SaveCounts(cfg, s, a, s', key);
      } else {
        OtherStepCounts(cfg, s, a, s', key);
      }
    }
  }

  lemma FreshCounts(cfg: Config, s: Sys, key: string)
    requires Init(cfg, s)
    ensures s.tally.stagings[key] == 0 && !JustStaged(s, key)
  {
  }

  lemma RestartCounts(cfg: Config, s: Sys, a: Action, s': Sys, key: string)
    requires Step(cfg, s, a, s') && a.Restart?
    ensures CountsOf(s', key) == Counts(0, 0, 0) && !JustStaged(s', key)
  {
  }

  /** While a fetcher of the key is at work, the key is on disk only once its own staging is durable. */
  lemma RunningOnDisk(cfg: Config, s: Sys, key: string)
    requires Inv(cfg, s) && IsRunning(s, key) && OnDisk(s, key)
    ensures JustStaged(s, key)
  {
    hide Inv, OnDisk, IsRunning;
    RunningNotSettled(cfg, s, key);
    DiskKeys(cfg, s, key);
    if s.core.lock.Held? && s.core.lock.phase.Saved? { TaskKeys(cfg, s, key); }
  }

  /** Over whole runs, through any crashes and restarts: fetchers of a key start no oftener than once, plus
      once for every removal made durable, every doFetch that failed and every restart. */
  lemma FetchesBounded(cfg: Config, states: seq<Sys>, actions: seq<Action>, i: nat, key: string)
    requires ValidConfig(cfg) && IsRun(cfg, states, actions) && i < |states|
    ensures var total := Total(states, actions, i, key);
            total.starts <= 1 + Removals(states, actions, i, key) + total.failures + Restarts(actions, i)
  {
    hide Inv, Step, Init, IsRun, OnDisk, IsRunning, JustStaged;
    RunHolds(cfg, states, actions, i);
    PastStarts(cfg, states, actions, i, key);
    TallyAt(cfg, states[i], key);
    StagingsCommitted(cfg, states, actions, i, key);
    DurableConservation(cfg, states, actions, i, key);
    if IsRunning(states[i], key) && OnDisk(states[i], key) { RunningOnDisk(cfg, states[i], key); }
  }
}
