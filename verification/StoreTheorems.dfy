/** What holds over whole runs of the store: any number of callers, any interleaving, any failing
    file operation, any number of crashes and restarts. */
module StoreTheorems {
  import opened Wrappers
  import opened Text
  import opened Index
  import opened Files
  import opened StoreCore
  import opened StoreSystem
  import opened StoreSafety
  import opened StoreLocks
  import opened StoreFileSteps

  /** A process that has just loaded an index some earlier one wrote. */
  ghost predicate Init(cfg: Config, s: Sys) {
    && s == Sys(Core(Reload(s.core.disk), s.core.disk, Free), map[], map[], s.now, FreshTally(Reload(s.core.disk)),
          s.damaged)
    && IndexOK(cfg, s.core.disk)
    && UsedBefore(s.core.mem, s.now)
    && DirsFit(cfg, s.core.disk, s.damaged, s.core.mem)
  }

  ghost predicate IsRun(cfg: Config, states: seq<Sys>, actions: seq<Action>) {
    && |states| == |actions| + 1
    && Init(cfg, states[0])
    && forall i :: 0 <= i < |actions| ==> Step(cfg, states[i], actions[i], states[i + 1])
  }

  lemma InitHolds(cfg: Config, s: Sys)
    requires Init(cfg, s)
    ensures Inv(cfg, s)
  {
  }

  lemma {:induction false} RunHolds(cfg: Config, states: seq<Sys>, actions: seq<Action>, i: nat)
    requires ValidConfig(cfg) && IsRun(cfg, states, actions) && i < |states|
    ensures Inv(cfg, states[i])
  {
    hide Inv, Init;
    if i == 0 {
      InitHolds(cfg, states[0]);
    } else {
      RunHolds(cfg, states, actions, i - 1);
      StepKeeps(cfg, states[i - 1], actions[i - 1], states[i]);
    }
  }

  lemma StepAt(cfg: Config, states: seq<Sys>, actions: seq<Action>, i: nat)
    requires ValidConfig(cfg) && IsRun(cfg, states, actions) && i < |actions|
    ensures Inv(cfg, states[i]) && Step(cfg, states[i], actions[i], states[i + 1])
  {
    hide Inv, Init, Step;
    RunHolds(cfg, states, actions, i);
  }

  // ---------- The maps ----------

  /** `entries` and `byKey` are exact inverses at every moment of every run. */
  lemma MapsAreInverses(cfg: Config, states: seq<Sys>, actions: seq<Action>, i: nat, key: string)
    requires ValidConfig(cfg) && IsRun(cfg, states, actions) && i < |states| && key in cfg.keys
    ensures var m := states[i].core.mem;
            && Consistent(cfg, m)
            && (key in m.byKey <==> cfg.hash(key) in m.entries)
            && (key in m.byKey ==> m.byKey[key] == cfg.hash(key) && KeyOf(m.entries[cfg.hash(key)]) == key)
  {
    RunHolds(cfg, states, actions, i);
    IndexedIff(cfg, states[i].core.mem, key);
  }

  /** A leader past its double-check has its key absent until it inserts. */
  lemma LeaderKeyAbsent(cfg: Config, states: seq<Sys>, actions: seq<Action>, i: nat, c: nat)
    requires ValidConfig(cfg) && IsRun(cfg, states, actions) && i < |states|
    requires c in states[i].callers && PastCheck(states[i].callers[c])
    ensures var k := Key(states[i].callers[c].req);
            k !in states[i].core.mem.byKey && cfg.hash(k) !in states[i].core.mem.entries
  {
    RunHolds(cfg, states, actions, i);
    CallerOK(cfg, states[i], c);
    IndexedIff(cfg, states[i].core.mem, Key(states[i].callers[c].req));
  }

  /** So the delete-based rollback after a failed save restores exactly the maps the leader found
      when it took the lock, and so does the re-insertion of a failed Delete. */
  lemma RollbackExact(cfg: Config, states: seq<Sys>, actions: seq<Action>, i: nat)
    requires ValidConfig(cfg) && IsRun(cfg, states, actions) && i < |actions|
    requires actions[i].EndStage? || actions[i].EndDelete?
    requires states[i].core.lock.Held? && !states[i].core.lock.phase.Saved?
    ensures states[i + 1].core.mem == states[i].core.lock.before
  {
    RunHolds(cfg, states, actions, i);
    var s := states[i];
    var c := actions[i].c;
    assert Step(cfg, s, actions[i], states[i + 1]);
    assert TaskFits(s.callers[c], s.core.lock.task);
    RollbackRestores(cfg, s.core, s.now);
  }

  // ---------- Crashes ----------

  /** Whatever moment the process dies at, the next one loads consistent maps: those of just before
      the interrupted section or those it would have left behind, up to LastUsedAt. */
  lemma CrashAnywhere(cfg: Config, states: seq<Sys>, actions: seq<Action>, i: nat)
    requires ValidConfig(cfg) && IsRun(cfg, states, actions) && i < |states|
    ensures var core, r := states[i].core, Restarted(states[i]).core.mem;
            && Consistent(cfg, r)
            && (core.lock.Free? ==> Older(r.entries, core.mem.entries))
            && (core.lock.Held? ==> Older(r.entries, core.lock.before.entries) || r == AtRelease(core))
  {
    RunHolds(cfg, states, actions, i);
    CrashSafe(cfg, states[i].core, states[i].now);
  }

  // ---------- Conservation ----------

  /** Per key: what was indexed at the start plus the stagings since is what is indexed now plus the
      Deletes since. */
  lemma Conservation(cfg: Config, states: seq<Sys>, actions: seq<Action>, i: nat, key: string)
    requires ValidConfig(cfg) && IsRun(cfg, states, actions) && i < |states| && states[i].core.lock.Free?
    ensures var s := states[i];
            One(key in s.tally.baseline) + s.tally.stagings[key] == One(key in s.core.mem.byKey) + s.tally.deletes[key]
  {
    RunHolds(cfg, states, actions, i);
  }

  lemma RunningLeads(s: Sys, c: nat)
    requires c in s.callers && Running(s.callers[c])
    ensures Leads(s, c) == Some(Key(s.callers[c].req))
  {
  }

  /** At most one fetcher per key is at work. */
  lemma OneFetcher(cfg: Config, states: seq<Sys>, actions: seq<Action>, i: nat, c: nat, d: nat)
    requires ValidConfig(cfg) && IsRun(cfg, states, actions) && i < |states|
    requires c in states[i].callers && Running(states[i].callers[c])
    requires d in states[i].callers && Running(states[i].callers[d])
    requires Key(states[i].callers[c].req) == Key(states[i].callers[d].req)
    ensures c == d
  {
    hide CoreInv, TallyInv, DirInv, CallersInv, LockInv, Init, FlightInv;
    RunHolds(cfg, states, actions, i);
    RunningLeads(states[i], c);
    RunningLeads(states[i], d);
    OneLeader(states[i], c, d);
  }

  lemma RunningNotSettled(cfg: Config, s: Sys, key: string)
    requires Inv(cfg, s) && IsRunning(s, key)
    ensures key !in Settled(s.core).byKey
  {
    var c := s.flights[key];
    assert Leads(s, c) == Some(key);
    CallerOK(cfg, s, c);
    if s.callers[c].Staging? {
      assert TaskFits(s.callers[c], s.core.lock.task);
    }
  }

  /** Fetchers start no oftener than once, plus once for every doFetch that failed and every Delete
      that succeeded. */
  lemma StartsBounded(cfg: Config, states: seq<Sys>, actions: seq<Action>, i: nat, key: string)
    requires ValidConfig(cfg) && IsRun(cfg, states, actions) && i < |states|
    ensures var t := states[i].tally; t.starts[key] <= 1 + t.failures[key] + t.deletes[key]
  {
    RunHolds(cfg, states, actions, i);
    var s := states[i];
    if IsRunning(s, key) { RunningNotSettled(cfg, s, key); }
    assert s.tally.stagings[key] + One(key in s.tally.baseline)
        == s.tally.deletes[key] + One(key in Settled(s.core).byKey);
    assert s.tally.starts[key] <= s.tally.stagings[key] + s.tally.failures[key] + One(IsRunning(s, key));
  }

  // ---------- Directories ----------

  /** An indexed entry in the store's own directory has that directory, and its files add up to
      SizeBytes, unless a Delete of it has begun to remove files without completing. */
  lemma DirectoriesStand(cfg: Config, states: seq<Sys>, actions: seq<Action>, i: nat, id: string)
    requires ValidConfig(cfg) && IsRun(cfg, states, actions) && i < |states|
    requires id in states[i].core.mem.entries && id !in states[i].damaged
    requires IsDefault(cfg, states[i].core.mem.entries[id])
    ensures var d := states[i].core.disk;
            id in d && d[id].ModelDir? && MeasureOf(d[id].tree).size == states[i].core.mem.entries[id].sizeBytes
  {
    RunHolds(cfg, states, actions, i);
    assert DirFits(cfg, states[i].core.disk, states[i].core.mem.entries[id]);
  }

  ghost predicate Untouched(s: Sys, s': Sys, id: string) {
    && ReadIndex(s'.core.disk) == ReadIndex(s.core.disk)
    && (id in s.core.disk <==> id in s'.core.disk)
    && (id in s.core.disk ==> s'.core.disk[id] == s.core.disk[id])
  }

  /** A Delete at work on its files removes the directory of its own entry, which is the one its path
      names, and touches neither the index nor the directory of any other entry. */
  lemma DeleteTouchesOwn(cfg: Config, states: seq<Sys>, actions: seq<Action>, i: nat, id: string)
    requires ValidConfig(cfg) && IsRun(cfg, states, actions) && i < |actions|
    requires actions[i].RemoveSome? || actions[i].RemoveAll?
    requires states[i].core.lock.Held? && states[i].core.lock.task.Remove? && id != states[i].core.lock.task.gone.id
    ensures Untouched(states[i], states[i + 1], id)
    ensures var gone := states[i].core.lock.task.gone; gone.path == cfg.root + [gone.id]
  {
    hide Inv, Init, Step, Untouched;
    StepAt(cfg, states, actions, i);
    DeleteStepTouchesOwn(cfg, states[i], actions[i], states[i + 1], id);
  }

  lemma DeleteStepTouchesOwn(cfg: Config, s: Sys, a: Action, s': Sys, id: string)
    requires ValidConfig(cfg) && Inv(cfg, s) && Step(cfg, s, a, s') && (a.RemoveSome? || a.RemoveAll?)
    requires s.core.lock.Held? && s.core.lock.task.Remove? && id != s.core.lock.task.gone.id
    ensures Untouched(s, s', id) && IsDefault(cfg, s.core.lock.task.gone)
  {
    hide CoreInv, LockInv, FlightInv, TallyInv, DirInv, CallersInv;
    RemovingDefault(cfg, s);
    GoneKnown(cfg, s.core, s.now);
  }

  lemma RemovingDefault(cfg: Config, s: Sys)
    requires Inv(cfg, s) && s.core.lock.Held? && s.core.lock.task.Remove? && s.core.lock.phase.Removing?
    ensures IsDefault(cfg, s.core.lock.task.gone)
  {
    hide CoreInv, LockInv, FlightInv, TallyInv, CallersInv;
  }

  /** Nor does a fetcher, or the clean-up after a failed one, touch those of any indexed entry. */
  lemma FetchTouchesOwn(cfg: Config, states: seq<Sys>, actions: seq<Action>, i: nat, id: string)
    requires ValidConfig(cfg) && IsRun(cfg, states, actions) && i < |actions|
    requires actions[i].MakeDirectory? || actions[i].FetcherWrites? || actions[i].FetcherFails?
    requires id in Settled(states[i].core).entries
    ensures Untouched(states[i], states[i + 1], id)
  {
    hide Inv, Init, Step, Untouched;
    StepAt(cfg, states, actions, i);
    FetchStepTouchesOwn(cfg, states[i], actions[i], states[i + 1], id);
  }

  lemma FetchStepTouchesOwn(cfg: Config, s: Sys, a: Action, s': Sys, id: string)
    requires ValidConfig(cfg) && Inv(cfg, s) && Step(cfg, s, a, s')
          && (a.MakeDirectory? || a.FetcherWrites? || a.FetcherFails?)
    requires id in Settled(s.core).entries
    ensures Untouched(s, s', id)
  {
    hide CoreInv, LockInv, FlightInv, TallyInv, DirInv, CallersInv, Consistent, ValidConfig;
    FetcherApart(cfg, s, a.c, id);
    OneDirChanges(cfg, s, a, s', id);
  }

  /** The stepping caller's id is neither `id` nor a name the store itself uses. */
  lemma FetcherApart(cfg: Config, s: Sys, c: nat, id: string)
    requires ValidConfig(cfg) && Inv(cfg, s) && c in s.callers && PastCheck(s.callers[c])
          && id in Settled(s.core).entries
    ensures var own := cfg.hash(Key(s.callers[c].req)); own != id && own != INDEX_NAME
  {
    hide LockInv, FlightInv, TallyInv, DirInv, CoreInv;
    CoreConsistent(cfg, s);
    CallerOK(cfg, s, c);
    PastCheckApart(cfg, s, c, Settled(s.core), id);
    IndexedIdApart(cfg, Settled(s.core), id, Key(s.callers[c].req));
    HexIsPlain(cfg, Key(s.callers[c].req));
  }

  lemma OneDirChanges(cfg: Config, s: Sys, a: Action, s': Sys, id: string)
    requires Step(cfg, s, a, s') && (a.MakeDirectory? || a.FetcherWrites? || a.FetcherFails?)
    requires var own := cfg.hash(Key(s.callers[a.c].req)); own != id && own != INDEX_NAME
    ensures Untouched(s, s', id)
  {
  }

  lemma IndexedIdApart(cfg: Config, m: Maps, id: string, key: string)
    requires ValidConfig(cfg) && Consistent(cfg, m) && id in m.entries && key in cfg.keys && key != KeyOf(m.entries[id])
    ensures cfg.hash(key) != id
  {
    HashApart(cfg, key, KeyOf(m.entries[id]));
  }

  // ---------- Results ----------

  /** An error-free Fetch returns the entry of the model it asked for; the one exception is the zero
      Entry, and then a Delete of that key completed between the mark and the re-read. */
  lemma FetchResult(cfg: Config, states: seq<Sys>, actions: seq<Action>, i: nat, c: nat)
    requires ValidConfig(cfg) && IsRun(cfg, states, actions) && i < |states|
    requires c in states[i].callers && states[i].callers[c].Returned? && states[i].callers[c].out.Ok?
    ensures var pc := states[i].callers[c];
            EntryFor(cfg, pc.req, pc.out.value) || (pc.out.value == ZERO_ENTRY && pc.lost)
  {
    RunHolds(cfg, states, actions, i);
    CallerOK(cfg, states[i], c);
  }

  predicate Carries(s: Sys, c: nat, e: Entry) {
    c in s.callers && (s.callers[c].Finish? || s.callers[c].Returned?) && s.callers[c].out == Ok(e)
  }

  ghost predicate HeldAt(s: Sys, e: Entry) {
    e.id in s.core.mem.entries && s.core.mem.entries[e.id] == e
  }

  /** The actions of one caller. */
  predicate MovesCaller(a: Action) {
    !a.RemoveSome? && !a.RemoveAll? && !a.Save? && !a.Tick? && !a.Restart? && !a.LandFlight?
  }

  /** What a caller comes to by a step of its own: a re-read only after a mark, a good result only by the
      re-read and the end of a staging. */
  predicate ComesTo(a: Action, pc: Pc) {
    && (pc.Reread? ==> a.EndMark?)
    && ((pc.Finish? || pc.Returned?) && pc.out.Ok? ==> a.ReRead? || a.EndStage?)
  }

  lemma BeginMoves(cfg: Config, s: Sys, a: Action, s': Sys)
    requires Step(cfg, s, a, s') && (a.BeginMark? || a.BeginStage? || a.BeginDelete? || a.ReRead?)
    ensures a.c in s'.callers && s'.callers == s.callers[a.c := s'.callers[a.c]]
    ensures s'.tally.baseline == s.tally.baseline
    ensures ComesTo(a, s'.callers[a.c])
  {
    hide TakeMark, TakeStage, TakeDelete, KeyFor, Touch, ReadEntry;
  }

  lemma EndMoves(cfg: Config, s: Sys, a: Action, s': Sys)
    requires Step(cfg, s, a, s') && (a.EndMark? || a.EndStage? || a.EndDelete?)
    ensures a.c in s'.callers && s'.callers == s.callers[a.c := s'.callers[a.c]]
    ensures s'.tally.baseline == s.tally.baseline
    ensures ComesTo(a, s'.callers[a.c])
  {
    hide Release, KeyFor;
  }

  lemma EarlyMoves(cfg: Config, s: Sys, a: Action, s': Sys)
    requires Step(cfg, s, a, s')
    requires a.Arrive? || a.ArriveMark? || a.ArriveDelete? || a.LookUp? || a.JoinFlight? || a.ReCheck?
    ensures a.c in s'.callers && s'.callers == s.callers[a.c := s'.callers[a.c]]
    ensures s'.tally.baseline == s.tally.baseline
    ensures ComesTo(a, s'.callers[a.c])
  {
    hide Find, KeyFor, Validate;
  }

  lemma DirMoves(cfg: Config, s: Sys, a: Action, s': Sys)
    requires Step(cfg, s, a, s') && (a.MakeDirectory? || a.FetcherFails?)
    ensures a.c in s'.callers && s'.callers == s.callers[a.c := s'.callers[a.c]]
    ensures s'.tally.baseline == s.tally.baseline
    ensures ComesTo(a, s'.callers[a.c])
  {
    hide WithModelDir, KeyFor, DestOf, Measured, SortBy;
  }

  lemma FetchMoves(cfg: Config, s: Sys, a: Action, s': Sys)
    requires Step(cfg, s, a, s') && (a.FetcherWrites? || a.FetcherReturns? || a.MeasureDir?)
    ensures a.c in s'.callers && s'.callers == s.callers[a.c := s'.callers[a.c]]
    ensures s'.tally.baseline == s.tally.baseline
    ensures ComesTo(a, s'.callers[a.c])
  {
    hide WithModelDir, KeyFor, DestOf, Measured, SortBy;
  }

  lemma OneCallerMoves(cfg: Config, s: Sys, a: Action, s': Sys)
    requires Step(cfg, s, a, s') && MovesCaller(a)
    ensures a.c in s'.callers && s'.callers == s.callers[a.c := s'.callers[a.c]]
    ensures s'.tally.baseline == s.tally.baseline
    ensures ComesTo(a, s'.callers[a.c])
  {
    hide Step, ComesTo;
    if a.BeginMark? || a.BeginStage? || a.BeginDelete? || a.ReRead? {
      BeginMoves(cfg, s, a, s');
    } else if a.EndMark? || a.EndStage? || a.EndDelete? {
      EndMoves(cfg, s, a, s');
    } else if a.Arrive? || a.ArriveMark? || a.ArriveDelete? || a.LookUp? || a.JoinFlight? || a.ReCheck? {
      EarlyMoves(cfg, s, a, s');
    } else if a.MakeDirectory? || a.FetcherFails? {
      DirMoves(cfg, s, a, s');
    } else {
      FetchMoves(cfg, s, a, s');
    }
  }

  /** All other actions but a landing and a restart leave every caller where it is. */
  lemma NoCallerMoves(cfg: Config, s: Sys, a: Action, s': Sys)
    requires Step(cfg, s, a, s') && !MovesCaller(a) && !a.LandFlight?
    ensures s'.callers == (if a.Restart? then map[] else s.callers)
    ensures !a.Restart? ==> s'.tally == s.tally
  {
    hide SaveStep;
  }

  lemma LandMoves(cfg: Config, s: Sys, a: Action, s': Sys, d: nat)
    requires Step(cfg, s, a, s') && a.LandFlight? && d in s'.callers
    ensures d in s.callers && (s'.callers[d] == s.callers[d] || s'.callers[d].Returned?)
    ensures s'.tally == s.tally
  {
  }

  /** Only the re-read, the end of a staging and the landing of a flight bring good results. */
  lemma NoNewResult(cfg: Config, s: Sys, a: Action, s': Sys, c: nat, e: Entry)
    requires Step(cfg, s, a, s') && !a.ReRead? && !a.EndStage? && !a.LandFlight?
    ensures Carries(s', c, e) ==> Carries(s, c, e)
  {
    hide Step;
    if MovesCaller(a) { OneCallerMoves(cfg, s, a, s'); } else { NoCallerMoves(cfg, s, a, s'); }
  }

  lemma NewResult(cfg: Config, s: Sys, a: Action, s': Sys, c: nat, e: Entry)
    requires Inv(cfg, s) && Step(cfg, s, a, s') && Carries(s', c, e) && e != ZERO_ENTRY
    requires a.ReRead? || a.EndStage? || a.LandFlight?
    ensures HeldAt(s, e) || Carries(s, a.c, e) || Carries(s, c, e)
  {
    hide CoreInv, FlightInv, TallyInv, DirInv, CallersInv, LockInv;
    if a.ReRead? { ReReadHeld(cfg, s, a.c); }
    if a.EndStage? { StageHeld(cfg, s, a.c, s'); }
  }

  /** A result that was not there before was read from the maps or passed on by a leader. */
  lemma Provenance(cfg: Config, s: Sys, a: Action, s': Sys, c: nat, e: Entry)
    requires Inv(cfg, s) && Step(cfg, s, a, s') && Carries(s', c, e) && e != ZERO_ENTRY
    ensures HeldAt(s, e) || exists d :: Carries(s, d, e)
  {
    hide Inv, Step, Carries;
    if a.ReRead? || a.EndStage? || a.LandFlight? {
      NewResult(cfg, s, a, s', c, e);
    } else {
      NoNewResult(cfg, s, a, s', c, e);
    }
  }

  lemma ReReadHeld(cfg: Config, s: Sys, d: nat)
    requires Inv(cfg, s) && d in s.callers && s.callers[d].Reread?
    ensures var e := ReadEntry(s.core.mem, s.callers[d].id); e != ZERO_ENTRY ==> HeldAt(s, e)
  {
    CoreConsistent(cfg, s);
  }

  lemma StageHeld(cfg: Config, s: Sys, d: nat, s': Sys)
    requires Inv(cfg, s) && StepEndStage(s, d, s')
    ensures HeldAt(s, s.callers[d].entry)
  {
    EndStageMaps(cfg, s, d, s');
  }

  lemma NothingAtStart(cfg: Config, s: Sys, c: nat, e: Entry)
    requires Init(cfg, s)
    ensures !Carries(s, c, e)
  {
  }

  /** Every entry a Fetch returns was in the index at some moment of the run. */
  lemma {:induction false} ResultWasIndexed(cfg: Config, states: seq<Sys>, actions: seq<Action>, i: nat, c: nat,
        e: Entry)
    requires ValidConfig(cfg) && IsRun(cfg, states, actions) && i < |states|
    requires Carries(states[i], c, e) && e != ZERO_ENTRY
    ensures exists j :: 0 <= j < i && HeldAt(states[j], e)
  {
    hide Inv, Init, Step, Carries, HeldAt;
    if i == 0 {
      NothingAtStart(cfg, states[0], c, e);
    } else {
      StepAt(cfg, states, actions, i - 1);
      Provenance(cfg, states[i - 1], actions[i - 1], states[i], c, e);
      if !HeldAt(states[i - 1], e) {
        var d :| Carries(states[i - 1], d, e);
        ResultWasIndexed(cfg, states, actions, i - 1, d, e);
      }
    }
  }

  // ---------- LastUsedAt ----------

  /** Only the release of the lock (and a restart) changes what is settled. */
  lemma SettledSame(cfg: Config, s: Sys, a: Action, s': Sys)
    requires Step(cfg, s, a, s') && !a.EndMark? && !a.EndStage? && !a.EndDelete? && !a.Restart?
    ensures Settled(s'.core) == Settled(s.core)
  {
    hide WithModelDir, KeyFor, DestOf, Measured, SortBy, Find, Validate, SaveStep, DropTemp, IsListing, Touch,
         FilesRemoved;
    if a.Save? { SaveSettled(cfg, s, a, s'); }
    if a.RemoveAll? { RemovalSettled(cfg, s, a, s'); }
  }

  lemma SaveSettled(cfg: Config, s: Sys, a: Action, s': Sys)
    requires Step(cfg, s, a, s') && a.Save?
    ensures Settled(s'.core) == Settled(s.core)
  {
    hide DropTemp, IsListing;
  }

  lemma RemovalSettled(cfg: Config, s: Sys, a: Action, s': Sys)
    requires Step(cfg, s, a, s') && a.RemoveAll?
    ensures Settled(s'.core) == Settled(s.core)
  {
  }

  predicate Aged(m: Maps, n: Maps, id: string) {
    id in m.entries && id in n.entries ==>
          SameButUsed(m.entries[id], n.entries[id]) && m.entries[id].lastUsedAt <= n.entries[id].lastUsedAt
  }

  lemma EndMarkAges(cfg: Config, s: Sys, c: nat, s': Sys, id: string)
    requires CoreInv(cfg, s.core, s.now) && LockInv(s) && StepEndMark(s, c, s')
    ensures Aged(Settled(s.core), Settled(s'.core), id)
  {
    EndMarkCore(cfg, s, c, s');
  }

  lemma EndStageAges(cfg: Config, s: Sys, c: nat, s': Sys, id: string)
    requires CoreInv(cfg, s.core, s.now) && LockInv(s) && StepEndStage(s, c, s')
    ensures Aged(Settled(s.core), Settled(s'.core), id)
  {
    EndStageMaps(cfg, s, c, s');
  }

  lemma EndDeleteAges(cfg: Config, s: Sys, c: nat, s': Sys, id: string)
    requires CoreInv(cfg, s.core, s.now) && StepEndDelete(s, c, s')
    ensures Aged(Settled(s.core), Settled(s'.core), id)
  {
    EndDeleteMaps(cfg, s, c, s');
  }

  lemma ReleaseAges(cfg: Config, s: Sys, a: Action, s': Sys, id: string)
    requires Inv(cfg, s) && Step(cfg, s, a, s') && (a.EndMark? || a.EndStage? || a.EndDelete?)
    ensures Aged(Settled(s.core), Settled(s'.core), id)
  {
    hide CoreInv, FlightInv, TallyInv, DirInv, CallersInv, LockInv, StepEndMark, StepEndStage, StepEndDelete;
    if a.EndMark? { EndMarkAges(cfg, s, a.c, s', id); }
    if a.EndStage? { EndStageAges(cfg, s, a.c, s', id); }
    if a.EndDelete? { EndDeleteAges(cfg, s, a.c, s', id); }
  }

  /** One step of a live process: an entry that stays indexed changes in LastUsedAt alone, forwards. */
  lemma StepAges(cfg: Config, s: Sys, a: Action, s': Sys, id: string)
    requires Inv(cfg, s) && Step(cfg, s, a, s') && !a.Restart?
    ensures Aged(Settled(s.core), Settled(s'.core), id)
  {
    hide Inv, Step;
    if a.EndMark? || a.EndStage? || a.EndDelete? {
      ReleaseAges(cfg, s, a, s', id);
    } else {
      SettledSame(cfg, s, a, s');
    }
  }

  lemma {:induction false} UsedNeverGoesBack(cfg: Config, states: seq<Sys>, actions: seq<Action>, i: nat, j: nat,
        id: string)
    requires ValidConfig(cfg) && IsRun(cfg, states, actions) && i <= j < |states|
    requires forall n :: i <= n < j ==> !actions[n].Restart?
    requires forall n :: i <= n <= j ==> id in Settled(states[n].core).entries
    ensures Aged(Settled(states[i].core), Settled(states[j].core), id)
  {
    hide Inv, Init, Step;
    if i < j {
      UsedNeverGoesBack(cfg, states, actions, i, j - 1, id);
      StepAt(cfg, states, actions, j - 1);
      StepAges(cfg, states[j - 1], actions[j - 1], states[j], id);
      AgedChain(Settled(states[i].core), Settled(states[j - 1].core), Settled(states[j].core), id);
    }
  }

  lemma AgedChain(m: Maps, n: Maps, o: Maps, id: string)
    requires id in n.entries && Aged(m, n, id) && Aged(n, o, id)
    ensures Aged(m, o, id)
  {
  }
}
