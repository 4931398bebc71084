/** Flights taking off and landing, file operations under the lock, the clock and the restart keep
    the invariant of the store system; with them every step does. */
module StoreFileSteps {
  import opened Wrappers
  import opened Index
  import opened Files
  import opened StoreCore
  import opened StoreSystem
  import opened StoreSafety
  import opened StoreSteps
  import opened StoreLocks

  // ---------- Flights ----------

  lemma LeadLeads(s: Sys, c: nat, s': Sys, d: nat)
    requires StepJoin(s, c, s') && Key(s.callers[c].req) !in s.flights
    ensures Leads(s', d) == if d == c then Some(Key(s.callers[c].req)) else Leads(s, d)
    ensures Leads(s, c).None?
  {
  }

  lemma LeadLock(s: Sys, c: nat, s': Sys)
    requires LockInv(s) && StepJoin(s, c, s') && Key(s.callers[c].req) !in s.flights
    ensures LockInv(s')
  {
  }

  lemma LeadFlights(s: Sys, c: nat, s': Sys)
    requires FlightInv(s) && StepJoin(s, c, s') && Key(s.callers[c].req) !in s.flights
    ensures FlightInv(s')
  {
    forall d ensures Leads(s', d) == if d == c then Some(Key(s.callers[c].req)) else Leads(s, d) {
      LeadLeads(s, c, s', d);
    }
  }

  lemma LeadTally(s: Sys, c: nat, s': Sys)
    requires FlightInv(s) && TallyInv(s) && StepJoin(s, c, s') && Key(s.callers[c].req) !in s.flights
    ensures TallyInv(s')
  {
    forall k ensures IsRunning(s', k) == IsRunning(s, k) {
      if k in s.flights { LeadLeads(s, c, s', s.flights[k]); }
    }
  }

  lemma LeadKeeps(cfg: Config, s: Sys, c: nat, s': Sys)
    requires ValidConfig(cfg) && Inv(cfg, s) && StepJoin(s, c, s') && Key(s.callers[c].req) !in s.flights
    ensures Inv(cfg, s')
  {
    CallerOK(cfg, s, c);
    LeadLock(s, c, s');
    LeadFlights(s, c, s');
    LeadTally(s, c, s');
  }

  /** A follower's request names the same model as its leader's, so the leader's result serves it. */
  lemma SharedResult(cfg: Config, req: Request, other: Request, out: Outcome, lost: bool)
    requires ValidConfig(cfg) && ReqOK(cfg, req) && ReqOK(cfg, other) && Key(req) == Key(other)
    requires OutOK(cfg, req, out, lost)
    ensures OutOK(cfg, other, out, lost)
  {
    KeyForInjective(req.source, req.modelID, other.source, other.modelID);
  }

  lemma LandCallers(cfg: Config, s: Sys, c: nat, s': Sys)
    requires ValidConfig(cfg) && CallersInv(cfg, s) && StepLand(s, c, s')
    ensures CallersInv(cfg, s')
  {
    var pc := s.callers[c];
    assert PcOK(cfg, s.core, s.tally.deletes, s.now, pc);
    forall d | d in s'.callers ensures PcOK(cfg, s'.core, s'.tally.deletes, s'.now, s'.callers[d]) {
      assert PcOK(cfg, s.core, s.tally.deletes, s.now, s.callers[d]);
      if s'.callers[d] != s.callers[d] { SharedResult(cfg, pc.req, s.callers[d].req, pc.out, pc.lost); }
    }
  }

  /** After the landing nobody leads the key and everybody else leads what they led. */
  lemma LandLeads(s: Sys, c: nat, s': Sys, d: nat)
    requires FlightInv(s) && StepLand(s, c, s')
    ensures Leads(s, c) == Some(Key(s.callers[c].req))
    ensures Leads(s', d) == if d == c then None else Leads(s, d)
  {
    hide FlightInv;
    if d != c && d in s.callers && s.callers[d].Finish? && Key(s.callers[d].req) == Key(s.callers[c].req) {
      OneLeader(s, c, d);
    }
  }

  lemma LandLock(s: Sys, c: nat, s': Sys)
    requires LockInv(s) && StepLand(s, c, s')
    ensures LockInv(s')
  {
  }

  lemma LandFlights(s: Sys, c: nat, s': Sys)
    requires FlightInv(s) && StepLand(s, c, s')
    ensures FlightInv(s')
  {
    var key := Key(s.callers[c].req);
    forall k | k in s'.flights ensures Leads(s', s'.flights[k]) == Some(k) {
      LandLeads(s, c, s', s.flights[k]);
    }
    forall d | d in s'.callers && Leads(s', d).Some?
      ensures Leads(s', d).value in s'.flights && s'.flights[Leads(s', d).value] == d
    {
      LandLeads(s, c, s', d);
      if Leads(s, d) == Some(key) { OneLeader(s, c, d); }
    }
    forall d | d in s'.callers && s'.callers[d].Follow? ensures Key(s'.callers[d].req) in s'.flights {
      assert s.callers[d].Follow? && Key(s.callers[d].req) != key;
    }
  }

  lemma LandTally(s: Sys, c: nat, s': Sys)
    requires FlightInv(s) && TallyInv(s) && StepLand(s, c, s')
    ensures TallyInv(s')
  {
    var key := Key(s.callers[c].req);
    assert Leads(s, c) == Some(key);
    forall k ensures IsRunning(s', k) == IsRunning(s, k) {
      if k == key { assert s.flights[k] == c; }
    }
  }

  lemma LandKeeps(cfg: Config, s: Sys, c: nat, s': Sys)
    requires ValidConfig(cfg) && Inv(cfg, s) && StepLand(s, c, s')
    ensures Inv(cfg, s')
  {
    LandCallers(cfg, s, c, s');
    LandLock(s, c, s');
    LandFlights(s, c, s');
    LandTally(s, c, s');
  }

  // ---------- Files under the lock ----------

  /** The lock stays where it is, the settled keys stay, nobody moves. */
  ghost predicate HolderStep(s: Sys, s': Sys) {
    && s' == s.(core := s'.core, damaged := s'.damaged)
    && s.core.lock.Held? && s'.core.lock.Held?
    && s'.core.lock == s.core.lock.(phase := s'.core.lock.phase)
  }

  lemma HolderShared(s: Sys, s': Sys)
    requires LockInv(s) && FlightInv(s) && TallyInv(s) && HolderStep(s, s')
    ensures LockInv(s') && FlightInv(s') && TallyInv(s')
  {
    assert forall d :: Leads(s', d) == Leads(s, d);
    assert forall k :: IsRunning(s', k) == IsRunning(s, k);
  }

  lemma HolderCallers(cfg: Config, s: Sys, s': Sys)
    requires CallersInv(cfg, s) && HolderStep(s, s')
    requires s'.core.mem.byKey.Keys <= s.core.mem.byKey.Keys
    requires forall d :: d in s.callers && s.callers[d].WantStage? ==> DirFits(cfg, s'.core.disk, s.callers[d].entry)
    ensures CallersInv(cfg, s')
  {
    forall d | d in s'.callers ensures PcOK(cfg, s'.core, s'.tally.deletes, s'.now, s'.callers[d]) {
      StableKeeps(cfg, s, s', s.callers[d]);
    }
  }

  lemma SameOtherFits(cfg: Config, d: Disk, d': Disk, e: Entry)
    requires ValidConfig(cfg) && SameOther(d, d') && DirFits(cfg, d, e) && e.id == cfg.hash(KeyOf(e))
    ensures DirFits(cfg, d', e)
  {
    HexIsPlain(cfg, KeyOf(e));
    assert SameAt(d, d', e.id);
  }

  lemma SaveChanges(s: Core, fault: bool, left: bool, name: string, listing: seq<Entry>, s': Core)
    requires SaveStep(s, fault, left, name, listing, s') && s.lock.Held? && TempOK(s)
    ensures SameOther(s.disk, s'.disk) && s'.mem == s.mem && s'.lock.Held?
    ensures s'.lock == s.lock.(phase := s'.lock.phase) && !s.lock.phase.Removing? && !s'.lock.phase.Removing?
  {
  }

  lemma SaveDirs(cfg: Config, s: Sys, s': Sys)
    requires ValidConfig(cfg) && DirInv(cfg, s) && HolderStep(s, s') && SameOther(s.core.disk, s'.core.disk)
    requires s'.damaged == s.damaged && s'.core.mem == s.core.mem
    requires !s.core.lock.phase.Removing? && !s'.core.lock.phase.Removing?
    requires Consistent(cfg, s.core.mem) && Consistent(cfg, s.core.lock.before)
    ensures DirInv(cfg, s')
  {
    forall id | id in s.core.mem.entries && id !in s.damaged
          ensures DirFits(cfg, s'.core.disk, s.core.mem.entries[id]) {
      SameOtherFits(cfg, s.core.disk, s'.core.disk, s.core.mem.entries[id]);
    }
    var before := s.core.lock.before;
    forall id | id in before.entries && id !in s.damaged ensures DirFits(cfg, s'.core.disk, before.entries[id]) {
      SameOtherFits(cfg, s.core.disk, s'.core.disk, before.entries[id]);
    }
  }

  lemma SaveCallers(cfg: Config, s: Sys, s': Sys)
    requires ValidConfig(cfg) && CallersInv(cfg, s) && HolderStep(s, s') && SameOther(s.core.disk, s'.core.disk)
    requires s'.core.mem == s.core.mem
    ensures CallersInv(cfg, s')
  {
    forall d | d in s.callers && s.callers[d].WantStage? ensures DirFits(cfg, s'.core.disk, s.callers[d].entry) {
      assert PcOK(cfg, s.core, s.tally.deletes, s.now, s.callers[d]);
      SameOtherFits(cfg, s.core.disk, s'.core.disk, s.callers[d].entry);
    }
    HolderCallers(cfg, s, s');
  }

  lemma SaveKeeps(cfg: Config, s: Sys, fault: bool, left: bool, name: string, listing: seq<Entry>, s': Sys)
    requires ValidConfig(cfg) && Inv(cfg, s) && SaveStep(s.core, fault, left, name, listing, s'.core)
          && s' == s.(core := s'.core)
    ensures Inv(cfg, s')
  {
    SaveStepKeeps(cfg, s.core, fault, left, name, listing, s'.core, s.now);
    SaveChanges(s.core, fault, left, name, listing, s'.core);
    HolderShared(s, s');
    SaveCallers(cfg, s, s');
    SaveDirs(cfg, s, s');
  }

  /** What is known of the entry a Delete is removing. */
  lemma GoneKnown(cfg: Config, s: Core, now: int)
    requires ValidConfig(cfg) && CoreInv(cfg, s, now) && s.lock.Held? && s.lock.task.Remove?
    ensures KeyOf(s.lock.task.gone) in s.lock.before.byKey && EntryOK(cfg, s.lock.task.gone)
    ensures s.lock.task.gone.id != INDEX_NAME && !IsTempName(s.lock.task.gone.id)
    ensures DiskShape(s.disk)
  {
    HexIsPlain(cfg, KeyOf(s.lock.task.gone));
  }

  /** Nobody past the double-check has the id a Delete is removing. */
  lemma GoneApart(cfg: Config, s: Sys, d: nat)
    requires ValidConfig(cfg) && d in s.callers && s.callers[d].WantStage?
    requires PcOK(cfg, s.core, s.tally.deletes, s.now, s.callers[d])
    requires s.core.lock.Held? && s.core.lock.task.Remove?
    requires KeyOf(s.core.lock.task.gone) in s.core.lock.before.byKey && EntryOK(cfg, s.core.lock.task.gone)
    ensures s.callers[d].entry.id != s.core.lock.task.gone.id && DirFits(cfg, s.core.disk, s.callers[d].entry)
  {
    HashApart(cfg, KeyOf(s.core.lock.task.gone), Key(s.callers[d].req));
  }

  /** The files of the entry being deleted change and nothing else does. */
  ghost predicate GoneStep(s: Sys, s': Sys) {
    && HolderStep(s, s') && s.core.lock.task.Remove? && s.core.lock.phase.Removing?
    && var id := s.core.lock.task.gone.id;
       && s'.damaged == s.damaged + {id}
       && forall n :: n != id ==>
             (n in s.core.disk <==> n in s'.core.disk) && (n in s.core.disk ==> s'.core.disk[n] == s.core.disk[n])
  }

  lemma GoneDirs(cfg: Config, s: Sys, s': Sys)
    requires DirInv(cfg, s) && GoneStep(s, s')
    requires s'.core.mem.entries.Keys <= s.core.mem.entries.Keys
    requires forall id :: id in s'.core.mem.entries ==> s'.core.mem.entries[id] == s.core.mem.entries[id]
    requires Consistent(cfg, s.core.mem) && Consistent(cfg, s.core.lock.before)
    ensures DirInv(cfg, s')
  {
  }

  lemma GoneCallers(cfg: Config, s: Sys, s': Sys)
    requires ValidConfig(cfg) && CallersInv(cfg, s) && CoreInv(cfg, s.core, s.now) && GoneStep(s, s')
    requires s'.core.mem.byKey.Keys <= s.core.mem.byKey.Keys
    ensures CallersInv(cfg, s')
  {
    GoneKnown(cfg, s.core, s.now);
    forall d | d in s.callers && s.callers[d].WantStage? ensures DirFits(cfg, s'.core.disk, s.callers[d].entry) {
      GoneApart(cfg, s, d);
    }
    HolderCallers(cfg, s, s');
  }

  lemma CoreConsistent(cfg: Config, s: Sys)
    requires CoreInv(cfg, s.core, s.now)
    ensures Consistent(cfg, s.core.mem) && Consistent(cfg, Settled(s.core))
  {
  }

  lemma DirReplaced(cfg: Config, s: Core, id: string, tree: Tree, now: int)
    requires CoreInv(cfg, s, now) && id != INDEX_NAME && !IsTempName(id)
    ensures CoreInv(cfg, s.(disk := s.disk[id := ModelDir(tree)]), now)
  {
    OtherFilesKeep(cfg, s, s.disk[id := ModelDir(tree)], now);
  }

  lemma RemoveSomeCore(cfg: Config, s: Sys, tree: Tree, s': Sys)
    requires ValidConfig(cfg) && CoreInv(cfg, s.core, s.now) && StepRemoveSome(s, tree, s')
    ensures CoreInv(cfg, s'.core, s.now)
  {
    hide CoreInv, DiskShape;
    GoneKnown(cfg, s.core, s.now);
    DirReplaced(cfg, s.core, s.core.lock.task.gone.id, tree, s.now);
  }

  lemma RemoveSomeKeeps(cfg: Config, s: Sys, tree: Tree, s': Sys)
    requires ValidConfig(cfg) && Inv(cfg, s) && StepRemoveSome(s, tree, s')
    ensures Inv(cfg, s')
  {
    hide CoreInv, CallersInv, FlightInv, TallyInv, DirInv, LockInv, Consistent;
    CoreConsistent(cfg, s);
    RemoveSomeCore(cfg, s, tree, s');
    HolderShared(s, s');
    GoneDirs(cfg, s, s');
    GoneCallers(cfg, s, s');
  }

  lemma RemoveAllCore(cfg: Config, s: Sys, s': Sys)
    requires ValidConfig(cfg) && CoreInv(cfg, s.core, s.now) && StepRemoveAll(s, s')
    ensures CoreInv(cfg, s'.core, s.now)
  {
    GoneKnown(cfg, s.core, s.now);
    FilesRemovedKeeps(cfg, s.core, s.now);
  }

  lemma RemoveAllKeeps(cfg: Config, s: Sys, s': Sys)
    requires ValidConfig(cfg) && Inv(cfg, s) && StepRemoveAll(s, s')
    ensures Inv(cfg, s')
  {
    hide CoreInv, CallersInv, FlightInv, TallyInv, DirInv, LockInv, Consistent;
    CoreConsistent(cfg, s);
    RemoveAllCore(cfg, s, s');
    HolderShared(s, s');
    GoneDirs(cfg, s, s');
    GoneCallers(cfg, s, s');
  }

  // ---------- Clock and restart ----------

  lemma ClockShared(cfg: Config, s: Sys, later: int)
    requires CallersInv(cfg, s) && LockInv(s) && FlightInv(s) && TallyInv(s) && s.now <= later
    ensures var s' := s.(now := later); CallersInv(cfg, s') && LockInv(s') && FlightInv(s') && TallyInv(s')
  {
    var s' := s.(now := later);
    forall d | d in s'.callers ensures PcOK(cfg, s'.core, s'.tally.deletes, s'.now, s'.callers[d]) {
      StableKeeps(cfg, s, s', s.callers[d]);
    }
    assert forall d :: Leads(s', d) == Leads(s, d);
    assert forall k :: IsRunning(s', k) == IsRunning(s, k);
  }

  lemma ClockKeeps(cfg: Config, s: Sys, later: int)
    requires Inv(cfg, s) && s.now <= later
    ensures Inv(cfg, s.(now := later))
  {
    hide CoreInv, CallersInv, FlightInv, TallyInv, LockInv;
    TickKeeps(cfg, s.core, s.now, later);
    ClockShared(cfg, s, later);
  }

  lemma RestartDirs(cfg: Config, s: Sys)
    requires CoreInv(cfg, s.core, s.now) && DirInv(cfg, s)
    ensures DirsFit(cfg, s.core.disk, s.damaged, Reload(s.core.disk))
  {
    var r := Reload(s.core.disk);
    CrashSafe(cfg, s.core, s.now);
    forall id | id in r.entries && id !in s.damaged ensures DirFits(cfg, s.core.disk, r.entries[id]) {
      if s.core.lock.Held? && s.core.lock.phase.Saved? {
        assert r == s.core.mem;
      } else {
        assert id in Settled(s.core).entries;
      }
    }
  }

  lemma RestartedKeeps(cfg: Config, s: Sys)
    requires Inv(cfg, s)
    ensures Inv(cfg, Restarted(s))
  {
    hide CoreInv, DirsFit;
    RestartKeeps(cfg, s.core, s.now);
    RestartDirs(cfg, s);
  }

  // ---------- Every step ----------

  /** The steps under no lock. */
  lemma LooseStepKeeps(cfg: Config, s: Sys, a: Action, s': Sys)
    requires ValidConfig(cfg) && Inv(cfg, s) && Step(cfg, s, a, s')
    requires a.Arrive? || a.ArriveMark? || a.ArriveDelete? || a.LookUp? || a.ReRead? || a.JoinFlight? || a.ReCheck?
          || a.MakeDirectory? || a.FetcherWrites? || a.FetcherReturns? || a.FetcherFails? || a.MeasureDir?
                || a.LandFlight?
    ensures Inv(cfg, s')
  {
    hide Inv, StepArrive, StepLookUp, StepReRead, StepReCheck, StepMakeDirectory, StepFetcherWrites, StepFetcherReturns,
         StepFetcherFails, StepLand;
    match a
    case Arrive(c, req) => ArriveKeeps(cfg, s, c, req, s');
    case ArriveMark(c, id) => PlainKeeps(cfg, s, c, WantMark(Direct, id));
    case ArriveDelete(c, id) => PlainKeeps(cfg, s, c, WantDelete(id));
    case LookUp(c) => LookUpKeeps(cfg, s, c, s');
    case ReRead(c) => ReReadKeeps(cfg, s, c, s');
    case JoinFlight(c) =>
      if Key(s.callers[c].req) in s.flights { FollowKeeps(cfg, s, c, s'); } else { LeadKeeps(cfg, s, c, s'); }
    case ReCheck(c) => ReCheckKeeps(cfg, s, c, s');
    case MakeDirectory(c, fault) => MakeDirectoryKeeps(cfg, s, c, fault, s');
    case FetcherWrites(c, tree) => FetcherWritesKeeps(cfg, s, c, tree, s');
    case FetcherReturns(c, reported) => FetcherReturnsKeeps(cfg, s, c, reported, s');
    case FetcherFails(c, remains) => FetcherFailsKeeps(cfg, s, c, remains, s');
    case MeasureDir(c, fault, size, discovered) =>
      if fault { MeasureFailsKeeps(cfg, s, c, s'); } else { MeasuredKeeps(cfg, s, c, size, discovered, s'); }
    case LandFlight(c) => LandKeeps(cfg, s, c, s');
  }

  lemma StepKeeps(cfg: Config, s: Sys, a: Action, s': Sys)
    requires ValidConfig(cfg) && Inv(cfg, s) && Step(cfg, s, a, s')
    ensures Inv(cfg, s')
  {
    hide Inv;
    match a
    case BeginMark(c) =>
      if s.callers[c].id in s.core.mem.entries { BeginMarkKeeps(cfg, s, c, s'); } else { MarkMissKeeps(cfg, s, c, s'); }
    case EndMark(c) => EndMarkKeeps(cfg, s, c, s');
    case BeginStage(c) => BeginStageKeeps(cfg, s, c, s');
    case EndStage(c) => EndStageKeeps(cfg, s, c, s');
    case BeginDelete(c) =>
      if s.callers[c].id in s.core.mem.entries {
        BeginDeleteKeeps(cfg, s, c, s');
      } else {
        DeleteMissKeeps(cfg, s, c, s');
      }
    case RemoveSome(tree) => RemoveSomeKeeps(cfg, s, tree, s');
    case RemoveAll => RemoveAllKeeps(cfg, s, s');
    case EndDelete(c) => EndDeleteKeeps(cfg, s, c, s');
    case Save(fault, left, name, listing) => SaveKeeps(cfg, s, fault, left, name, listing, s');
    case Tick(later) => ClockKeeps(cfg, s, later);
    case Restart => RestartedKeeps(cfg, s);
    case _ => LooseStepKeeps(cfg, s, a, s');
  }
}
