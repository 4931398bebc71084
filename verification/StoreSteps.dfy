/** The steps of the store system that do not take or hold the write lock keep the invariant. */
module StoreSteps {
  import opened Wrappers
  import opened Index
  import opened Files
  import opened StoreCore
  import opened StoreSystem
  import opened StoreSafety

  // ---------- Steps that only move the caller ----------

  lemma ArrivePc(cfg: Config, s: Sys, c: nat, req: Request, s': Sys)
    requires StepArrive(cfg, s, c, req, s')
    ensures c in s'.callers && s' == Move(s, c, s'.callers[c]) && PlainMove(cfg, s, c, s'.callers[c])
  {
  }

  lemma FindHit(cfg: Config, m: Maps, key: string)
    requires ValidConfig(cfg) && Consistent(cfg, m) && key in cfg.keys
    ensures Find(m, key).Some? <==> key in m.byKey
    ensures Find(m, key).Some? ==> Find(m, key).value == cfg.hash(key)
  {
    IndexedIff(cfg, m, key);
  }

  lemma LookUpPc(cfg: Config, s: Sys, c: nat, s': Sys)
    requires ValidConfig(cfg) && Consistent(cfg, s.core.mem) && StepLookUp(s, c, s')
    requires PcOK(cfg, s.core, s.tally.deletes, s.now, s.callers[c])
    ensures c in s'.callers && s' == Move(s, c, s'.callers[c]) && PlainMove(cfg, s, c, s'.callers[c])
  {
    FindHit(cfg, s.core.mem, Key(s.callers[c].req));
    hide Consistent, ValidConfig, Find, KeyFor;
  }

  lemma ReCheckPc(cfg: Config, s: Sys, c: nat, s': Sys)
    requires ValidConfig(cfg) && Consistent(cfg, s.core.mem) && StepReCheck(s, c, s')
    requires PcOK(cfg, s.core, s.tally.deletes, s.now, s.callers[c])
    ensures c in s'.callers && s' == Move(s, c, s'.callers[c]) && PlainMove(cfg, s, c, s'.callers[c])
  {
    FindHit(cfg, s.core.mem, Key(s.callers[c].req));
    hide Consistent, ValidConfig, Find, KeyFor;
  }

  lemma MarkMissPc(cfg: Config, s: Sys, c: nat, s': Sys)
    requires StepBeginMark(s, c, s') && s.callers[c].id !in s.core.mem.entries
    requires PcOK(cfg, s.core, s.tally.deletes, s.now, s.callers[c])
    ensures c in s'.callers && s' == Move(s, c, s'.callers[c]) && PlainMove(cfg, s, c, s'.callers[c])
  {
  }

  /** The re-read finds the entry unless a Delete of its key completed since the mark. */
  lemma ReReadResult(cfg: Config, s: Sys, c: nat)
    requires ValidConfig(cfg) && Consistent(cfg, s.core.mem) && s.core.lock.Free?
    requires c in s.callers && s.callers[c].Reread? && PcOK(cfg, s.core, s.tally.deletes, s.now, s.callers[c])
    ensures var why, id := s.callers[c].why, s.callers[c].id;
            var lost := s.callers[c].marked < s.tally.deletes[Key(why.req)];
            && (!lost ==> id in s.core.mem.entries)
            && (ReadEntry(s.core.mem, id) == ZERO_ENTRY <==> id !in s.core.mem.entries)
            && OutOK(cfg, why.req, Ok(ReadEntry(s.core.mem, id)), lost)
  {
    var why, id := s.callers[c].why, s.callers[c].id;
    IndexedIff(cfg, s.core.mem, Key(why.req));
    assert IsHexID(id);
    if id in s.core.mem.entries {
      var e := s.core.mem.entries[id];
      assert KeyOf(e) == Key(why.req);
      KeyForInjective(e.source, e.modelID, why.req.source, why.req.modelID);
    }
  }

  lemma ReReadPc(cfg: Config, s: Sys, c: nat, s': Sys)
    requires StepReRead(s, c, s') && !s.callers[c].why.Direct? && ReqOK(cfg, s.callers[c].why.req)
    requires OutOK(cfg, s.callers[c].why.req, Ok(ReadEntry(s.core.mem, s.callers[c].id)),
                   s.callers[c].marked < s.tally.deletes[Key(s.callers[c].why.req)])
    ensures c in s'.callers && s' == Move(s, c, s'.callers[c]) && PlainMove(cfg, s, c, s'.callers[c])
  {
  }

  lemma FollowPc(cfg: Config, s: Sys, c: nat, s': Sys)
    requires StepJoin(s, c, s') && Key(s.callers[c].req) in s.flights
    requires PcOK(cfg, s.core, s.tally.deletes, s.now, s.callers[c])
    ensures c in s'.callers && s' == Move(s, c, s'.callers[c]) && PlainMove(cfg, s, c, s'.callers[c])
  {
  }

  lemma FetcherReturnsPc(cfg: Config, s: Sys, c: nat, reported: seq<string>, s': Sys)
    requires StepFetcherReturns(s, c, reported, s')
    requires PcOK(cfg, s.core, s.tally.deletes, s.now, s.callers[c])
    ensures c in s'.callers && s' == Move(s, c, s'.callers[c]) && PlainMove(cfg, s, c, s'.callers[c])
  {
  }

  lemma MeasuredPc(cfg: Config, s: Sys, c: nat, size: int, discovered: seq<string>, s': Sys)
    requires StepMeasureDir(cfg, s, c, false, size, discovered, s')
    requires PcOK(cfg, s.core, s.tally.deletes, s.now, s.callers[c])
    ensures c in s'.callers && s' == Move(s, c, s'.callers[c]) && PlainMove(cfg, s, c, s'.callers[c])
  {
    assert cfg.root <= cfg.root + [cfg.hash(Key(s.callers[c].req))];
  }

  lemma DeleteMissPc(cfg: Config, s: Sys, c: nat, s': Sys)
    requires StepBeginDelete(cfg, s, c, s') && s.callers[c].id !in s.core.mem.entries
    ensures c in s'.callers && s' == Move(s, c, s'.callers[c]) && PlainMove(cfg, s, c, s'.callers[c])
  {
  }

  lemma ArriveKeeps(cfg: Config, s: Sys, c: nat, req: Request, s': Sys)
    requires ValidConfig(cfg) && Inv(cfg, s) && StepArrive(cfg, s, c, req, s')
    ensures Inv(cfg, s')
  {
    ArrivePc(cfg, s, c, req, s');
    PlainKeeps(cfg, s, c, s'.callers[c]);
  }

  lemma LookUpKeeps(cfg: Config, s: Sys, c: nat, s': Sys)
    requires ValidConfig(cfg) && Inv(cfg, s) && StepLookUp(s, c, s')
    ensures Inv(cfg, s')
  {
    CallerOK(cfg, s, c);
    LookUpPc(cfg, s, c, s');
    PlainKeeps(cfg, s, c, s'.callers[c]);
  }

  lemma ReCheckKeeps(cfg: Config, s: Sys, c: nat, s': Sys)
    requires ValidConfig(cfg) && Inv(cfg, s) && StepReCheck(s, c, s')
    ensures Inv(cfg, s')
  {
    CallerOK(cfg, s, c);
    ReCheckPc(cfg, s, c, s');
    PlainKeeps(cfg, s, c, s'.callers[c]);
  }

  lemma ReReadKeeps(cfg: Config, s: Sys, c: nat, s': Sys)
    requires ValidConfig(cfg) && Inv(cfg, s) && StepReRead(s, c, s')
    ensures Inv(cfg, s')
  {
    CallerOK(cfg, s, c);
    ReReadResult(cfg, s, c);
    ReReadPc(cfg, s, c, s');
    PlainKeeps(cfg, s, c, s'.callers[c]);
  }

  lemma MarkMissKeeps(cfg: Config, s: Sys, c: nat, s': Sys)
    requires ValidConfig(cfg) && Inv(cfg, s) && StepBeginMark(s, c, s') && s.callers[c].id !in s.core.mem.entries
    ensures Inv(cfg, s')
  {
    CallerOK(cfg, s, c);
    MarkMissPc(cfg, s, c, s');
    PlainKeeps(cfg, s, c, s'.callers[c]);
  }

  lemma FollowKeeps(cfg: Config, s: Sys, c: nat, s': Sys)
    requires ValidConfig(cfg) && Inv(cfg, s) && StepJoin(s, c, s') && Key(s.callers[c].req) in s.flights
    ensures Inv(cfg, s')
  {
    CallerOK(cfg, s, c);
    FollowPc(cfg, s, c, s');
    PlainKeeps(cfg, s, c, s'.callers[c]);
  }

  lemma FetcherReturnsKeeps(cfg: Config, s: Sys, c: nat, reported: seq<string>, s': Sys)
    requires ValidConfig(cfg) && Inv(cfg, s) && StepFetcherReturns(s, c, reported, s')
    ensures Inv(cfg, s')
  {
    CallerOK(cfg, s, c);
    FetcherReturnsPc(cfg, s, c, reported, s');
    PlainKeeps(cfg, s, c, s'.callers[c]);
  }

  lemma MeasuredKeeps(cfg: Config, s: Sys, c: nat, size: int, discovered: seq<string>, s': Sys)
    requires ValidConfig(cfg) && Inv(cfg, s) && StepMeasureDir(cfg, s, c, false, size, discovered, s')
    ensures Inv(cfg, s')
  {
    CallerOK(cfg, s, c);
    MeasuredPc(cfg, s, c, size, discovered, s');
    PlainKeeps(cfg, s, c, s'.callers[c]);
  }

  lemma DeleteMissKeeps(cfg: Config, s: Sys, c: nat, s': Sys)
    requires ValidConfig(cfg) && Inv(cfg, s) && StepBeginDelete(cfg, s, c, s') && s.callers[c].id !in s.core.mem.entries
    ensures Inv(cfg, s')
  {
    DeleteMissPc(cfg, s, c, s');
    PlainKeeps(cfg, s, c, s'.callers[c]);
  }

  // ---------- doFetch before the lock ----------

  /** A doFetch that fails is charged to its key. */
  lemma FailTally(cfg: Config, s: Sys, c: nat, t: Sys, req: Request, err: Error, s': Sys)
    requires FlightInv(s) && TallyInv(s) && Leads(s, c) == Some(Key(req))
    requires t.flights == s.flights && t.callers == s.callers && t.tally == s.tally
    requires forall k :: k in Settled(t.core).byKey <==> k in Settled(s.core).byKey
    requires s' == FailFetch(t, c, req, err)
    ensures TallyInv(s')
  {
    forall k ensures s'.tally.starts[k] <= s'.tally.stagings[k] + s'.tally.failures[k] + One(IsRunning(s', k)) {
      if k != Key(req) { assert IsRunning(s', k) == IsRunning(s, k); }
    }
  }

  lemma FailQuiet(cfg: Config, s: Sys, c: nat, disk: Disk, req: Request, err: Error, s': Sys)
    requires OwnDirOnly(cfg, s, c, disk)
    requires c in s.callers && !Holding(s.callers[c]) && Leads(s, c) == Some(Key(req)) && ReqOK(cfg, req)
    requires s' == FailFetch(s.(core := s.core.(disk := disk)), c, req, err)
    ensures QuietMove(cfg, s, c, Finish(req, Err(err), false), s')
    ensures PcOK(cfg, s'.core, s'.tally.deletes, s'.now, Finish(req, Err(err), false))
  {
    hide OwnDirOnly;
  }

  lemma FailKeeps(cfg: Config, s: Sys, c: nat, disk: Disk, req: Request, err: Error, s': Sys)
    requires ValidConfig(cfg) && Inv(cfg, s) && OwnDirOnly(cfg, s, c, disk)
    requires c in s.callers && !Holding(s.callers[c]) && Leads(s, c) == Some(Key(req)) && ReqOK(cfg, req)
    requires s' == FailFetch(s.(core := s.core.(disk := disk)), c, req, err)
    ensures Inv(cfg, s')
  {
    hide CoreInv, LockInv, FlightInv, CallersInv, TallyInv, DirInv, ValidConfig, OwnDirOnly, QuietMove, PcOK;
    FailTally(cfg, s, c, s.(core := s.core.(disk := disk)), req, err, s');
    FailQuiet(cfg, s, c, disk, req, err, s');
    hide Inv;
    QuietKeeps(cfg, s, c, Finish(req, Err(err), false), s');
  }

  lemma StartTally(cfg: Config, s: Sys, c: nat, s': Sys)
    requires FlightInv(s) && TallyInv(s) && c in s.callers && s.callers[c].MakeDir?
    requires s'.core == s.core.(disk := s'.core.disk) && s'.flights == s.flights
    requires s'.callers == s.callers[c := Fetching(s.callers[c].req)]
    requires s'.tally == s.tally.(starts := s.tally.starts + multiset{Key(s.callers[c].req)})
    ensures TallyInv(s')
  {
    var key := Key(s.callers[c].req);
    assert Leads(s, c) == Some(key) && Running(s'.callers[c]);
    hide LeaderOf, Settled, KeyFor;
    forall k ensures s'.tally.starts[k] <= s'.tally.stagings[k] + s'.tally.failures[k] + One(IsRunning(s', k)) {
      if k != key { assert IsRunning(s', k) == IsRunning(s, k); }
    }
  }

  lemma StartQuiet(cfg: Config, s: Sys, c: nat, s': Sys)
    requires StepMakeDirectory(cfg, s, c, false, s') && PcOK(cfg, s.core, s.tally.deletes, s.now, s.callers[c])
    ensures QuietMove(cfg, s, c, Fetching(s.callers[c].req), s')
    ensures PcOK(cfg, s'.core, s'.tally.deletes, s'.now, Fetching(s.callers[c].req))
  {
  }

  lemma MakeDirectoryKeeps(cfg: Config, s: Sys, c: nat, fault: bool, s': Sys)
    requires ValidConfig(cfg) && Inv(cfg, s) && StepMakeDirectory(cfg, s, c, fault, s')
    ensures Inv(cfg, s')
  {
    CallerOK(cfg, s, c);
    if fault {
      FailKeeps(cfg, s, c, s.core.disk, s.callers[c].req, MkdirFailed, s');
    } else {
      StartQuiet(cfg, s, c, s');
      StartTally(cfg, s, c, s');
      QuietKeeps(cfg, s, c, Fetching(s.callers[c].req), s');
    }
  }

  lemma FetcherWritesKeeps(cfg: Config, s: Sys, c: nat, tree: Tree, s': Sys)
    requires ValidConfig(cfg) && Inv(cfg, s) && StepFetcherWrites(cfg, s, c, tree, s')
    ensures Inv(cfg, s')
  {
    CallerOK(cfg, s, c);
    assert s.callers == s.callers[c := s.callers[c]];
    QuietTalliedKeeps(cfg, s, c, s.callers[c], s');
  }

  lemma FetcherFailsDir(cfg: Config, s: Sys, c: nat, remains: Option<Tree>, s': Sys)
    requires StepFetcherFails(cfg, s, c, remains, s') && PcOK(cfg, s.core, s.tally.deletes, s.now, s.callers[c])
    ensures c in s.callers && !Holding(s.callers[c]) && s.callers[c].Fetching?
    ensures OwnDirOnly(cfg, s, c, s'.core.disk) && Leads(s, c) == Some(Key(s.callers[c].req))
          && ReqOK(cfg, s.callers[c].req)
    ensures s' == FailFetch(s.(core := s.core.(disk := s'.core.disk)), c, s.callers[c].req, FetcherFailed)
  {
  }

  lemma FetcherFailsKeeps(cfg: Config, s: Sys, c: nat, remains: Option<Tree>, s': Sys)
    requires ValidConfig(cfg) && Inv(cfg, s) && StepFetcherFails(cfg, s, c, remains, s')
    ensures Inv(cfg, s')
  {
    hide CoreInv, LockInv, FlightInv, CallersInv, TallyInv, DirInv, ValidConfig;
    CallerOK(cfg, s, c);
    FetcherFailsDir(cfg, s, c, remains, s');
    hide OwnDirOnly, StepFetcherFails, PcOK;
    FailKeeps(cfg, s, c, s'.core.disk, s.callers[c].req, FetcherFailed, s');
  }

  lemma MeasureFailsKeeps(cfg: Config, s: Sys, c: nat, s': Sys)
    requires ValidConfig(cfg) && Inv(cfg, s) && StepMeasureDir(cfg, s, c, true, 0, [], s')
    ensures Inv(cfg, s')
  {
    CallerOK(cfg, s, c);
    FailKeeps(cfg, s, c, s.core.disk, s.callers[c].req, MeasureFailed, s');
  }
}
