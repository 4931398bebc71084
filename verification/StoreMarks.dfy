/** The gap between markUsed and the re-read, exactly: what the re-read finds is decided by the Deletes
    and the stagings of the key since the mark. */
module StoreMarks {
  import opened Index
  import opened StoreCore
  import opened StoreSystem
  import opened StoreSafety
  import opened StoreSteps
  import opened StoreLocks
  import opened StoreTheorems

  /** When the mark was made the key was indexed, so the counts balanced to one. */
  predicate Balanced(baseline: set<string>, pc: Pc) {
    pc.Reread? && !pc.why.Direct? ==> pc.staged + One(Key(pc.why.req) in baseline) == pc.marked + 1
  }

  ghost predicate MarksBalanced(s: Sys) {
    forall c :: c in s.callers ==> Balanced(s.tally.baseline, s.callers[c])
  }

  /** A mark is made with the key indexed. */
  lemma MarkFacts(cfg: Config, s: Sys, c: nat, s': Sys)
    requires ValidConfig(cfg) && Inv(cfg, s) && StepEndMark(s, c, s')
    ensures TallyInv(s) && Settled(s.core).byKey == s.core.mem.byKey
    ensures !s.callers[c].why.Direct? ==> Key(s.callers[c].why.req) in s.core.mem.byKey
  {
    InvParts(cfg, s);
    CallerOK(cfg, s, c);
    MarkTask(cfg, s, c, s');
    hide CoreInv, LockInv, FlightInv, TallyInv, CallersInv, DirInv, PcOK, Consistent, ValidConfig, StepEndMark;
    MarkedKey(cfg, s, c);
  }

  lemma MarkTask(cfg: Config, s: Sys, c: nat, s': Sys)
    requires Inv(cfg, s) && StepEndMark(s, c, s')
    ensures c in s.callers && s.callers[c].Marking? && s.callers[c].id in s.core.mem.entries
    ensures Settled(s.core).byKey == s.core.mem.byKey
  {
    hide FlightInv, TallyInv, CallersInv, DirInv, PcOK;
    EndMarkCore(cfg, s, c, s');
    hide LockInv, Consistent, IndexOK, DiskMatches, TempOK, StepEndMark, Inv;
    MarkSettled(cfg, s, c);
  }

  lemma MarkBalances(cfg: Config, s: Sys, a: Action, s': Sys)
    requires ValidConfig(cfg) && Inv(cfg, s) && Step(cfg, s, a, s') && a.EndMark?
    ensures a.c in s'.callers && Balanced(s'.tally.baseline, s'.callers[a.c])
  {
    hide Inv, TallyInv, KeyFor, Settled, ValidConfig, MarkFailed;
    MarkFacts(cfg, s, a.c, s');
    if !s.callers[a.c].why.Direct? { BalanceAt(s, Key(s.callers[a.c].why.req)); }
    FailedMarks(s.callers[a.c].why);
  }

  lemma FailedMarks(why: Purpose)
    ensures !MarkFailed(why, SaveFailed).Reread?
  {
  }

  lemma MarkSettled(cfg: Config, s: Sys, c: nat)
    requires CoreInv(cfg, s.core, s.now) && s.core.lock.Held? && s.core.lock.task.Mark?
    ensures Settled(s.core).byKey == s.core.mem.byKey
  {
  }

  lemma BalanceAt(s: Sys, key: string)
    requires TallyInv(s)
    ensures s.tally.stagings[key] + One(key in s.tally.baseline)
         == s.tally.deletes[key] + One(key in Settled(s.core).byKey)
  {
  }

  lemma StepBalances(cfg: Config, s: Sys, a: Action, s': Sys)
    requires ValidConfig(cfg) && Inv(cfg, s) && MarksBalanced(s) && Step(cfg, s, a, s')
    ensures MarksBalanced(s')
  {
    hide Step, Inv, Balanced, ComesTo;
    if MovesCaller(a) {
      OneCallerMoves(cfg, s, a, s');
      if a.EndMark? { MarkBalances(cfg, s, a, s'); }
      NotMarked(s'.tally.baseline, a, s'.callers[a.c]);
    } else if a.LandFlight? {
      forall d | d in s'.callers ensures Balanced(s'.tally.baseline, s'.callers[d]) {
        LandMoves(cfg, s, a, s', d);
        NotMarked(s'.tally.baseline, a, s'.callers[d]);
      }
    } else {
      NoCallerMoves(cfg, s, a, s');
    }
  }

  lemma NotMarked(baseline: set<string>, a: Action, pc: Pc)
    ensures (ComesTo(a, pc) && !a.EndMark?) || pc.Returned? ==> Balanced(baseline, pc)
  {
  }

  lemma {:induction false} RunBalances(cfg: Config, states: seq<Sys>, actions: seq<Action>, i: nat)
    requires ValidConfig(cfg) && IsRun(cfg, states, actions) && i < |states|
    ensures MarksBalanced(states[i])
  {
    hide Inv, Step;
    if i > 0 {
      RunBalances(cfg, states, actions, i - 1);
      StepAt(cfg, states, actions, i - 1);
      StepBalances(cfg, states[i - 1], actions[i - 1], states[i]);
    }
  }

  /** In every run the re-read yields the zero Entry exactly when more Deletes than stagings of the key
      have completed since the mark. */
  lemma ZeroEntryIff(cfg: Config, states: seq<Sys>, actions: seq<Action>, i: nat)
    requires ValidConfig(cfg) && IsRun(cfg, states, actions) && i < |actions| && actions[i].ReRead?
    requires actions[i].c in states[i].callers && states[i].callers[actions[i].c].Reread?
          && !states[i].callers[actions[i].c].why.Direct?
    ensures var s := states[i]; var pc := s.callers[actions[i].c]; var key := Key(pc.why.req);
            ReadEntry(s.core.mem, pc.id) == ZERO_ENTRY <==>
            s.tally.deletes[key] - pc.marked > s.tally.stagings[key] - pc.staged
  {
    hide Inv, Step;
    RunBalances(cfg, states, actions, i);
    StepAt(cfg, states, actions, i);
    ZeroAt(cfg, states[i], actions[i].c, states[i + 1]);
  }

  /** What the caller finds indexed at its re-read. */
  lemma IndexedAtRead(cfg: Config, s: Sys, c: nat)
    requires ValidConfig(cfg) && Consistent(cfg, s.core.mem) && s.core.lock.Free?
    requires c in s.callers && s.callers[c].Reread? && !s.callers[c].why.Direct?
    requires PcOK(cfg, s.core, s.tally.deletes, s.now, s.callers[c])
    ensures Key(s.callers[c].why.req) in s.core.mem.byKey <==> s.callers[c].id in s.core.mem.entries
    ensures ReadEntry(s.core.mem, s.callers[c].id) == ZERO_ENTRY <==> s.callers[c].id !in s.core.mem.entries
  {
    IndexedIff(cfg, s.core.mem, Key(s.callers[c].why.req));
    ReReadResult(cfg, s, c);
    hide Consistent, ValidConfig, OutOK, RereadOK;
  }

  lemma InvParts(cfg: Config, s: Sys)
    requires Inv(cfg, s)
    ensures TallyInv(s) && Consistent(cfg, s.core.mem)
  {
    hide LockInv, FlightInv, CallersInv, DirInv, TallyInv, Consistent, IndexOK, DiskMatches, UsedBefore, TaskOK, TempOK;
  }

  lemma ZeroAt(cfg: Config, s: Sys, c: nat, s': Sys)
    requires ValidConfig(cfg) && Inv(cfg, s) && MarksBalanced(s) && Step(cfg, s, ReRead(c), s')
    requires c in s.callers && s.callers[c].Reread? && !s.callers[c].why.Direct?
    ensures var pc := s.callers[c]; var key := Key(pc.why.req);
            ReadEntry(s.core.mem, pc.id) == ZERO_ENTRY <==>
            s.tally.deletes[key] - pc.marked > s.tally.stagings[key] - pc.staged
  {
    hide Inv, TallyInv, Consistent, ValidConfig, PcOK, KeyFor, ReadEntry;
    CallerOK(cfg, s, c);
    InvParts(cfg, s);
    IndexedAtRead(cfg, s, c);
    BalanceAt(s, Key(s.callers[c].why.req));
    assert Balanced(s.tally.baseline, s.callers[c]);
  }
}
