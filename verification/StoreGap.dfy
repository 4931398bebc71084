/** The gap between markUsed and the re-read: a Delete that completes in it makes an error-free Fetch
    return the zero Entry. */
module StoreGap {
  import opened Text
  import opened Wrappers
  import opened Index
  import opened Files
  import opened StoreCore
  import opened StoreSystem
  import opened StoreSafety
  import opened StoreSteps
  import opened StoreFileSteps
  import opened StoreTheorems
  import opened ModelStore

  /** One state can follow another by some steps. */
  ghost predicate LeadsTo(cfg: Config, s: Sys, actions: seq<Action>, t: Sys)
    decreases |actions|
  {
    if actions == [] then s == t else exists m :: Step(cfg, s, actions[0], m) && LeadsTo(cfg, m, actions[1..], t)
  }

  lemma Then(cfg: Config, s: Sys, a: Action, m: Sys, rest: seq<Action>, t: Sys)
    requires Step(cfg, s, a, m) && LeadsTo(cfg, m, rest, t)
    ensures LeadsTo(cfg, s, [a] + rest, t)
  {
    assert ([a] + rest)[0] == a && ([a] + rest)[1..] == rest;
  }

  lemma Done(cfg: Config, s: Sys)
    ensures LeadsTo(cfg, s, [], s)
  {
  }

  lemma {:induction false} Joined(cfg: Config, s: Sys, first: seq<Action>, m: Sys, rest: seq<Action>, t: Sys)
    requires LeadsTo(cfg, s, first, m) && LeadsTo(cfg, m, rest, t)
    ensures LeadsTo(cfg, s, first + rest, t)
    decreases |first|
  {
    hide Step;
    if first == [] {
      assert first + rest == rest;
    } else {
      var n :| Step(cfg, s, first[0], n) && LeadsTo(cfg, n, first[1..], m);
      Joined(cfg, n, first[1..], m, rest, t);
      Then(cfg, s, first[0], n, first[1..] + rest, t);
      assert [first[0]] + (first[1..] + rest) == first + rest;
    }
  }

  function AtPhase(s: Sys, disk: Disk, phase: Phase): Sys
    requires s.core.lock.Held?
  {
    s.(core := s.core.(disk := disk, lock := s.core.lock.(phase := phase)))
  }

  /** A save in which nothing goes wrong: four steps. */
  lemma SaveSucceeds(cfg: Config, s: Sys) returns (actions: seq<Action>, saved: Sys)
    requires s.core.lock.Held? && s.core.lock.phase.Creating?
    requires forall id :: id in s.core.mem.entries ==> s.core.mem.entries[id].id == id
    ensures saved == AtPhase(s, saved.core.disk, Saved)
    ensures LeadsTo(cfg, s, actions, saved)
  {
    var listing := ListingExists(s.core.mem.entries);
    FreshTemp(s.core.disk.Keys);
    var tmp :| IsTempName(tmp) && tmp !in s.core.disk;
    actions, saved := SaveFrom(cfg, s, tmp, listing);
  }

  lemma SaveFrom(cfg: Config, s: Sys, tmp: string, listing: seq<Entry>) returns (actions: seq<Action>, saved: Sys)
    requires s.core.lock.Held? && s.core.lock.phase.Creating?
    requires IsListing(listing, s.core.mem.entries) && IsTempName(tmp) && tmp !in s.core.disk
    ensures saved == AtPhase(s, saved.core.disk, Saved)
    ensures LeadsTo(cfg, s, actions, saved)
  {
    hide IsListing, LeadsTo;
    var save := Save(false, false, tmp, listing);
    var d1 := s.core.disk[tmp := TempFile([], false)];
    var d2 := d1[tmp := TempFile(listing, true)];
    var s1, s2, s3 := AtPhase(s, d1, Writing(tmp)), AtPhase(s, d2, Closing(tmp)), AtPhase(s, d2, Renaming(tmp));
    saved := AtPhase(s, (d2 - {tmp})[INDEX_NAME := IndexFile(listing)], Saved);
    Done(cfg, saved);
    Then(cfg, s3, save, saved, [], saved);
    Then(cfg, s2, save, s3, [save] + [], saved);
    Then(cfg, s1, save, s2, [save] + ([save] + []), saved);
    Then(cfg, s, save, s1, [save] + ([save] + ([save] + [])), saved);
    actions := [save] + ([save] + ([save] + ([save] + [])));
  }

  lemma {:induction false} FreshCaller(ids: set<nat>) returns (d: nat)
    ensures forall i :: i in ids ==> i < d
  {
    if ids == {} {
      d := 0;
    } else {
      var x :| x in ids;
      var m := FreshCaller(ids - {x});
      d := if m > x then m else x + 1;
      forall i | i in ids ensures i < d {
        if i != x { assert i in ids - {x}; }
      }
    }
  }

  /** The Delete of an indexed entry up to its save. */
  lemma DeleteBegins(cfg: Config, s: Sys, d: nat, id: string) returns (actions: seq<Action>, t: Sys)
    requires s.core.lock.Free? && id in s.core.mem.entries && s.core.mem.entries[id].id == id && d !in s.callers
    ensures var e := s.core.mem.entries[id];
            && t.core.lock == Held(d, Remove(e), Creating, s.core.mem)
            && t.core.mem == WithoutEntry(s.core.mem, e)
            && t.callers == s.callers[d := Deleting(id)] && t.tally == s.tally && t.flights == s.flights
    ensures LeadsTo(cfg, s, actions, t)
  {
    hide LeadsTo;
    var e := s.core.mem.entries[id];
    var s1 := Move(s, d, WantDelete(id));
    var s2 := Move(s1.(core := TakeDelete(s.core, d, e, cfg.root <= e.path)), d, Deleting(id));
    assert s1.callers[d := Deleting(id)] == s.callers[d := Deleting(id)];
    if cfg.root <= e.path {
      t := s2.(core := FilesRemoved(s2.core), damaged := s2.damaged + {id});
      Done(cfg, t);
      Then(cfg, s2, RemoveAll, t, [], t);
      actions := [RemoveAll] + [];
    } else {
      t := s2;
      Done(cfg, t);
      actions := [];
    }
    Then(cfg, s1, BeginDelete(d), s2, actions, t);
    Then(cfg, s, ArriveDelete(d, id), s1, [BeginDelete(d)] + actions, t);
    actions := [ArriveDelete(d, id)] + ([BeginDelete(d)] + actions);
  }

  lemma KeptIDs(cfg: Config, m: Maps, id: string)
    requires Consistent(cfg, m) && id in m.entries
    ensures m.entries[id].id == id
    ensures var kept := WithoutEntry(m, m.entries[id]).entries; forall i :: i in kept ==> kept[i].id == i
  {
  }

  /** Deleting an indexed entry can run to its end whenever the lock is free. */
  lemma DeleteCanComplete(cfg: Config, s: Sys, d: nat, id: string) returns (actions: seq<Action>, done: Sys)
    requires Consistent(cfg, s.core.mem) && s.core.lock.Free? && id in s.core.mem.entries && d !in s.callers
    ensures var e := s.core.mem.entries[id];
            && done.core.mem == WithoutEntry(s.core.mem, e) && done.core.lock.Free?
            && done.callers == s.callers[d := Ended(None)] && done.flights == s.flights
            && done.tally == s.tally.(deletes := s.tally.deletes + multiset{KeyOf(e)})
    ensures LeadsTo(cfg, s, actions, done)
  {
    KeptIDs(cfg, s.core.mem, id);
    var e := s.core.mem.entries[id];
    var begin, t := DeleteBegins(cfg, s, d, id);
    var saves, saved := SaveSucceeds(cfg, t);
    done := Move(saved.(core := Release(saved.core),
                        tally := saved.tally.(deletes := saved.tally.deletes + multiset{KeyOf(e)}),
                        damaged := saved.damaged - {e.id}), d, Ended(None));
    actions := Finished(cfg, s, begin, t, saves, saved, d, e, done);
  }

  lemma Finished(cfg: Config, s: Sys, begin: seq<Action>, t: Sys, saves: seq<Action>, saved: Sys, d: nat, e: Entry,
        done: Sys)
    returns (actions: seq<Action>)
    requires LeadsTo(cfg, s, begin, t) && LeadsTo(cfg, t, saves, saved)
    requires d in saved.callers && saved.callers[d].Deleting?
    requires saved.core.lock.Held? && saved.core.lock.owner == d && saved.core.lock.task == Remove(e)
          && saved.core.lock.phase == Saved
    requires done == Move(saved.(core := Release(saved.core),
                        tally := saved.tally.(deletes := saved.tally.deletes + multiset{KeyOf(e)}),
                        damaged := saved.damaged - {e.id}), d, Ended(None))
    ensures LeadsTo(cfg, s, actions, done)
  {
    hide LeadsTo;
    Done(cfg, done);
    Then(cfg, saved, EndDelete(d), done, [], done);
    Joined(cfg, s, begin, t, saves, saved);
    Joined(cfg, s, begin + saves, saved, [EndDelete(d)] + [], done);
    actions := begin + saves + ([EndDelete(d)] + []);
  }

  // ---------- Any section can end ----------

  /** With its save over, or its removal of files given up, the holder of the lock returns. */
  lemma SectionEnds(cfg: Config, s: Sys) returns (a: Action, t: Sys)
    requires s.core.lock.Held? && s.core.lock.owner in s.callers
    requires TaskFits(s.callers[s.core.lock.owner], s.core.lock.task)
    requires var phase := s.core.lock.phase;
             phase.Saved? || phase.Unsaved? || (phase.Removing? && s.core.lock.task.Remove?)
    ensures Step(cfg, s, a, t) && t.core.lock.Free? && t.flights == s.flights
    ensures s.core.lock.owner in t.callers && t.callers == s.callers[s.core.lock.owner := t.callers[s.core.lock.owner]]
  {
    hide KeyFor;
    var c, r := s.core.lock.owner, s.(core := Release(s.core));
    var saved := s.core.lock.phase.Saved?;
    match s.core.lock.task
    case Mark(id) =>
      var why := s.callers[c].why;
      a := EndMark(c);
      t := Move(r, c, if s.core.lock.phase.Unsaved? then MarkFailed(why, SaveFailed)
                      else if why.Direct? then Ended(None)
                      else Reread(why, id, Deletes(s, why), Stagings(s, why)));
    case Stage(e) =>
      var req := s.callers[c].req;
      a := EndStage(c);
      t := if saved then
             Move(r.(tally := r.tally.(stagings := r.tally.stagings + multiset{Key(req)})),
                  c, Finish(req, Ok(e), false))
           else FailFetch(r, c, req, SaveFailed);
    case Remove(e) =>
      a := EndDelete(c);
      t := if saved then
             Move(r.(tally := r.tally.(deletes := r.tally.deletes + multiset{KeyOf(e)}), damaged := r.damaged - {e.id}),
                  c, Ended(None))
           else Move(r, c, Ended(Some(if s.core.lock.phase.Removing? then RemoveFailed else SaveFailed)));
  }

  /** A save that fails in its next operation. */
  lemma SaveFails(cfg: Config, s: Sys) returns (a: Action, t: Sys)
    requires s.core.lock.Held?
    requires var phase := s.core.lock.phase; !phase.Saved? && !phase.Unsaved? && !phase.Removing?
    ensures Step(cfg, s, a, t) && t == AtPhase(s, t.core.disk, Unsaved)
  {
    a := Save(true, true, "", []);
    var d := s.core.disk;
    t := AtPhase(s, if s.core.lock.phase.Writing? then d[s.core.lock.phase.tmp := TempFile([], false)] else d, Unsaved);
  }

  /** From every state the lock can come free in at most two steps, with every other caller where it was. */
  lemma LockCanBeFreed(cfg: Config, s: Sys) returns (actions: seq<Action>, t: Sys)
    requires Inv(cfg, s)
    ensures LeadsTo(cfg, s, actions, t) && t.core.lock.Free? && t.flights == s.flights && |actions| <= 2
    ensures forall c :: c in s.callers && !Holding(s.callers[c]) ==> c in t.callers && t.callers[c] == s.callers[c]
  {
    hide LeadsTo, Step;
    Done(cfg, s);
    if s.core.lock.Free? { return [], s; }
    HolderFacts(cfg, s);
    hide Inv, TaskFits;
    if s.core.lock.phase.Saved? || s.core.lock.phase.Unsaved? || s.core.lock.phase.Removing? {
      var a;
      a, t := SectionEnds(cfg, s);
      Done(cfg, t);
      Then(cfg, s, a, t, [], t);
      actions := [a] + [];
    } else {
      var a, m := SaveFails(cfg, s);
      var b;
      b, t := SectionEnds(cfg, m);
      Done(cfg, t);
      Then(cfg, m, b, t, [], t);
      Then(cfg, s, a, m, [b] + [], t);
      actions := [a] + ([b] + []);
    }
  }

  lemma HolderFacts(cfg: Config, s: Sys)
    requires Inv(cfg, s) && s.core.lock.Held?
    ensures s.core.lock.owner in s.callers && TaskFits(s.callers[s.core.lock.owner], s.core.lock.task)
    ensures Holding(s.callers[s.core.lock.owner]) && (s.core.lock.phase.Removing? ==> s.core.lock.task.Remove?)
  {
    hide FlightInv, TallyInv, DirInv, CallersInv, Consistent, IndexOK, DiskMatches, TempOK;
  }

  // ---------- The gap ----------

  /** Whoever joined the flight of the key gets what its leader gets. */
  predicate SharesFlight(pc: Pc, key: string) {
    pc.Follow? && Key(pc.req) == key
  }

  /** From every state in which a Fetch, on the fast path or as the leader of a flight, stands between its
      markUsed and its re-read, the system can go on so that this Fetch, with all who joined its flight,
      returns the zero Entry without error. */
  lemma GapDeleteLosesEntry(cfg: Config, s: Sys, c: nat) returns (actions: seq<Action>, t: Sys)
    requires ValidConfig(cfg) && Inv(cfg, s) && c in s.callers && s.callers[c].Reread? && !s.callers[c].why.Direct?
    ensures LeadsTo(cfg, s, actions, t)
    ensures c in t.callers && t.callers[c] == Returned(s.callers[c].why.req, Ok(ZERO_ENTRY), true)
    ensures s.callers[c].why.Lead? ==>
          forall d :: d in s.callers && SharesFlight(s.callers[d], Key(s.callers[c].why.req)) ==>
            d in t.callers && t.callers[d] == Returned(s.callers[d].req, Ok(ZERO_ENTRY), true)
  {
    hide Inv, LeadsTo, Step, ValidConfig, KeyFor;
    var free, m := LockCanBeFreed(cfg, s);
    InvAlong(cfg, s, free, m);
    var del, gone := EntryCanGo(cfg, m, c);
    Joined(cfg, s, free, m, del, gone);
    InvAlong(cfg, m, del, gone);
    GapFacts(cfg, gone, c);
    var back;
    back, t := GapReRead(cfg, gone, c);
    Joined(cfg, s, free + del, gone, back, t);
    actions := free + del + back;
  }

  /** With the lock free the caller's entry can be deleted, if it has not been. */
  lemma EntryCanGo(cfg: Config, s: Sys, c: nat) returns (actions: seq<Action>, t: Sys)
    requires ValidConfig(cfg) && Inv(cfg, s) && s.core.lock.Free? && c in s.callers && s.callers[c].Reread?
    ensures LeadsTo(cfg, s, actions, t) && t.core.lock.Free? && t.flights == s.flights
    ensures s.callers[c].id !in t.core.mem.entries
    ensures forall d :: d in s.callers ==> d in t.callers && t.callers[d] == s.callers[d]
  {
    hide Inv, LeadsTo, Step, Consistent;
    var id := s.callers[c].id;
    Done(cfg, s);
    if id !in s.core.mem.entries { return [], s; }
    InvConsistent(cfg, s);
    KeptIDs(cfg, s.core.mem, id);
    var d := FreshCaller(s.callers.Keys);
    actions, t := DeleteCanComplete(cfg, s, d, id);
  }

  lemma InvConsistent(cfg: Config, s: Sys)
    requires Inv(cfg, s)
    ensures Consistent(cfg, s.core.mem)
  {
    hide LockInv, FlightInv, TallyInv, DirInv, CallersInv, Consistent, IndexOK, DiskMatches;
  }

  lemma GapFacts(cfg: Config, s: Sys, c: nat)
    requires ValidConfig(cfg) && Inv(cfg, s) && s.core.lock.Free?
    requires c in s.callers && s.callers[c].Reread? && !s.callers[c].why.Direct?
    requires s.callers[c].id !in s.core.mem.entries
    ensures s.callers[c].marked < s.tally.deletes[Key(s.callers[c].why.req)]
  {
    hide Inv, Consistent;
    InvConsistent(cfg, s);
    CallerOK(cfg, s, c);
    ReReadResult(cfg, s, c);
  }

  lemma GapReRead(cfg: Config, s: Sys, c: nat) returns (actions: seq<Action>, t: Sys)
    requires s.core.lock.Free? && c in s.callers && s.callers[c].Reread? && !s.callers[c].why.Direct?
    requires s.callers[c].id !in s.core.mem.entries
    requires s.callers[c].marked < s.tally.deletes[Key(s.callers[c].why.req)]
    ensures LeadsTo(cfg, s, actions, t)
    ensures c in t.callers && t.callers[c] == Returned(s.callers[c].why.req, Ok(ZERO_ENTRY), true)
    ensures s.callers[c].why.Lead? ==>
          forall d :: d in s.callers && SharesFlight(s.callers[d], Key(s.callers[c].why.req)) ==>
            d in t.callers && t.callers[d] == Returned(s.callers[d].req, Ok(ZERO_ENTRY), true)
  {
    hide LeadsTo, KeyFor;
    var req := s.callers[c].why.req;
    if s.callers[c].why.Fast? {
      t := Move(s, c, Returned(req, Ok(ZERO_ENTRY), true));
      Done(cfg, t);
      Then(cfg, s, ReRead(c), t, [], t);
      actions := [ReRead(c)] + [];
    } else {
      var m := Move(s, c, Finish(req, Ok(ZERO_ENTRY), true));
      t := m.(flights := m.flights - {Key(req)},
              callers := map d | d in m.callers :: Landed(m.callers[d], Key(req), Ok(ZERO_ENTRY), true));
      Done(cfg, t);
      Then(cfg, m, LandFlight(c), t, [], t);
      Then(cfg, s, ReRead(c), m, [LandFlight(c)] + [], t);
      actions := [ReRead(c)] + ([LandFlight(c)] + []);
    }
  }

  // ---------- The gap is reached ----------

  lemma {:induction false} InvAlong(cfg: Config, s: Sys, actions: seq<Action>, t: Sys)
    requires ValidConfig(cfg) && Inv(cfg, s) && LeadsTo(cfg, s, actions, t)
    ensures Inv(cfg, t)
    decreases |actions|
  {
    hide Inv, Step;
    if actions != [] {
      var m :| Step(cfg, s, actions[0], m) && LeadsTo(cfg, m, actions[1..], t);
      StepKeeps(cfg, s, actions[0], m);
      InvAlong(cfg, m, actions[1..], t);
    }
  }

  /** A new Fetch of an indexed model, up to its mark. */
  lemma FetchBegins(cfg: Config, s: Sys, c: nat, req: Request) returns (actions: seq<Action>, t: Sys)
    requires s.core.lock.Free? && c !in s.callers && Validate(cfg, req).None? && ReqOK(cfg, req)
    requires Find(s.core.mem, Key(req)) == Some(cfg.hash(Key(req)))
    ensures LeadsTo(cfg, s, actions, t)
    ensures var id := cfg.hash(Key(req));
            && t.core == TakeMark(s.core, c, id, s.now) && t.tally == s.tally
            && t.callers == s.callers[c := Marking(Fast(req), id)]
  {
    hide LeadsTo, Find, KeyFor;
    var id := cfg.hash(Key(req));
    assert id in s.core.mem.entries by { FoundIn(s.core.mem, Key(req)); }
    var s1 := Move(s, c, Lookup(req));
    var s2 := Move(s1, c, WantMark(Fast(req), id));
    t := Move(s2.(core := TakeMark(s.core, c, id, s.now)), c, Marking(Fast(req), id));
    assert t.callers == s.callers[c := Marking(Fast(req), id)];
    Done(cfg, t);
    Then(cfg, s2, BeginMark(c), t, [], t);
    Then(cfg, s1, LookUp(c), s2, [BeginMark(c)] + [], t);
    Then(cfg, s, Arrive(c, req), s1, [LookUp(c)] + ([BeginMark(c)] + []), t);
    actions := [Arrive(c, req)] + ([LookUp(c)] + ([BeginMark(c)] + []));
  }

  lemma FoundIn(m: Maps, key: string)
    ensures Find(m, key).Some? ==> Find(m, key).value in m.entries
  {
  }

  /** Its mark, saved and released. */
  lemma MarkCompletes(cfg: Config, s: Sys, c: nat, req: Request, id: string) returns (actions: seq<Action>, t: Sys)
    requires s.core.lock.Held? && s.core.lock.owner == c && s.core.lock.phase.Creating?
    requires c in s.callers && s.callers[c] == Marking(Fast(req), id)
    requires forall i :: i in s.core.mem.entries ==> s.core.mem.entries[i].id == i
    ensures LeadsTo(cfg, s, actions, t)
    ensures t.core.lock.Free? && t.core.mem == s.core.mem && c in t.callers
            && t.callers[c] == Reread(Fast(req), id, s.tally.deletes[Key(req)], s.tally.stagings[Key(req)])
  {
    hide LeadsTo;
    var saves, saved := SaveSucceeds(cfg, s);
    var reread := Reread(Fast(req), id, Deletes(saved, Fast(req)), Stagings(saved, Fast(req)));
    t := Move(saved.(core := Release(saved.core)), c, reread);
    Done(cfg, t);
    Then(cfg, saved, EndMark(c), t, [], t);
    Joined(cfg, s, saves, saved, [EndMark(c)] + [], t);
    actions := saves + ([EndMark(c)] + []);
  }

  lemma TouchedIDs(cfg: Config, m: Maps, id: string, now: int)
    requires Consistent(cfg, m) && id in m.entries
    ensures var t := Touch(m, id, now).entries; id in t && forall i :: i in t ==> t[i].id == i
  {
  }

  /** Whenever the lock is free, a new Fetch of an indexed model can end, without error, with the zero
      Entry: it marks the entry, a Delete runs, it re-reads. */
  lemma ZeroEntryReachable(cfg: Config, s: Sys, c: nat, req: Request) returns (actions: seq<Action>, t: Sys)
    requires ValidConfig(cfg) && Inv(cfg, s) && s.core.lock.Free? && c !in s.callers
    requires Validate(cfg, req).None? && ReqOK(cfg, req) && Key(req) in s.core.mem.byKey
    ensures LeadsTo(cfg, s, actions, t)
    ensures c in t.callers && t.callers[c] == Returned(req, Ok(ZERO_ENTRY), true)
  {
    CoreConsistent(cfg, s);
    FindHit(cfg, s.core.mem, Key(req));
    FoundIn(s.core.mem, Key(req));
    var id := cfg.hash(Key(req));
    TouchedIDs(cfg, s.core.mem, id, s.now);
    hide Inv, LeadsTo, Consistent, Find, ValidConfig, KeyFor;
    var begin, marking := FetchBegins(cfg, s, c, req);
    var mark, gap := MarkCompletes(cfg, marking, c, req, id);
    Joined(cfg, s, begin, marking, mark, gap);
    InvAlong(cfg, s, begin + mark, gap);
    var rest;
    rest, t := GapDeleteLosesEntry(cfg, gap, c);
    Joined(cfg, s, begin + mark, gap, rest, t);
    actions := begin + mark + rest;
  }

  // ---------- From an empty root on ----------

  lemma EmptyRoot(cfg: Config, now: int) returns (s: Sys)
    ensures Init(cfg, s) && s.core == Core(EMPTY_MAPS, map[], Free) && s.callers == map[] && s.flights == map[]
  {
    s := Sys(Core(EMPTY_MAPS, map[], Free), map[], map[], now, FreshTally(EMPTY_MAPS), {});
    assert Reload(map[]) == EMPTY_MAPS;
  }

  /** A new Fetch of a model that is not indexed takes the lead of its flight. */
  lemma FetchLeads(cfg: Config, s: Sys, c: nat, req: Request) returns (actions: seq<Action>, t: Sys)
    requires s.core.lock.Free? && c !in s.callers && Validate(cfg, req).None? && ReqOK(cfg, req)
    requires Find(s.core.mem, Key(req)) == None && Key(req) !in s.flights
    ensures LeadsTo(cfg, s, actions, t)
    ensures t.core == s.core && t.callers == s.callers[c := MakeDir(req)] && t.now == s.now
  {
    hide LeadsTo, Find, KeyFor;
    var s1 := Move(s, c, Lookup(req));
    var s2 := Move(s1, c, Join(req));
    var s3 := Move(s2.(flights := s2.flights[Key(req) := c]), c, Recheck(req));
    t := Move(s3, c, MakeDir(req));
    Done(cfg, t);
    Then(cfg, s3, ReCheck(c), t, [], t);
    Then(cfg, s2, JoinFlight(c), s3, [ReCheck(c)] + [], t);
    Then(cfg, s1, LookUp(c), s2, [JoinFlight(c)] + ([ReCheck(c)] + []), t);
    Then(cfg, s, Arrive(c, req), s1, [LookUp(c)] + ([JoinFlight(c)] + ([ReCheck(c)] + [])), t);
    actions := [Arrive(c, req)] + ([LookUp(c)] + ([JoinFlight(c)] + ([ReCheck(c)] + [])));
  }

  lemma NothingMeasured()
    ensures Measured(map[], 0, [])
  {
  }

  function EmptyEntry(cfg: Config, req: Request, now: int): Entry {
    Entry(cfg.hash(Key(req)), req.source, req.modelID, DestOf(cfg, req), 0, SortBy(Same, []), now, now)
  }

  /** Its fetcher runs, here leaving an empty directory, and the directory is measured. */
  lemma FetcherRuns(cfg: Config, s: Sys, c: nat, req: Request) returns (actions: seq<Action>, t: Sys)
    requires c in s.callers && s.callers[c] == MakeDir(req) && req.dest.None?
    ensures LeadsTo(cfg, s, actions, t)
    ensures t.core == s.core.(disk := s.core.disk[cfg.hash(Key(req)) := ModelDir(map[])])
            && t.callers == s.callers[c := Fetching(req)] && t.now == s.now
  {
    hide LeadsTo, KeyFor;
    var id := cfg.hash(Key(req));
    var begun := s.(tally := s.tally.(starts := s.tally.starts + multiset{Key(req)}));
    var s1 := Move(if id in s.core.disk then begun else WithDir(begun, id, Some(map[])), c, Fetching(req));
    t := WithDir(s1, id, Some(map[]));
    Done(cfg, t);
    Then(cfg, s1, FetcherWrites(c, map[]), t, [], t);
    Then(cfg, s, MakeDirectory(c, false), s1, [FetcherWrites(c, map[])] + [], t);
    actions := [MakeDirectory(c, false)] + ([FetcherWrites(c, map[])] + []);
  }

  lemma FetcherEnds(cfg: Config, s: Sys, c: nat, req: Request) returns (actions: seq<Action>, t: Sys)
    requires c in s.callers && s.callers[c] == Fetching(req) && req.dest.None?
    requires var id := cfg.hash(Key(req)); id in s.core.disk && s.core.disk[id] == ModelDir(map[])
    ensures LeadsTo(cfg, s, actions, t)
    ensures t.core == s.core && t.callers == s.callers[c := WantStage(req, EmptyEntry(cfg, req, s.now))]
  {
    hide LeadsTo, Measured, SortBy, KeyFor;
    NothingMeasured();
    var s1 := Move(s, c, Measuring(req, []));
    t := Move(s1, c, WantStage(req, EmptyEntry(cfg, req, s.now)));
    assert t.callers == s.callers[c := WantStage(req, EmptyEntry(cfg, req, s.now))];
    Done(cfg, t);
    Then(cfg, s1, MeasureDir(c, false, 0, []), t, [], t);
    Then(cfg, s, FetcherReturns(c, []), s1, [MeasureDir(c, false, 0, [])] + [], t);
    actions := [FetcherReturns(c, [])] + ([MeasureDir(c, false, 0, [])] + []);
  }

  /** The entry is inserted and saved. */
  lemma StageCompletes(cfg: Config, s: Sys, c: nat, req: Request, e: Entry) returns (actions: seq<Action>, t: Sys)
    requires s.core.lock.Free? && c in s.callers && s.callers[c] == WantStage(req, e)
    requires forall i :: i in s.core.mem.entries ==> s.core.mem.entries[i].id == i
    ensures LeadsTo(cfg, s, actions, t)
    ensures t.core.lock.Free? && t.core.mem == WithEntry(s.core.mem, e)
          && t.callers == s.callers[c := Finish(req, Ok(e), false)]
  {
    hide LeadsTo;
    var staging := Move(s.(core := TakeStage(s.core, c, e)), c, Staging(req, e));
    var saves, saved := SaveSucceeds(cfg, staging);
    var released := saved.(core := Release(saved.core));
    t := Move(released.(tally := released.tally.(stagings := released.tally.stagings + multiset{Key(req)})), c,
          Finish(req, Ok(e), false));
    Done(cfg, t);
    Then(cfg, saved, EndStage(c), t, [], t);
    Joined(cfg, staging, saves, saved, [EndStage(c)] + [], t);
    Then(cfg, s, BeginStage(c), staging, saves + ([EndStage(c)] + []), t);
    actions := [BeginStage(c)] + (saves + ([EndStage(c)] + []));
  }

  /** A first Fetch can stage its model. */
  lemma FirstFetchStages(cfg: Config, s: Sys, c: nat, req: Request) returns (actions: seq<Action>, t: Sys)
    requires s.core == Core(EMPTY_MAPS, map[], Free) && s.callers == map[] && s.flights == map[]
    requires Validate(cfg, req).None? && ReqOK(cfg, req) && req.dest.None?
    ensures LeadsTo(cfg, s, actions, t)
    ensures t.core.lock.Free? && Key(req) in t.core.mem.byKey && t.callers.Keys == {c}
  {
    hide LeadsTo, KeyFor, ReqOK, SortBy;
    var lead, leading := FetchLeads(cfg, s, c, req);
    var fetch, fetching := FetcherRuns(cfg, leading, c, req);
    var end, fetched := FetcherEnds(cfg, fetching, c, req);
    var stage, staged := StageCompletes(cfg, fetched, c, req, EmptyEntry(cfg, req, fetching.now));
    Joined(cfg, s, lead, leading, fetch, fetching);
    Joined(cfg, s, lead + fetch, fetching, end, fetched);
    Joined(cfg, s, lead + fetch + end, fetched, stage, staged);
    actions, t := lead + fetch + end + stage, staged;
  }

  /** So on an empty root a first Fetch can stage its model and a second one can still come back, without
      error, with the zero Entry. */
  lemma ZeroEntryFromEmptyRoot(cfg: Config, req: Request, now: int) returns (s: Sys, actions: seq<Action>, t: Sys)
    requires ValidConfig(cfg) && Validate(cfg, req).None? && ReqOK(cfg, req) && req.dest.None?
    ensures Init(cfg, s) && s.core.mem == EMPTY_MAPS
    ensures LeadsTo(cfg, s, actions, t)
    ensures 1 in t.callers && t.callers[1] == Returned(req, Ok(ZERO_ENTRY), true)
  {
    hide Inv, Init, LeadsTo, ValidConfig, KeyFor, ReqOK, Step, Validate;
    s := EmptyRoot(cfg, now);
    InitHolds(cfg, s);
    var first, staged := FirstFetchStages(cfg, s, 0, req);
    InvAlong(cfg, s, first, staged);
    var rest;
    rest, t := ZeroEntryReachable(cfg, staged, 1, req);
    Joined(cfg, s, first, staged, rest, t);
    actions := first + rest;
  }
}
