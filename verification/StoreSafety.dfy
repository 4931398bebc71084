/** What every step of the store system keeps. */
module StoreSafety {
  import opened Wrappers
  import opened Index
  import opened Files
  import opened StoreCore
  import opened StoreSystem

  // ---------- Reading a caller's place ----------

  function WhyKey(why: Purpose): Option<string> {
    if why.Lead? then Some(Key(why.req)) else None
  }

  /** The key whose flight the caller leads. */
  function LeaderOf(pc: Pc): Option<string> {
    match pc
    case Recheck(req) => Some(Key(req))
    case WantMark(why, _) => WhyKey(why)
    case Marking(why, _) => WhyKey(why)
    case Reread(why, _, _, _) => WhyKey(why)
    case MakeDir(req) => Some(Key(req))
    case Fetching(req) => Some(Key(req))
    case Measuring(req, _) => Some(Key(req))
    case WantStage(req, _) => Some(Key(req))
    case Staging(req, _) => Some(Key(req))
    case Finish(req, _, _) => Some(Key(req))
    case _ => None
  }

  function Leads(s: Sys, c: nat): Option<string> {
    if c in s.callers then LeaderOf(s.callers[c]) else None
  }

  /** A leader past its double-check that has not inserted yet. */
  predicate PastCheck(pc: Pc) {
    pc.MakeDir? || pc.Fetching? || pc.Measuring? || pc.WantStage?
  }

  /** The fetcher has been invoked and doFetch has not finished. */
  predicate Running(pc: Pc) {
    pc.Fetching? || pc.Measuring? || pc.WantStage? || pc.Staging?
  }

  predicate Holding(pc: Pc) {
    pc.Marking? || pc.Staging? || pc.Deleting?
  }

  predicate TaskFits(pc: Pc, task: Task) {
    match pc
    case Marking(_, id) => task == Mark(id)
    case Staging(_, e) => task == Stage(e)
    case Deleting(id) => task.Remove? && task.gone.id == id
    case _ => false
  }

  /** The maps as of the last time the lock was free. */
  function Settled(core: Core): Maps {
    if core.lock.Held? then core.lock.before else core.mem
  }

  predicate Known(core: Core, key: string) {
    key in core.mem.byKey || key in Settled(core).byKey
  }

  // ---------- What holds of each caller ----------

  ghost predicate ReqOK(cfg: Config, req: Request) {
    req.source in cfg.sources && Key(req) in cfg.keys && (req.dest.Some? ==> Disjoint(cfg.root, req.dest.value))
  }

  /** The entry is for the model the request names. */
  predicate EntryFor(cfg: Config, req: Request, e: Entry) {
    e.source == req.source && e.modelID == req.modelID && e.id == cfg.hash(Key(req))
  }

  predicate IsDefault(cfg: Config, e: Entry) {
    e.path == cfg.root + [e.id]
  }

  /** An entry in the store's own directory has that directory on disk, of the recorded size. */
  ghost predicate DirFits(cfg: Config, d: Disk, e: Entry) {
    IsDefault(cfg, e) ==> e.id in d && d[e.id].ModelDir? && MeasureOf(d[e.id].tree).size == e.sizeBytes
  }

  ghost predicate Fresh(cfg: Config, d: Disk, now: int, req: Request, e: Entry) {
    EntryOK(cfg, e) && EntryFor(cfg, req, e) && e.lastUsedAt <= now && DirFits(cfg, d, e)
  }

  /** A good result is the requested model's entry, or the zero Entry after a Delete in the gap. */
  predicate OutOK(cfg: Config, req: Request, out: Outcome, lost: bool) {
    out.Ok? ==> EntryFor(cfg, req, out.value) || (out.value == ZERO_ENTRY && lost)
  }

  ghost predicate WhyOK(cfg: Config, why: Purpose, id: string) {
    !why.Direct? ==> ReqOK(cfg, why.req) && id == cfg.hash(Key(why.req))
  }

  ghost predicate RereadOK(core: Core, deletes: multiset<string>, key: string, marked: nat) {
    marked <= deletes[key] && (marked == deletes[key] ==> key in Settled(core).byKey)
  }

  ghost predicate PcOK(cfg: Config, core: Core, deletes: multiset<string>, now: int, pc: Pc) {
    match pc
    case Lookup(req) => ReqOK(cfg, req)
    case Join(req) => ReqOK(cfg, req)
    case Follow(req) => ReqOK(cfg, req)
    case Recheck(req) => ReqOK(cfg, req)
    case WantMark(why, id) => WhyOK(cfg, why, id)
    case Marking(why, id) => WhyOK(cfg, why, id)
    case Reread(why, id, marked, _) =>
      !why.Direct? && WhyOK(cfg, why, id) && RereadOK(core, deletes, Key(why.req), marked)
    case MakeDir(req) => ReqOK(cfg, req) && !Known(core, Key(req))
    case Fetching(req) => ReqOK(cfg, req) && !Known(core, Key(req))
    case Measuring(req, _) => ReqOK(cfg, req) && !Known(core, Key(req))
    case WantStage(req, e) => ReqOK(cfg, req) && !Known(core, Key(req)) && Fresh(cfg, core.disk, now, req, e)
    case Staging(req, e) => ReqOK(cfg, req) && EntryFor(cfg, req, e)
    case Finish(req, out, lost) => ReqOK(cfg, req) && OutOK(cfg, req, out, lost)
    case Returned(req, out, lost) => OutOK(cfg, req, out, lost)
    case _ => true
  }

  // ---------- The invariant ----------

  ghost predicate LockInv(s: Sys) {
    && (s.core.lock.Held? ==>
          && s.core.lock.owner in s.callers
          && TaskFits(s.callers[s.core.lock.owner], s.core.lock.task))
    && (forall c :: c in s.callers && Holding(s.callers[c]) ==> s.core.lock.Held? && s.core.lock.owner == c)
  }

  /** Singleflight: one leader per key in flight, and followers only of a flight that exists. */
  ghost predicate FlightInv(s: Sys) {
    && (forall k :: k in s.flights ==> Leads(s, s.flights[k]) == Some(k))
    && (forall c :: c in s.callers && Leads(s, c).Some? ==>
          Leads(s, c).value in s.flights && s.flights[Leads(s, c).value] == c)
    && (forall c :: c in s.callers && s.callers[c].Follow? ==> Key(s.callers[c].req) in s.flights)
  }

  ghost predicate CallersInv(cfg: Config, s: Sys) {
    forall c :: c in s.callers ==> PcOK(cfg, s.core, s.tally.deletes, s.now, s.callers[c])
  }

  function One(b: bool): nat { if b then 1 else 0 }

  predicate IsRunning(s: Sys, k: string) {
    k in s.flights && s.flights[k] in s.callers && Running(s.callers[s.flights[k]])
  }

  /** Stagings and Deletes account for what is indexed; fetcher starts for what they led to. */
  ghost predicate TallyInv(s: Sys) {
    && (forall k ::
          s.tally.stagings[k] + One(k in s.tally.baseline) == s.tally.deletes[k] + One(k in Settled(s.core).byKey))
    && (forall k :: s.tally.starts[k] <= s.tally.stagings[k] + s.tally.failures[k] + One(IsRunning(s, k)))
  }

  ghost predicate DirsFit(cfg: Config, d: Disk, damaged: set<string>, m: Maps) {
    forall id :: id in m.entries && id !in damaged ==> DirFits(cfg, d, m.entries[id])
  }

  ghost predicate DirInv(cfg: Config, s: Sys) {
    && DirsFit(cfg, s.core.disk, s.damaged, s.core.mem)
    && DirsFit(cfg, s.core.disk, s.damaged, Settled(s.core))
    && (s.core.lock.Held? && s.core.lock.task.Remove? && !s.core.lock.phase.Removing?
          && IsDefault(cfg, s.core.lock.task.gone)
        ==> s.core.lock.task.gone.id in s.damaged)
    && (s.core.lock.Held? && s.core.lock.task.Remove? && s.core.lock.phase.Removing? ==>
          IsDefault(cfg, s.core.lock.task.gone))
  }

  ghost predicate Inv(cfg: Config, s: Sys) {
    && CoreInv(cfg, s.core, s.now)
    && LockInv(s)
    && FlightInv(s)
    && CallersInv(cfg, s)
    && TallyInv(s)
    && DirInv(cfg, s)
  }

  // ---------- What the other callers need of a step ----------

  /** The step leaves `pc`, which is not the stepping caller, as true as it was. */
  ghost predicate StableFor(cfg: Config, s: Sys, s': Sys, pc: Pc) {
    && s.now <= s'.now
    && (PastCheck(pc) ==> (Known(s'.core, Key(pc.req)) ==> Known(s.core, Key(pc.req))))
    && (pc.WantStage? ==> (DirFits(cfg, s.core.disk, pc.entry) ==> DirFits(cfg, s'.core.disk, pc.entry)))
    && (pc.Reread? && !pc.why.Direct? ==>
          var k := Key(pc.why.req);
          && s.tally.deletes[k] <= s'.tally.deletes[k]
          && (s.tally.deletes[k] == s'.tally.deletes[k] && k in Settled(s.core).byKey ==> k in Settled(s'.core).byKey))
  }

  lemma StableKeeps(cfg: Config, s: Sys, s': Sys, pc: Pc)
    requires PcOK(cfg, s.core, s.tally.deletes, s.now, pc) && StableFor(cfg, s, s', pc)
    ensures PcOK(cfg, s'.core, s'.tally.deletes, s'.now, pc)
  {
  }

  /** Two different callers never lead the same key. */
  lemma OneLeader(s: Sys, c: nat, d: nat)
    requires FlightInv(s) && Leads(s, c).Some? && Leads(s, c) == Leads(s, d)
    ensures c == d
  {
  }

  lemma HashApart(cfg: Config, k1: string, k2: string)
    requires ValidConfig(cfg) && k1 in cfg.keys && k2 in cfg.keys && k1 != k2
    ensures cfg.hash(k1) != cfg.hash(k2)
  {
  }

  lemma HexIsPlain(cfg: Config, k: string)
    requires ValidConfig(cfg)
    ensures cfg.hash(k) != INDEX_NAME && !IsTempName(cfg.hash(k))
  {
    assert IsHexID(cfg.hash(k));
    assert |INDEX_NAME| == 10 && TEMP_PREFIX[0] == '.';
  }

  // ---------- Steps that leave the maps, the lock and the flights alone ----------

  /** At most one directory changes, and the stepping caller owns its id by leading past the check. */
  ghost predicate OwnDirOnly(cfg: Config, s: Sys, c: nat, d: Disk) {
    d == s.core.disk ||
    (c in s.callers && PastCheck(s.callers[c])
     && var id := cfg.hash(Key(s.callers[c].req));
        (forall n :: n != id ==> (n in d <==> n in s.core.disk) && (n in d ==> d[n] == s.core.disk[n]))
        && (id in d ==> d[id].ModelDir?))
  }

  ghost predicate QuietMove(cfg: Config, s: Sys, c: nat, pc: Pc, s': Sys) {
    && s' == s.(core := s.core.(disk := s'.core.disk), callers := s.callers[c := pc], tally := s'.tally)
    && s'.tally.deletes == s.tally.deletes
    && OwnDirOnly(cfg, s, c, s'.core.disk)
    && !Holding(pc) && (c in s.callers ==> !Holding(s.callers[c]))
    && LeaderOf(pc) == Leads(s, c)
    && (pc.Follow? ==> Key(pc.req) in s.flights)
  }

  lemma QuietDir(cfg: Config, s: Sys, c: nat, d: Disk, e: Entry)
    requires ValidConfig(cfg) && CallersInv(cfg, s) && OwnDirOnly(cfg, s, c, d) && EntryOK(cfg, e)
    requires DirFits(cfg, s.core.disk, e)
    requires c in s.callers && PastCheck(s.callers[c]) ==> Key(s.callers[c].req) != KeyOf(e)
    ensures DirFits(cfg, d, e)
  {
    if d != s.core.disk {
      assert PcOK(cfg, s.core, s.tally.deletes, s.now, s.callers[c]);
      HashApart(cfg, Key(s.callers[c].req), KeyOf(e));
    }
  }

  /** The key of a leader past its double-check is not that of any indexed entry. */
  lemma PastCheckApart(cfg: Config, s: Sys, c: nat, m: Maps, id: string)
    requires CallersInv(cfg, s) && c in s.callers && PastCheck(s.callers[c])
    requires (m == s.core.mem || m == Settled(s.core)) && Consistent(cfg, m) && id in m.entries
    ensures Key(s.callers[c].req) != KeyOf(m.entries[id])
  {
    assert PcOK(cfg, s.core, s.tally.deletes, s.now, s.callers[c]);
    assert KeyOf(m.entries[id]) in m.byKey;
  }

  lemma QuietDirs(cfg: Config, s: Sys, c: nat, d: Disk, m: Maps)
    requires ValidConfig(cfg) && CallersInv(cfg, s) && OwnDirOnly(cfg, s, c, d)
    requires (m == s.core.mem || m == Settled(s.core)) && Consistent(cfg, m) && DirsFit(cfg, s.core.disk, s.damaged, m)
    ensures DirsFit(cfg, d, s.damaged, m)
  {
    forall id | id in m.entries && id !in s.damaged ensures DirFits(cfg, d, m.entries[id]) {
      if c in s.callers && PastCheck(s.callers[c]) { PastCheckApart(cfg, s, c, m, id); }
      QuietDir(cfg, s, c, d, m.entries[id]);
    }
  }

  lemma QuietCore(cfg: Config, s: Sys, c: nat, d: Disk)
    requires ValidConfig(cfg) && CoreInv(cfg, s.core, s.now) && OwnDirOnly(cfg, s, c, d)
    ensures CoreInv(cfg, s.core.(disk := d), s.now)
  {
    if d != s.core.disk {
      HexIsPlain(cfg, Key(s.callers[c].req));
      OtherFilesKeep(cfg, s.core, d, s.now);
    }
  }

  lemma QuietOther(cfg: Config, s: Sys, c: nat, pc: Pc, s': Sys, d: nat)
    requires ValidConfig(cfg) && CallersInv(cfg, s) && FlightInv(s) && QuietMove(cfg, s, c, pc, s')
    requires d in s.callers && d != c
    ensures PcOK(cfg, s'.core, s'.tally.deletes, s'.now, s.callers[d])
  {
    assert PcOK(cfg, s.core, s.tally.deletes, s.now, s.callers[d]);
    if s.callers[d].WantStage? { QuietWantStage(cfg, s, c, s'.core.disk, d); }
    StableKeeps(cfg, s, s', s.callers[d]);
  }

  /** The directory another leader has measured stays as measured. */
  lemma QuietWantStage(cfg: Config, s: Sys, c: nat, disk: Disk, d: nat)
    requires ValidConfig(cfg) && CallersInv(cfg, s) && FlightInv(s) && OwnDirOnly(cfg, s, c, disk)
    requires d in s.callers && d != c && s.callers[d].WantStage?
    ensures DirFits(cfg, disk, s.callers[d].entry)
  {
    assert PcOK(cfg, s.core, s.tally.deletes, s.now, s.callers[d]);
    if c in s.callers && PastCheck(s.callers[c]) && Key(s.callers[c].req) == Key(s.callers[d].req) {
      OneLeader(s, c, d);
    }
    QuietDir(cfg, s, c, disk, s.callers[d].entry);
  }

  lemma QuietOthers(cfg: Config, s: Sys, c: nat, pc: Pc, s': Sys)
    requires ValidConfig(cfg) && CallersInv(cfg, s) && FlightInv(s) && QuietMove(cfg, s, c, pc, s')
    requires PcOK(cfg, s'.core, s'.tally.deletes, s'.now, pc)
    ensures CallersInv(cfg, s')
  {
    forall d | d in s'.callers ensures PcOK(cfg, s'.core, s'.tally.deletes, s'.now, s'.callers[d]) {
      if d != c { QuietOther(cfg, s, c, pc, s', d); }
    }
  }

  lemma QuietFlights(cfg: Config, s: Sys, c: nat, pc: Pc, s': Sys)
    requires FlightInv(s) && LockInv(s) && QuietMove(cfg, s, c, pc, s')
    ensures FlightInv(s') && LockInv(s')
  {
    assert forall d :: Leads(s', d) == Leads(s, d);
  }

  lemma QuietKeeps(cfg: Config, s: Sys, c: nat, pc: Pc, s': Sys)
    requires ValidConfig(cfg) && Inv(cfg, s) && QuietMove(cfg, s, c, pc, s')
    requires PcOK(cfg, s'.core, s'.tally.deletes, s'.now, pc) && TallyInv(s')
    ensures Inv(cfg, s')
  {
    QuietCore(cfg, s, c, s'.core.disk);
    QuietDirs(cfg, s, c, s'.core.disk, s.core.mem);
    QuietDirs(cfg, s, c, s'.core.disk, Settled(s.core));
    QuietOthers(cfg, s, c, pc, s');
    QuietFlights(cfg, s, c, pc, s');
  }

  /** With the tally untouched only the stepping caller's own part can matter to it. */
  lemma QuietTally(cfg: Config, s: Sys, c: nat, pc: Pc, s': Sys)
    requires FlightInv(s) && TallyInv(s) && QuietMove(cfg, s, c, pc, s') && s'.tally == s.tally
    requires c in s.callers && Running(s.callers[c]) ==> Running(pc)
    ensures TallyInv(s')
  {
    forall k ensures One(IsRunning(s, k)) <= One(IsRunning(s', k)) {
    }
  }

  lemma QuietTalliedKeeps(cfg: Config, s: Sys, c: nat, pc: Pc, s': Sys)
    requires ValidConfig(cfg) && Inv(cfg, s) && QuietMove(cfg, s, c, pc, s') && s'.tally == s.tally
    requires PcOK(cfg, s'.core, s'.tally.deletes, s'.now, pc)
    requires c in s.callers && Running(s.callers[c]) ==> Running(pc)
    ensures Inv(cfg, s')
  {
    QuietTally(cfg, s, c, pc, s');
    QuietKeeps(cfg, s, c, pc, s');
  }

  /** A move that changes nothing but the caller's own place. */
  ghost predicate PlainMove(cfg: Config, s: Sys, c: nat, pc: Pc) {
    && !Holding(pc) && (c in s.callers ==> !Holding(s.callers[c]))
    && LeaderOf(pc) == Leads(s, c)
    && (pc.Follow? ==> Key(pc.req) in s.flights)
    && (c in s.callers && Running(s.callers[c]) ==> Running(pc))
    && PcOK(cfg, s.core, s.tally.deletes, s.now, pc)
  }

  lemma PlainKeeps(cfg: Config, s: Sys, c: nat, pc: Pc)
    requires ValidConfig(cfg) && Inv(cfg, s) && PlainMove(cfg, s, c, pc)
    ensures Inv(cfg, Move(s, c, pc))
  {
    QuietTalliedKeeps(cfg, s, c, pc, Move(s, c, pc));
  }

  lemma CallerOK(cfg: Config, s: Sys, c: nat)
    requires Inv(cfg, s) && c in s.callers
    ensures PcOK(cfg, s.core, s.tally.deletes, s.now, s.callers[c]) && Consistent(cfg, s.core.mem)
  {
  }
}
