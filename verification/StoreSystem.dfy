/** The store under any number of concurrent callers: the lock-delimited steps of Fetch, doFetch,
    markUsed and Delete, singleflight by its contract, faulty file operations and crashes. */
module StoreSystem {
  import opened Text
  import opened Wrappers
  import opened Index
  import opened Files
  import opened StoreCore

  datatype Request = Request(source: string, modelID: string, dest: Option<Path>, mountSource: string)

  datatype Error =
    | SourceRequired | ModelRequired | UnknownSource | MountRequired
    | NotFound | SaveFailed | MkdirFailed | FetcherFailed | MeasureFailed | RemoveFailed

  type Outcome = Result<Entry, Error>

  function Key(req: Request): string { KeyFor(req.source, req.modelID) }

  function DestOf(cfg: Config, req: Request): Path {
    if req.dest.Some? then req.dest.value else cfg.root + [cfg.hash(Key(req))]
  }

  /** The checks at the head of `Fetch`, in order. */
  function Validate(cfg: Config, req: Request): Option<Error> {
    if req.source == "" then Some(SourceRequired)
    else if req.modelID == "" then Some(ModelRequired)
    else if req.source !in cfg.sources then Some(UnknownSource)
    else if req.source == "nfs" && req.mountSource == "" then Some(MountRequired)
    else None
  }

  /** What each refusal means, and what a request that passes looks like. */
  lemma ValidateMeans(cfg: Config, req: Request)
    ensures Validate(cfg, req) == Some(SourceRequired) <==> req.source == ""
    ensures Validate(cfg, req) == Some(ModelRequired) <==> req.source != "" && req.modelID == ""
    ensures Validate(cfg, req) == Some(UnknownSource) <==>
            req.source != "" && req.modelID != "" && req.source !in cfg.sources
    ensures Validate(cfg, req) == Some(MountRequired) <==>
            req.source == "nfs" && req.modelID != "" && "nfs" in cfg.sources && req.mountSource == ""
    ensures Validate(cfg, req) == None <==>
            req.source != "" && req.modelID != "" && req.source in cfg.sources
            && (req.source == "nfs" ==> req.mountSource != "")
  {
  }

  /** Why an id is being marked: the fast path of Fetch, a flight's leader, or MarkUsed itself. */
  datatype Purpose = Fast(req: Request) | Lead(req: Request) | Direct

  /** Where a caller stands. `lost` says that a Delete of the key completed between the caller's
      markUsed and its re-read; `marked` and `staged` are the numbers of Deletes and of stagings of the
      key when the mark was made. */
  datatype Pc =
    | Lookup(req: Request)
    | WantMark(why: Purpose, id: string)
    | Marking(why: Purpose, id: string)
    | Reread(why: Purpose, id: string, marked: nat, staged: nat)
    | Join(req: Request)
    | Follow(req: Request)
    | Recheck(req: Request)
    | MakeDir(req: Request)
    | Fetching(req: Request)
    | Measuring(req: Request, reported: seq<string>)
    | WantStage(req: Request, entry: Entry)
    | Staging(req: Request, entry: Entry)
    | Finish(req: Request, out: Outcome, lost: bool)
    | Returned(req: Request, out: Outcome, lost: bool)
    | WantDelete(id: string)
    | Deleting(id: string)
    | Ended(error: Option<Error>)

  /** Per-key counts since this process started, and the keys indexed when it did. */
  datatype Tally = Tally(
    starts: multiset<string>, stagings: multiset<string>, failures: multiset<string>,
    deletes: multiset<string>, baseline: set<string>)

  /** `flights` maps a key to the caller that leads its flight; `damaged` holds the ids whose Delete
      has begun to remove files without having completed. */
  datatype Sys = Sys(
    core: Core, flights: map<string, nat>, callers: map<nat, Pc>, now: int, tally: Tally, damaged: set<string>)

  datatype Action =
    | Arrive(c: nat, req: Request)
    | ArriveMark(c: nat, id: string)
    | ArriveDelete(c: nat, id: string)
    | LookUp(c: nat)
    | BeginMark(c: nat)
    | EndMark(c: nat)
    | ReRead(c: nat)
    | JoinFlight(c: nat)
    | ReCheck(c: nat)
    | MakeDirectory(c: nat, fault: bool)
    | FetcherWrites(c: nat, tree: Tree)
    | FetcherReturns(c: nat, reported: seq<string>)
    | FetcherFails(c: nat, remains: Option<Tree>)
    | MeasureDir(c: nat, fault: bool, size: int, discovered: seq<string>)
    | BeginStage(c: nat)
    | EndStage(c: nat)
    | LandFlight(c: nat)
    | BeginDelete(c: nat)
    | RemoveSome(tree: Tree)
    | RemoveAll
    | EndDelete(c: nat)
    | Save(fault: bool, left: bool, name: string, listing: seq<Entry>)
    | Tick(later: int)
    | Restart

  // ---------- Steps ----------

  function Move(s: Sys, c: nat, pc: Pc): Sys {
    s.(callers := s.callers[c := pc])
  }

  /** `lookupByKey`: the key must lead to an id and the id to an entry. */
  function Find(m: Maps, key: string): Option<string> {
    if key in m.byKey && m.byKey[key] in m.entries then Some(m.byKey[key]) else None
  }

  /** Where a markUsed that failed with `err` leads. */
  function MarkFailed(why: Purpose, err: Error): Pc {
    match why
    case Fast(req) => Returned(req, Err(err), false)
    case Lead(req) => Finish(req, Err(err), false)
    case Direct => Ended(Some(err))
  }

  function Deletes(s: Sys, why: Purpose): nat {
    if why.Direct? then 0 else s.tally.deletes[Key(why.req)]
  }

  function Stagings(s: Sys, why: Purpose): nat {
    if why.Direct? then 0 else s.tally.stagings[Key(why.req)]
  }

  /** The map read `s.entries[id]`: Go's zero Entry when the id is gone. */
  function ReadEntry(m: Maps, id: string): Entry {
    if id in m.entries then m.entries[id] else ZERO_ENTRY
  }

  function Landed(pc: Pc, key: string, out: Outcome, lost: bool): Pc {
    if (pc.Follow? || pc.Finish?) && Key(pc.req) == key then Returned(pc.req, out, lost) else pc
  }

  function WithDir(s: Sys, name: string, dir: Option<Tree>): Sys {
    s.(core := s.core.(disk := WithModelDir(s.core.disk, name, dir)))
  }

  function FailFetch(s: Sys, c: nat, req: Request, err: Error): Sys {
    Move(s.(tally := s.tally.(failures := s.tally.failures + multiset{Key(req)})), c, Finish(req, Err(err), false))
  }

  function FreshTally(m: Maps): Tally {
    Tally(multiset{}, multiset{}, multiset{}, multiset{}, m.byKey.Keys)
  }

  ghost predicate StepArrive(cfg: Config, s: Sys, c: nat, req: Request, s': Sys) {
    && c !in s.callers
    && (Validate(cfg, req).None? ==> Key(req) in cfg.keys && (req.dest.Some? ==> Disjoint(cfg.root, req.dest.value)))
    && s' == Move(s, c, match Validate(cfg, req)
                        case None => Lookup(req)
                        case Some(err) => Returned(req, Err(err), false))
  }

  ghost predicate StepLookUp(s: Sys, c: nat, s': Sys) {
    && c in s.callers && s.callers[c].Lookup? && s.core.lock.Free?
    && var req := s.callers[c].req;
       s' == Move(s, c, match Find(s.core.mem, Key(req))
                        case Some(id) => WantMark(Fast(req), id)
                        case None => Join(req))
  }

  ghost predicate StepBeginMark(s: Sys, c: nat, s': Sys) {
    && c in s.callers && s.callers[c].WantMark? && s.core.lock.Free?
    && var why, id := s.callers[c].why, s.callers[c].id;
       s' == if id in s.core.mem.entries
             then Move(s.(core := TakeMark(s.core, c, id, s.now)), c, Marking(why, id))
             else Move(s, c, MarkFailed(why, NotFound))
  }

  ghost predicate StepEndMark(s: Sys, c: nat, s': Sys) {
    && c in s.callers && s.callers[c].Marking? && s.core.lock.Held? && s.core.lock.owner == c
    && (s.core.lock.phase.Saved? || s.core.lock.phase.Unsaved?)
    && var why, id := s.callers[c].why, s.callers[c].id;
       s' == Move(s.(core := Release(s.core)), c,
                  if s.core.lock.phase.Unsaved? then MarkFailed(why, SaveFailed)
                  else if why.Direct? then Ended(None)
                  else Reread(why, id, Deletes(s, why), Stagings(s, why)))
  }

  ghost predicate StepReRead(s: Sys, c: nat, s': Sys) {
    && c in s.callers && s.callers[c].Reread? && s.core.lock.Free?
    && var why, e, lost := s.callers[c].why, ReadEntry(s.core.mem, s.callers[c].id),
          s.callers[c].marked < Deletes(s, s.callers[c].why);
       s' == Move(s, c, match why case Fast(req) => Returned(req, Ok(e), lost)
                                case Lead(req) => Finish(req, Ok(e), lost)
                                case Direct => Ended(None))
  }

  ghost predicate StepJoin(s: Sys, c: nat, s': Sys) {
    && c in s.callers && s.callers[c].Join?
    && var req := s.callers[c].req;
       s' == if Key(req) in s.flights then Move(s, c, Follow(req))
             else Move(s.(flights := s.flights[Key(req) := c]), c, Recheck(req))
  }

  ghost predicate StepReCheck(s: Sys, c: nat, s': Sys) {
    && c in s.callers && s.callers[c].Recheck? && s.core.lock.Free?
    && var req := s.callers[c].req;
       s' == Move(s, c, match Find(s.core.mem, Key(req))
                        case Some(id) => WantMark(Lead(req), id)
                        case None => MakeDir(req))
  }

  /** MkdirAll of the destination, then the fetcher starts. */
  ghost predicate StepMakeDirectory(cfg: Config, s: Sys, c: nat, fault: bool, s': Sys) {
    && c in s.callers && s.callers[c].MakeDir?
    && var req := s.callers[c].req; var id := cfg.hash(Key(req));
       s' == if fault then FailFetch(s, c, req, MkdirFailed)
             else
               var t := s.(tally := s.tally.(starts := s.tally.starts + multiset{Key(req)}));
               Move(if req.dest.Some? || id in s.core.disk then t else WithDir(t, id, Some(map[])), c, Fetching(req))
  }

  ghost predicate StepFetcherWrites(cfg: Config, s: Sys, c: nat, tree: Tree, s': Sys) {
    && c in s.callers && s.callers[c].Fetching? && s.callers[c].req.dest.None?
    && s' == WithDir(s, cfg.hash(Key(s.callers[c].req)), Some(tree))
  }

  ghost predicate StepFetcherReturns(s: Sys, c: nat, reported: seq<string>, s': Sys) {
    && c in s.callers && s.callers[c].Fetching?
    && s' == Move(s, c, Measuring(s.callers[c].req, reported))
  }

  /** A failed fetch cleans up its own directory; the clean-up itself may stop anywhere. */
  ghost predicate StepFetcherFails(cfg: Config, s: Sys, c: nat, left: Option<Tree>, s': Sys) {
    && c in s.callers && s.callers[c].Fetching?
    && var req := s.callers[c].req;
       s' == FailFetch(if req.dest.Some? then s else WithDir(s, cfg.hash(Key(req)), left), c, req, FetcherFailed)
  }

  ghost predicate StepMeasureDir(cfg: Config, s: Sys, c: nat, fault: bool, size: int, discovered: seq<string>,
        s': Sys) {
    && c in s.callers && s.callers[c].Measuring?
    && var req, reported := s.callers[c].req, s.callers[c].reported; var id := cfg.hash(Key(req));
       if fault then s' == FailFetch(s, c, req, MeasureFailed)
       else
         && (req.dest.None? ==>
               id in s.core.disk && s.core.disk[id].ModelDir? && Measured(s.core.disk[id].tree, size, discovered))
         && s' == Move(s, c, WantStage(req, Entry(id, req.source, req.modelID, DestOf(cfg, req), size,
                       SortBy(Same, if reported == [] then discovered else reported), s.now, s.now)))
  }

  ghost predicate StepBeginStage(s: Sys, c: nat, s': Sys) {
    && c in s.callers && s.callers[c].WantStage? && s.core.lock.Free?
    && s' == Move(s.(core := TakeStage(s.core, c, s.callers[c].entry)), c,
          Staging(s.callers[c].req, s.callers[c].entry))
  }

  ghost predicate StepEndStage(s: Sys, c: nat, s': Sys) {
    && c in s.callers && s.callers[c].Staging? && s.core.lock.Held? && s.core.lock.owner == c
    && (s.core.lock.phase.Saved? || s.core.lock.phase.Unsaved?)
    && var req, e := s.callers[c].req, s.callers[c].entry; var t := s.(core := Release(s.core));
       s' == if s.core.lock.phase.Saved?
             then Move(t.(tally := t.tally.(stagings := t.tally.stagings + multiset{Key(req)})), c,
                   Finish(req, Ok(e), false))
             else FailFetch(t, c, req, SaveFailed)
  }

  /** The leader's function has returned: the key is freed and every joiner gets its result. */
  ghost predicate StepLand(s: Sys, c: nat, s': Sys) {
    && c in s.callers && s.callers[c].Finish?
    && var key, out, lost := Key(s.callers[c].req), s.callers[c].out, s.callers[c].lost;
       s' == s.(flights := s.flights - {key}, callers := map d | d in s.callers :: Landed(s.callers[d], key, out, lost))
  }

  ghost predicate StepBeginDelete(cfg: Config, s: Sys, c: nat, s': Sys) {
    && c in s.callers && s.callers[c].WantDelete? && s.core.lock.Free?
    && var id := s.callers[c].id;
       s' == if id in s.core.mem.entries
             then var e := s.core.mem.entries[id];
                  Move(s.(core := TakeDelete(s.core, c, e, cfg.root <= e.path)), c, Deleting(id))
             else Move(s, c, Ended(Some(NotFound)))
  }

  /** RemoveAll at work: part of the directory is gone. */
  ghost predicate StepRemoveSome(s: Sys, tree: Tree, s': Sys) {
    && s.core.lock.Held? && s.core.lock.task.Remove? && s.core.lock.phase.Removing?
    && var id := s.core.lock.task.gone.id;
       id in s.core.disk && s' == WithDir(s, id, Some(tree)).(damaged := s.damaged + {id})
  }

  ghost predicate StepRemoveAll(s: Sys, s': Sys) {
    && s.core.lock.Held? && s.core.lock.task.Remove? && s.core.lock.phase.Removing?
    && s' == s.(core := FilesRemoved(s.core), damaged := s.damaged + {s.core.lock.task.gone.id})
  }

  /** Delete returns: after a good save, after a failed one, or because RemoveAll failed. */
  ghost predicate StepEndDelete(s: Sys, c: nat, s': Sys) {
    && c in s.callers && s.callers[c].Deleting? && s.core.lock.Held? && s.core.lock.owner == c
          && s.core.lock.task.Remove?
    && (s.core.lock.phase.Saved? || s.core.lock.phase.Unsaved? || s.core.lock.phase.Removing?)
    && var e := s.core.lock.task.gone; var t := s.(core := Release(s.core));
       s' == if s.core.lock.phase.Saved?
             then Move(t.(tally := t.tally.(deletes := t.tally.deletes + multiset{KeyOf(e)}),
                   damaged := t.damaged - {e.id}), c, Ended(None))
             else Move(t, c, Ended(Some(if s.core.lock.phase.Removing? then RemoveFailed else SaveFailed)))
  }

  /** The process dies, losing everything but the files; a new one loads the index. */
  function Restarted(s: Sys): Sys {
    var m := Reload(s.core.disk);
    Sys(Core(m, s.core.disk, Free), map[], map[], s.now, FreshTally(m), s.damaged)
  }

  ghost predicate Step(cfg: Config, s: Sys, a: Action, s': Sys) {
    match a
    case Arrive(c, req) => StepArrive(cfg, s, c, req, s')
    case ArriveMark(c, id) => c !in s.callers && s' == Move(s, c, WantMark(Direct, id))
    case ArriveDelete(c, id) => c !in s.callers && s' == Move(s, c, WantDelete(id))
    case LookUp(c) => StepLookUp(s, c, s')
    case BeginMark(c) => StepBeginMark(s, c, s')
    case EndMark(c) => StepEndMark(s, c, s')
    case ReRead(c) => StepReRead(s, c, s')
    case JoinFlight(c) => StepJoin(s, c, s')
    case ReCheck(c) => StepReCheck(s, c, s')
    case MakeDirectory(c, fault) => StepMakeDirectory(cfg, s, c, fault, s')
    case FetcherWrites(c, tree) => StepFetcherWrites(cfg, s, c, tree, s')
    case FetcherReturns(c, reported) => StepFetcherReturns(s, c, reported, s')
    case FetcherFails(c, left) => StepFetcherFails(cfg, s, c, left, s')
    case MeasureDir(c, fault, size, discovered) => StepMeasureDir(cfg, s, c, fault, size, discovered, s')
    case BeginStage(c) => StepBeginStage(s, c, s')
    case EndStage(c) => StepEndStage(s, c, s')
    case LandFlight(c) => StepLand(s, c, s')
    case BeginDelete(c) => StepBeginDelete(cfg, s, c, s')
    case RemoveSome(tree) => StepRemoveSome(s, tree, s')
    case RemoveAll => StepRemoveAll(s, s')
    case EndDelete(c) => StepEndDelete(s, c, s')
    case Save(fault, left, name, listing) =>
      SaveStep(s.core, fault, left, name, listing, s'.core) && s' == s.(core := s'.core)
    case Tick(later) => s.now <= later && s' == s.(now := later)
    case Restart => s' == Restarted(s)
  }
}
