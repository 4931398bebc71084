/** What a caller of the store is answered, step by step: every answer, with the cause it must have. */
module StoreAnswers {
  import opened Wrappers
  import opened Text
  import opened Index
  import opened Files
  import opened StoreCore
  import opened StoreSystem
  import opened StoreSafety

  /** A request on arrival: refused for the first field that is wrong, and otherwise let through. */
  lemma ArrivalAnswer(cfg: Config, s: Sys, c: nat, req: Request, s': Sys)
    requires Step(cfg, s, Arrive(c, req), s')
    ensures c in s'.callers
    ensures s'.callers[c] == Returned(req, Err(SourceRequired), false) <==> req.source == ""
    ensures s'.callers[c] == Returned(req, Err(ModelRequired), false) <==> req.source != "" && req.modelID == ""
    ensures s'.callers[c] == Returned(req, Err(UnknownSource), false) <==>
            req.source != "" && req.modelID != "" && req.source !in cfg.sources
    ensures s'.callers[c] == Returned(req, Err(MountRequired), false) <==>
            req.source == "nfs" && req.modelID != "" && "nfs" in cfg.sources && req.mountSource == ""
    ensures s'.callers[c] == Lookup(req) <==>
            req.source != "" && req.modelID != "" && req.source in cfg.sources
            && (req.source == "nfs" ==> req.mountSource != "")
  {
    hide Validate;
    ValidateMeans(cfg, req);
  }

  /** The entry of an id, or Go's zero Entry. */
  predicate IsRead(m: Maps, id: string, e: Entry) {
    if id in m.entries then e == m.entries[id] else e == Entry("", "", "", [], 0, [], 0, 0)
  }

  /** The answer a caller comes to by a step of its own, and why. */
  predicate OwnCause(s: Sys, a: Action, c: nat, out: Outcome)
    requires c in s.callers
  {
    var pc := s.callers[c];
    match a
    case BeginMark(d) => d == c && pc.WantMark? && pc.id !in s.core.mem.entries && out == Err(NotFound)
    case EndMark(d) =>
      d == c && pc.Marking? && s.core.lock.Held? && s.core.lock.phase.Unsaved? && out == Err(SaveFailed)
    case ReRead(d) => d == c && pc.Reread? && out.Ok? && IsRead(s.core.mem, pc.id, out.value)
    case MakeDirectory(d, fault) => d == c && fault && out == Err(MkdirFailed)
    case FetcherFails(d, _) => d == c && out == Err(FetcherFailed)
    case MeasureDir(d, fault, _, _) => d == c && fault && out == Err(MeasureFailed)
    case EndStage(d) =>
      && d == c && pc.Staging? && s.core.lock.Held?
      && (if s.core.lock.phase.Saved? then out == Ok(pc.entry) else out == Err(SaveFailed))
    case _ => false
  }

  /** A flight's function ends only so: with an error that has its cause, with the entry read, or with the
      entry staged. */
  lemma FinishHasCause(cfg: Config, s: Sys, a: Action, s': Sys, c: nat)
    requires Step(cfg, s, a, s') && c in s'.callers && s'.callers[c].Finish?
    requires c !in s.callers || s.callers[c] != s'.callers[c]
    ensures c in s.callers && OwnCause(s, a, c, s'.callers[c].out)
  {
    hide KeyFor, Measured, SortBy, IsListing, Validate;
  }

  /** The answer of the flight that lands is that of its leader, for whoever asked for the same model. */
  predicate LandsWith(s: Sys, a: Action, c: nat, out: Outcome, lost: bool)
    requires c in s.callers
  {
    && a.LandFlight? && a.c in s.callers && s.callers[a.c].Finish?
    && out == s.callers[a.c].out && lost == s.callers[a.c].lost
    && (s.callers[c].Follow? || s.callers[c].Finish?)
    && KeyFor(s.callers[c].req.source, s.callers[c].req.modelID)
       == KeyFor(s.callers[a.c].req.source, s.callers[a.c].req.modelID)
  }

  /** `Fetch` returns only so: refused on arrival, from its own mark or re-read, or with its flight. */
  lemma ReturnHasCause(cfg: Config, s: Sys, a: Action, s': Sys, c: nat)
    requires Step(cfg, s, a, s') && c in s'.callers && s'.callers[c].Returned? && !a.Arrive?
    requires c !in s.callers || s.callers[c] != s'.callers[c]
    ensures c in s.callers
    ensures OwnCause(s, a, c, s'.callers[c].out) || LandsWith(s, a, c, s'.callers[c].out, s'.callers[c].lost)
  {
    hide KeyFor, Measured, SortBy, IsListing, Validate;
  }

  /** A flight's end reaches everyone who joined it, with one and the same answer. */
  lemma LandingReachesAll(cfg: Config, s: Sys, c: nat, s': Sys, d: nat)
    requires Step(cfg, s, LandFlight(c), s') && d in s.callers && s.callers[d].Follow?
    requires s.callers[d].req.source == s.callers[c].req.source && s.callers[d].req.modelID == s.callers[c].req.modelID
    ensures d in s'.callers && s'.callers[d] == Returned(s.callers[d].req, s.callers[c].out, s.callers[c].lost)
    ensures c in s'.callers && s'.callers[c] == Returned(s.callers[c].req, s.callers[c].out, s.callers[c].lost)
    ensures KeyFor(s.callers[c].req.source, s.callers[c].req.modelID) !in s'.flights
  {
  }

  /** Where a caller goes that does not find its model, or looks again: into the one flight of its model, or
      at its head; to the mark of what is indexed by now, or to the fetch. */
  lemma FlightsAreJoined(cfg: Config, s: Sys, a: Action, s': Sys, c: nat)
    requires Inv(cfg, s) && Step(cfg, s, a, s') && (a == JoinFlight(c) || a == ReCheck(c) || a == LookUp(c))
    ensures c in s.callers && (s.callers[c].Join? || s.callers[c].Recheck? || s.callers[c].Lookup?) && c in s'.callers
    ensures var req := s.callers[c].req; var key := req.source + ":" + req.modelID; var m := s.core.mem;
            match a
            case JoinFlight(_) =>
              if key in s.flights then s'.callers[c] == Follow(req) && s'.flights == s.flights
              else s'.callers[c] == Recheck(req) && s'.flights == s.flights[key := c]
            case LookUp(_) => s'.callers[c] == if key in m.byKey then WantMark(Fast(req), m.byKey[key]) else Join(req)
            case _ => s'.callers[c] == if key in m.byKey then WantMark(Lead(req), m.byKey[key]) else MakeDir(req)
  {
    hide LockInv, FlightInv, TallyInv, DirInv, CallersInv, IndexOK, DiskMatches;
  }
}
