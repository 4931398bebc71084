/** Any number of paired runs on one daemon: each run is a machine of its own, its steps interleave
    with those of all others and with whatever goes on outside. */
module RunSystem {
  import opened Wrappers
  import opened Docker

  /** What a run does next. */
  datatype Stage =
    | MakeNetwork | MakeVolume | MakeEngine | AwaitEngine | MakeBench | AwaitBench
    | DropBench | DropEngine | DropNetwork | DropVolume | Returned

  datatype Progress = Progress(at: Stage, engineID: string, benchID: string)

  const BEGUN := Progress(MakeNetwork, "", "")

  /** How a call turns out: whether it succeeds, the id of a created container, and whether the daemon
      carries out a removal it permits. */
  datatype Outcome = Outcome(ok: bool, id: string, done: bool)

  /** `refused` counts the removals that met a resource in use. */
  datatype Sys = Sys(host: Host, runs: map<Party, Progress>, refused: nat)

  datatype Action = Arrive(p: Party) | Go(p: Party, o: Outcome) | Elsewhere(later: Host)

  // ---------- Steps ----------

  /** A taken name makes the creation of a network fail, and a new container has an id of its own. */
  predicate Possible(p: Party, r: Progress, h: Host, o: Outcome) {
    && !r.at.Returned?
    && (r.at.MakeNetwork? && o.ok ==> p.Network() !in h.networks)
    && ((r.at.MakeEngine? || r.at.MakeBench?) && o.ok ==> o.id != "" && o.id !in h.boxes)
  }

  function WithBox(p: Party, h: Host, id: string, volume: Option<string>): Host {
    h.(boxes := h.boxes[id := Box(p.Me(), p.Network(), volume)])
  }

  function NextHost(p: Party, r: Progress, h: Host, o: Outcome): Host {
    match r.at
    case MakeNetwork => if o.ok then h.(networks := h.networks[p.Network() := p.Me()]) else h
    case MakeVolume => if o.ok && p.Volume() !in h.volumes then h.(volumes := h.volumes[p.Volume() := p.Me()]) else h
    case MakeEngine => if o.ok then WithBox(p, h, o.id, None) else h
    case MakeBench => if o.ok then WithBox(p, h, o.id, Some(p.Volume())) else h
    case DropBench => if r.benchID != "" && o.done then WithoutBox(h, r.benchID) else h
    case DropEngine => if r.engineID != "" && o.done then WithoutBox(h, r.engineID) else h
    case DropNetwork => if o.done then NetworkRemoved(h, p.Network()) else h
    case DropVolume => if o.done then VolumeRemoved(h, p.Volume()) else h
    case _ => h
  }

  /** A failure anywhere, a cancellation included, leads to the cleanup. */
  function NextProgress(r: Progress, o: Outcome): Progress {
    match r.at
    case MakeNetwork => r.(at := if o.ok then MakeVolume else DropBench)
    case MakeVolume => r.(at := if o.ok then MakeEngine else DropBench)
    case MakeEngine => if o.ok then r.(at := AwaitEngine, engineID := o.id) else r.(at := DropBench)
    case AwaitEngine => r.(at := if o.ok then MakeBench else DropBench)
    case MakeBench => if o.ok then r.(at := AwaitBench, benchID := o.id) else r.(at := DropBench)
    case AwaitBench => r.(at := DropBench)
    case DropBench => r.(at := DropEngine)
    case DropEngine => r.(at := DropNetwork)
    case DropNetwork => r.(at := DropVolume)
    case DropVolume => r.(at := Returned)
    case Returned => r
  }

  predicate InUse(p: Party, r: Progress, h: Host) {
    || (r.at.DropNetwork? && p.Network() in h.networks && !NetworkIdle(h, p.Network()))
    || (r.at.DropVolume? && p.Volume() in h.volumes && !VolumeIdle(h, p.Volume()))
  }

  predicate Live(s: Sys, p: Party) {
    p in s.runs && !s.runs[p].at.Returned?
  }

  /** A run arrives under a RunID no live run has, with nothing of its own or of its names about. */
  predicate CanArrive(s: Sys, p: Party) {
    && (forall q :: q in s.runs ==> q.handle != p.handle)
    && (forall q :: q in s.runs && Live(s, q) ==> q.runID != p.runID)
    && Own(p.Me(), s.host) == NOTHING && Clean(p, s.host)
  }

  ghost predicate Step(honours: bool, s: Sys, a: Action, s': Sys) {
    match a
    case Arrive(p) => CanArrive(s, p) && s' == s.(runs := s.runs[p := BEGUN])
    case Go(p, o) =>
      && p in s.runs && Possible(p, s.runs[p], s.host, o) && (honours ==> o.done)
      && s' == Sys(NextHost(p, s.runs[p], s.host, o), s.runs[p := NextProgress(s.runs[p], o)],
                   s.refused + if InUse(p, s.runs[p], s.host) then 1 else 0)
    case Elsewhere(later) =>
      && s' == s.(host := later)
      && forall p :: p in s.runs ==>
           if Live(s, p) then Rely(p, s.host, later) else Own(p.Me(), later) == Own(p.Me(), s.host)
  }

  // ---------- What holds of each run ----------

  predicate BenchStands(r: Progress) {
    r.benchID != "" && !r.at.DropEngine? && !r.at.DropNetwork? && !r.at.DropVolume? && !r.at.Returned?
  }

  predicate EngineStands(r: Progress) {
    r.engineID != "" && !r.at.DropNetwork? && !r.at.DropVolume? && !r.at.Returned?
  }

  /** The containers that must still be there. */
  function Standing(r: Progress): set<string> {
    (if EngineStands(r) then {r.engineID} else {}) + (if BenchStands(r) then {r.benchID} else {})
  }

  /** What an honouring daemon has removed by now is gone. */
  predicate Gone(r: Progress, mine: Host) {
    && mine.boxes.Keys == Standing(r)
    && (r.at.DropVolume? || r.at.Returned? ==> mine.networks == map[])
    && (r.at.Returned? ==> mine.volumes == map[])
  }

  predicate BeforeEngine(at: Stage) {
    at.MakeNetwork? || at.MakeVolume? || at.MakeEngine?
  }

  predicate IDsOK(r: Progress) {
    && (r.engineID == "" || r.engineID != r.benchID)
    && (BeforeEngine(r.at) ==> r.engineID == "")
    && (BeforeEngine(r.at) || r.at.AwaitEngine? || r.at.MakeBench? ==> r.benchID == "")
  }

  ghost predicate RunOK(honours: bool, p: Party, r: Progress, h: Host) {
    var mine := Own(p.Me(), h);
    if r.at.Returned? then
      honours ==> mine == NOTHING
    else
      Clean(p, h) && MineOK(honours, p, r, mine)
  }

  ghost predicate Inv(honours: bool, s: Sys) {
    && (forall p, q :: p in s.runs && q in s.runs && p != q ==> p.handle != q.handle)
    && (forall p, q :: p in s.runs && q in s.runs && p != q && Live(s, p) && Live(s, q) ==> p.runID != q.runID)
    && (forall p :: p in s.runs ==> RunOK(honours, p, s.runs[p], s.host))
    && (honours ==> s.refused == 0)
  }

  // ---------- A run's own step ----------

  /** What a step does to the run's own part, with everyone else's as it was. */
  ghost predicate Changes(p: Party, h: Host, h': Host, mine: Host) {
    Own(p.Me(), h') == mine && Rest(p.Me(), h') == Rest(p.Me(), h) && Clean(p, h')
  }

  lemma NetworkMade(p: Party, h: Host)
    requires Clean(p, h)
    ensures Changes(p, h, h.(networks := h.networks[p.Network() := p.Me()]),
                    var m := Own(p.Me(), h); m.(networks := m.networks[p.Network() := p.Me()]))
  {
    AddName(p.Me(), h.networks, p.Network());
  }

  lemma VolumeMade(p: Party, h: Host)
    requires Clean(p, h) && p.Volume() !in h.volumes
    ensures Changes(p, h, h.(volumes := h.volumes[p.Volume() := p.Me()]),
                    var m := Own(p.Me(), h); m.(volumes := m.volumes[p.Volume() := p.Me()]))
  {
    AddName(p.Me(), h.volumes, p.Volume());
  }

  lemma BoxMade(p: Party, h: Host, id: string, volume: Option<string>)
    requires Clean(p, h) && id !in h.boxes
    ensures Changes(p, h, WithBox(p, h, id, volume), WithBox(p, Own(p.Me(), h), id, volume))
  {
    AddBox(p.Me(), h.boxes, id, Box(p.Me(), p.Network(), volume));
  }

  lemma BoxDropped(p: Party, h: Host, id: string)
    requires Clean(p, h) && id in Own(p.Me(), h).boxes
    ensures Changes(p, h, WithoutBox(h, id), WithoutBox(Own(p.Me(), h), id))
  {
    DropBox(p.Me(), h.boxes, id);
  }

  lemma NetworkDropped(p: Party, h: Host)
    requires Clean(p, h)
    ensures Changes(p, h, NetworkRemoved(h, p.Network()), NetworkRemoved(Own(p.Me(), h), p.Network()))
  {
    NetworkIdleMine(p, h);
    DropName(p.Me(), h.networks, p.Network());
  }

  lemma VolumeDropped(p: Party, h: Host)
    requires Clean(p, h)
    ensures Changes(p, h, VolumeRemoved(h, p.Volume()), VolumeRemoved(Own(p.Me(), h), p.Volume()))
  {
    VolumeIdleMine(p, h);
    DropName(p.Me(), h.volumes, p.Volume());
  }

  /** A step does to the host what it does to the run's own part alone. */
  lemma StepChanges(p: Party, r: Progress, h: Host, o: Outcome)
    requires Clean(p, h) && Possible(p, r, h, o) && Standing(r) <= Own(p.Me(), h).boxes.Keys
    ensures Changes(p, h, NextHost(p, r, h, o), NextHost(p, r, Own(p.Me(), h), o))
  {
    hide Clean, Own, Rest, Changes;
    SameChanges(p, h);
    VolumeIsMine(p, h);
    match r.at
    case MakeNetwork => NetworkMade(p, h);
    case MakeVolume => if p.Volume() !in h.volumes { VolumeMade(p, h); }
    case MakeEngine => if o.ok { BoxMade(p, h, o.id, None); }
    case MakeBench => if o.ok { BoxMade(p, h, o.id, Some(p.Volume())); }
    case DropBench => if r.benchID != "" { BoxDropped(p, h, r.benchID); }
    case DropEngine => if r.engineID != "" { BoxDropped(p, h, r.engineID); }
    case DropNetwork => NetworkDropped(p, h);
    case DropVolume => VolumeDropped(p, h);
    case _ =>
  }

  lemma SameChanges(p: Party, h: Host)
    requires Clean(p, h)
    ensures Changes(p, h, h, Own(p.Me(), h))
  {
  }

  lemma VolumeIsMine(p: Party, h: Host)
    requires Clean(p, h)
    ensures p.Volume() in h.volumes <==> p.Volume() in Own(p.Me(), h).volumes
  {
  }

  /** What the stages keep on the run's own part. */
  ghost predicate MineOK(honours: bool, p: Party, r: Progress, mine: Host) {
    Tidy(p, mine) && IDsOK(r) && Standing(r) <= mine.boxes.Keys && (honours ==> Gone(r, mine))
  }

  predicate Cleaning(at: Stage) {
    at.DropBench? || at.DropEngine? || at.DropNetwork? || at.DropVolume?
  }

  lemma PlacesKeep(honours: bool, p: Party, r: Progress, mine: Host, o: Outcome)
    requires MineOK(honours, p, r, mine)
    requires r.at.MakeNetwork? || r.at.MakeVolume? || r.at.AwaitEngine? || r.at.AwaitBench?
    ensures MineOK(honours, p, NextProgress(r, o), NextHost(p, r, mine, o))
  {
  }

  lemma BoxesKeep(honours: bool, p: Party, r: Progress, mine: Host, o: Outcome)
    requires MineOK(honours, p, r, mine) && (r.at.MakeEngine? || r.at.MakeBench?)
    requires o.ok ==> o.id != "" && o.id !in mine.boxes
    ensures MineOK(honours, p, NextProgress(r, o), NextHost(p, r, mine, o))
  {
  }

  lemma CleanupKeeps(honours: bool, p: Party, r: Progress, mine: Host, o: Outcome)
    requires MineOK(honours, p, r, mine) && Cleaning(r.at) && (honours ==> o.done)
    ensures MineOK(honours, p, NextProgress(r, o), NextHost(p, r, mine, o))
    ensures r.at.DropVolume? && honours ==> NextHost(p, r, mine, o) == NOTHING
  {
  }

  lemma MineKeeps(honours: bool, p: Party, r: Progress, mine: Host, o: Outcome)
    requires MineOK(honours, p, r, mine) && (honours ==> o.done) && !r.at.Returned?
    requires (r.at.MakeEngine? || r.at.MakeBench?) && o.ok ==> o.id != "" && o.id !in mine.boxes
    ensures MineOK(honours, p, NextProgress(r, o), NextHost(p, r, mine, o))
    ensures NextProgress(r, o).at.Returned? ==> (honours ==> NextHost(p, r, mine, o) == NOTHING)
  {
    hide MineOK, NextHost;
    if Cleaning(r.at) {
      CleanupKeeps(honours, p, r, mine, o);
    } else if r.at.MakeEngine? || r.at.MakeBench? {
      BoxesKeep(honours, p, r, mine, o);
    } else {
      PlacesKeep(honours, p, r, mine, o);
    }
  }

  /** A run's step keeps what holds of the run, and is within what it guarantees to all others. */
  lemma OwnStep(honours: bool, p: Party, r: Progress, h: Host, o: Outcome)
    requires RunOK(honours, p, r, h) && Possible(p, r, h, o) && (honours ==> o.done)
    ensures Guarantee(p, h, NextHost(p, r, h, o))
    ensures RunOK(honours, p, NextProgress(r, o), NextHost(p, r, h, o))
    ensures honours ==> !InUse(p, r, h)
  {
    hide Own, Rest, Clean, Tidy, NextHost, IDsOK, NextProgress, NetworkIdle, VolumeIdle;
    StepChanges(p, r, h, o);
    FreshIsNotMine(p, h, o.id);
    MineKeeps(honours, p, r, Own(p.Me(), h), o);
    if honours { NotInUse(p, r, h); }
  }

  lemma FreshIsNotMine(p: Party, h: Host, id: string)
    ensures id !in h.boxes ==> id !in Own(p.Me(), h).boxes
  {
  }

  lemma NotInUse(p: Party, r: Progress, h: Host)
    requires Clean(p, h) && Gone(r, Own(p.Me(), h))
    ensures !InUse(p, r, h)
  {
    NetworkIdleMine(p, h);
    VolumeIdleMine(p, h);
  }

  // ---------- Everyone else ----------

  lemma OtherKept(honours: bool, q: Party, r: Progress, h: Host, h': Host)
    requires RunOK(honours, q, r, h)
    requires if r.at.Returned? then Own(q.Me(), h') == Own(q.Me(), h) else Rely(q, h, h')
    ensures RunOK(honours, q, r, h')
  {
  }

  lemma GoKeepsOther(honours: bool, p: Party, q: Party, r: Progress, h: Host, h': Host)
    requires RunOK(honours, q, r, h) && Guarantee(p, h, h') && p.handle != q.handle
    requires !r.at.Returned? ==> p.runID != q.runID
    ensures RunOK(honours, q, r, h')
  {
    hide RunOK, Rely, Guarantee, Own, Rest;
    GuaranteeParts(p, h, h');
    OthersKept(p.Me(), q.Me(), h, h');
    if !r.at.Returned? { GuaranteeIsRely(p, q, h, h'); }
    OtherKept(honours, q, r, h, h');
  }

  lemma GuaranteeParts(p: Party, h: Host, h': Host)
    requires Guarantee(p, h, h')
    ensures Rest(p.Me(), h') == Rest(p.Me(), h)
  {
  }

  lemma GoKeeps(honours: bool, s: Sys, p: Party, o: Outcome, s': Sys)
    requires Inv(honours, s) && Step(honours, s, Go(p, o), s')
    ensures Inv(honours, s')
  {
    hide RunOK, Guarantee, NextHost, NextProgress, InUse;
    OwnStep(honours, p, s.runs[p], s.host, o);
    forall q | q in s'.runs ensures RunOK(honours, q, s'.runs[q], s'.host) {
      if q != p { GoKeepsOther(honours, p, q, s.runs[q], s.host, s'.host); }
    }
    assert forall q :: Live(s', q) ==> Live(s, q);
  }

  lemma ArriveKeeps(honours: bool, s: Sys, p: Party, s': Sys)
    requires Inv(honours, s) && Step(honours, s, Arrive(p), s')
    ensures Inv(honours, s')
  {
    BegunOK(honours, p, s.host);
    hide RunOK, Own, Clean;
    assert forall q :: q != p ==> Live(s', q) == Live(s, q);
  }

  lemma BegunOK(honours: bool, p: Party, h: Host)
    requires Own(p.Me(), h) == NOTHING && Clean(p, h)
    ensures RunOK(honours, p, BEGUN, h)
  {
  }

  lemma ElsewhereKeeps(honours: bool, s: Sys, later: Host, s': Sys)
    requires Inv(honours, s) && Step(honours, s, Elsewhere(later), s')
    ensures Inv(honours, s')
  {
    hide RunOK, Rely, Own;
    forall q | q in s'.runs ensures RunOK(honours, q, s'.runs[q], s'.host) {
      OtherKept(honours, q, s.runs[q], s.host, later);
    }
    assert forall q :: Live(s', q) == Live(s, q);
  }

  lemma StepKeeps(honours: bool, s: Sys, a: Action, s': Sys)
    requires Inv(honours, s) && Step(honours, s, a, s')
    ensures Inv(honours, s')
  {
    hide Inv, Step;
    match a
    case Arrive(p) => ArriveKeeps(honours, s, p, s');
    case Go(p, o) => GoKeeps(honours, s, p, o, s');
    case Elsewhere(later) => ElsewhereKeeps(honours, s, later, s');
  }

  // ---------- Whole histories ----------

  ghost predicate IsHistory(honours: bool, states: seq<Sys>, actions: seq<Action>) {
    && |states| == |actions| + 1 && states[0].runs == map[] && states[0].refused == 0
    && forall i :: 0 <= i < |actions| ==> Step(honours, states[i], actions[i], states[i + 1])
  }

  lemma {:induction false} HistoryHolds(honours: bool, states: seq<Sys>, actions: seq<Action>, i: nat)
    requires IsHistory(honours, states, actions) && i < |states|
    ensures Inv(honours, states[i])
  {
    hide Step, RunOK;
    if i > 0 {
      HistoryHolds(honours, states, actions, i - 1);
      hide Inv;
      StepKeeps(honours, states[i - 1], actions[i - 1], states[i]);
    }
  }

  /** In every interleaving of any number of runs whose RunIDs differ while they live, with any call
      failing and whatever goes on outside: on a daemon that honours the removals it permits, a run that
      has returned has nothing left, then and ever after, and no removal ever met a resource in use. */
  lemma ReturnedLeavesNothing(states: seq<Sys>, actions: seq<Action>, i: nat, p: Party)
    requires IsHistory(true, states, actions) && i < |states|
    requires p in states[i].runs && states[i].runs[p].at.Returned?
    ensures Own(p.Me(), states[i].host) == NOTHING && states[i].refused == 0
    ensures var h := states[i].host;
            && (forall n :: n in h.networks ==> h.networks[n] != Run(p.handle))
            && (forall n :: n in h.volumes ==> h.volumes[n] != Run(p.handle))
            && (forall b :: b in h.boxes ==> h.boxes[b].owner != Run(p.handle))
  {
    hide Step;
    HistoryHolds(true, states, actions, i);
    hide Own;
    assert RunOK(true, p, states[i].runs[p], states[i].host);
    NothingOwned(p, states[i].host);
  }

  lemma NothingOwned(p: Party, h: Host)
    requires Own(p.Me(), h) == NOTHING
    ensures (forall n :: n in h.networks ==> h.networks[n] != Run(p.handle))
            && (forall n :: n in h.volumes ==> h.volumes[n] != Run(p.handle))
            && (forall b :: b in h.boxes ==> h.boxes[b].owner != Run(p.handle))
  {
    assert forall n :: n in h.networks && h.networks[n] == p.Me() ==> n in Own(p.Me(), h).networks;
    assert forall n :: n in h.volumes && h.volumes[n] == p.Me() ==> n in Own(p.Me(), h).volumes;
    assert forall b :: b in h.boxes && h.boxes[b].owner == p.Me() ==> b in Own(p.Me(), h).boxes;
  }

  /** When a run comes to remove its network and its volume, no container of anyone's uses them. */
  lemma NothingUsesThem(states: seq<Sys>, actions: seq<Action>, i: nat, p: Party)
    requires IsHistory(true, states, actions) && i < |states| && p in states[i].runs
    requires states[i].runs[p].at.DropNetwork? || states[i].runs[p].at.DropVolume?
    ensures forall b :: b in states[i].host.boxes ==>
              && states[i].host.boxes[b].network != "bonnie-run-" + p.runID
              && states[i].host.boxes[b].volume != Some("bonnie-results-" + p.runID)
  {
    hide Step;
    HistoryHolds(true, states, actions, i);
    assert RunOK(true, p, states[i].runs[p], states[i].host);
    NoUser(p, states[i].runs[p], states[i].host);
  }

  lemma NoUser(p: Party, r: Progress, h: Host)
    requires RunOK(true, p, r, h) && (r.at.DropNetwork? || r.at.DropVolume?)
    ensures forall b :: b in h.boxes ==> h.boxes[b].network != p.Network() && h.boxes[b].volume != Some(p.Volume())
  {
    forall b | b in h.boxes ensures h.boxes[b].network != p.Network() && h.boxes[b].volume != Some(p.Volume()) {
      assert h.boxes[b].owner == p.Me() ==> b in Own(p.Me(), h).boxes;
    }
  }

  /** On any daemon, honouring or not, a run's step takes nothing from anyone else and gives them nothing. */
  lemma StepSparesOthers(honours: bool, states: seq<Sys>, actions: seq<Action>, i: nat)
    requires IsHistory(honours, states, actions) && i < |actions| && actions[i].Go?
    ensures Rest(actions[i].p.Me(), states[i + 1].host) == Rest(actions[i].p.Me(), states[i].host)
  {
    hide Rest, Own, NextHost, NextProgress, RunOK, InUse;
    HistoryHolds(honours, states, actions, i);
    var s, p, o := states[i], actions[i].p, actions[i].o;
    assert Step(honours, s, actions[i], states[i + 1]);
    OwnStep(honours, p, s.runs[p], s.host, o);
    GuaranteeParts(p, s.host, states[i + 1].host);
  }

  /** How many steps of its own a run still has to go at most. */
  function ToGo(at: Stage): nat {
    match at
    case MakeNetwork => 10
    case MakeVolume => 9
    case MakeEngine => 8
    case AwaitEngine => 7
    case MakeBench => 6
    case AwaitBench => 5
    case DropBench => 4
    case DropEngine => 3
    case DropNetwork => 2
    case DropVolume => 1
    case Returned => 0
  }

  /** Every step of its own brings a run nearer to its return, and until then one is possible. */
  lemma AlwaysOn(p: Party, r: Progress, h: Host, o: Outcome)
    ensures Possible(p, r, h, o) ==> ToGo(NextProgress(r, o).at) < ToGo(r.at)
    ensures !r.at.Returned? ==> Possible(p, r, h, Outcome(false, "", true))
  {
  }
}
