/** The daemon as one run's client sees it: every call may fail, others act between the calls, and a
    removal is refused while its resource is in use. What the client goes through is a history of
    `RunSystem`. */
module RunClient {
  import opened Wrappers
  import opened Docker
  import opened RunSystem
  import S = Strings

  lemma HistoryExtends(honours: bool, states: seq<Sys>, actions: seq<Action>, a: Action, next: Sys)
    requires IsHistory(honours, states, actions) && Step(honours, states[|actions|], a, next)
    ensures IsHistory(honours, states + [next], actions + [a]) && |states| == |actions| + 1
  {
    hide Step;
    var ss, aa := states + [next], actions + [a];
    forall i | 0 <= i < |aa| ensures Step(honours, ss[i], aa[i], ss[i + 1]) {
      if i < |actions| {
        assert Step(honours, states[i], actions[i], states[i + 1]);
      } else {
        assert ss[i] == states[|actions|] && aa[i] == a && ss[i + 1] == next;
      }
    }
  }

  /** A history up to now in which the run has come to `r`, with nothing else recorded of the others than
      what they did to the host. */
  ghost predicate Follows(honours: bool, p: Party, states: seq<Sys>, actions: seq<Action>, now: Sys) {
    IsHistory(honours, states, actions) && states[|actions|] == now && now.runs.Keys == {p}
  }

  lemma Begins(honours: bool, p: Party, h: Host)
    requires Clean(p, h) && Own(p.Me(), h) == NOTHING
    ensures var before, now := Sys(h, map[], 0), Sys(h, map[p := BEGUN], 0);
            Follows(honours, p, [before, now], [Arrive(p)], now)
  {
    hide Clean, Own;
  }

  lemma OthersFollow(honours: bool, p: Party, states: seq<Sys>, actions: seq<Action>, now: Sys, later: Host)
    requires Follows(honours, p, states, actions, now) && Live(now, p) && Rely(p, now.host, later)
    ensures var next := now.(host := later);
            Follows(honours, p, states + [next], actions + [Elsewhere(later)], next)
  {
    hide Rely, IsHistory;
    HistoryExtends(honours, states, actions, Elsewhere(later), now.(host := later));
  }

  /** What a step of the run makes of everything. */
  function Went(p: Party, now: Sys, o: Outcome): Sys
    requires p in now.runs
  {
    Sys(NextHost(p, now.runs[p], now.host, o), now.runs[p := NextProgress(now.runs[p], o)],
        now.refused + if InUse(p, now.runs[p], now.host) then 1 else 0)
  }

  lemma RunFollows(honours: bool, p: Party, states: seq<Sys>, actions: seq<Action>, now: Sys, o: Outcome)
    requires Follows(honours, p, states, actions, now)
    requires Possible(p, now.runs[p], now.host, o) && (honours ==> o.done)
    ensures Follows(honours, p, states + [Went(p, now, o)], actions + [Go(p, o)], Went(p, now, o))
    ensures Own(p.Me(), Went(p, now, o).host) == NextHost(p, now.runs[p], Own(p.Me(), now.host), o)
  {
    hide IsHistory, Own, NextHost, NextProgress, InUse, RunOK;
    Known(honours, p, states, actions, now);
    HistoryExtends(honours, states, actions, Go(p, o), Went(p, now, o));
    OwnPart(honours, p, now.runs[p], now.host, o);
  }

  lemma OwnPart(honours: bool, p: Party, r: Progress, h: Host, o: Outcome)
    requires RunOK(honours, p, r, h) && Possible(p, r, h, o)
    ensures Own(p.Me(), NextHost(p, r, h, o)) == NextHost(p, r, Own(p.Me(), h), o)
  {
    hide Own, NextHost, Clean, Tidy, IDsOK, Gone, Standing, Rest;
    StepChanges(p, r, h, o);
  }

  /** So all that holds of each run in every history holds of this one. */
  lemma Known(honours: bool, p: Party, states: seq<Sys>, actions: seq<Action>, now: Sys)
    requires Follows(honours, p, states, actions, now)
    ensures RunOK(honours, p, now.runs[p], now.host)
    ensures honours ==> now.refused == 0
  {
    hide Step, RunOK;
    HistoryHolds(honours, states, actions, |actions|);
  }

  datatype Vendor = NVIDIA | AMD | Intel | UnknownVendor

  /** The GPU part of a host configuration: whether all GPUs are requested of the toolkit, the devices
      mapped through under their own paths, security options and groups. */
  datatype Access = Access(allGPUs: bool, devices: seq<string>, security: seq<string>, groups: seq<string>)

  const NO_GPU := Access(false, [], [], [])

  /** `InjectGPU`. */
  function InjectGPU(a: Access, v: Vendor): Access {
    match v
    case NVIDIA => a.(allGPUs := true)
    case AMD =>
      Access(a.allGPUs, a.devices + ["/dev/kfd", "/dev/dri"], a.security + ["seccomp=unconfined"],
             a.groups + ["video", "render"])
    case Intel => a.(devices := a.devices + ["/dev/dri"], groups := a.groups + ["video", "render"])
    case UnknownVendor => a
  }

  /** What a container is created with: name, network, image, command, environment, bind mounts, mounted
      volume, and access to the GPUs. */
  datatype BoxConfig = BoxConfig(
    name: string, network: string, image: string, args: seq<string>, env: map<string, string>, binds: seq<string>,
    volume: Option<string>, gpu: Access)

  /** The calls that did their work, in order, up to the removals. For a stop the attempt counts. */
  datatype Call =
    | MadeNetwork(name: string)
    | MadeVolume(name: string)
    | Created(id: string, config: BoxConfig)
    | Started(id: string)
    | Copied(id: string, path: string, body: string)
    | Waited(id: string, code: int)
    | ReadBack(id: string, results: string)
    | Stopped(id: string)
    | Removed(id: string)
    | RemovedNetwork(name: string)
    | RemovedVolume(name: string)

  class Client {
    const party: Party
    const vendor: Vendor
    const honours: bool  // whether the daemon carries out every removal it permits
    const willing: bool  // whether every other call it can carry out succeeds
    const exitCode: int  // what the benchmark exits with
    const output: Option<string>  // the results it leaves
    var host: Host
    ghost var progress: Progress
    ghost var inUse: nat  // removals refused because the resource was in use
    ghost var did: seq<Call>
    ghost var states: seq<Sys>
    ghost var actions: seq<Action>

    constructor (party: Party, vendor: Vendor, honours: bool, willing: bool, exitCode: int, output: Option<string>,
                 host: Host)
      requires Clean(party, host) && Own(party.Me(), host) == NOTHING
      ensures this.party == party && this.honours == honours && this.host == host && progress == BEGUN
      ensures this.willing == willing && this.exitCode == exitCode && this.output == output
      ensures this.vendor == vendor && did == [] && actions == [Arrive(party)]
      ensures Valid()
    {
      this.party, this.vendor, this.honours, this.host, progress := party, vendor, honours, host, BEGUN;
      this.willing, this.exitCode, this.output := willing, exitCode, output;
      inUse, did := 0, [];
      states, actions := [Sys(host, map[], 0), Sys(host, map[party := BEGUN], 0)], [Arrive(party)];
      new;
      Begins(honours, party, host);
    }

    ghost function Now(): Sys
      reads `host, `progress, `inUse
    {
      Sys(host, map[party := progress], inUse)
    }

    ghost predicate Valid()
      reads `host, `progress, `inUse, `states, `actions
    {
      Follows(honours, party, states, actions, Now())
    }

    ghost function Mine(): Host
      reads `host
    {
      Own(party.Me(), host)
    }

    /** Others act. */
    method Interfere()
      requires Valid() && !progress.at.Returned?
      modifies this`host, this`states, this`actions
      ensures Valid() && Mine() == old(Mine())
    {
      hide Follows, Own, Clean;
      var later: Host := *;
      if Rely(party, host, later) {
        OthersFollow(honours, party, states, actions, Now(), later);
        states, actions := states + [Now().(host := later)], actions + [Elsewhere(later)];
        host := later;
      }
    }

    /** The run takes the step it has come to, which leaves the daemon with `next`. */
    method Advance(ghost o: Outcome, next: Host)
      requires Valid() && Possible(party, progress, host, o) && (honours ==> o.done)
      requires next == NextHost(party, progress, host, o)
      modifies this`host, this`progress, this`inUse, this`states, this`actions
      ensures Valid() && progress == NextProgress(old(progress), o)
      ensures host == next && Mine() == NextHost(party, old(progress), old(Mine()), o)
      ensures inUse == old(inUse) + if InUse(party, old(progress), old(host)) then 1 else 0
    {
      hide Follows, Own, NextHost, NextProgress, InUse;
      RunFollows(honours, party, states, actions, Now(), o);
      states, actions := states + [Went(party, Now(), o)], actions + [Go(party, o)];
      assert Went(party, Now(), o).runs == map[party := NextProgress(progress, o)];
      inUse := inUse + if InUse(party, progress, host) then 1 else 0;
      host, progress := next, NextProgress(progress, o);
    }

    method ContainerStart(id: string) returns (ok: bool)
      requires Valid() && !progress.at.Returned?
      modifies this`host, this`states, this`actions, this`did
      ensures Valid() && Mine() == old(Mine())
      ensures did == if ok then old(did) + [Started(id)] else old(did)
      ensures willing ==> ok
    {
      Interfere();
      ok := *;
      ok := ok || willing;
      if ok { did := did + [Started(id)]; }
    }

    method ContainerStop(id: string)
      requires Valid() && !progress.at.Returned?
      modifies this`host, this`states, this`actions, this`did
      ensures Valid() && Mine() == old(Mine()) && did == old(did) + [Stopped(id)]
    {
      Interfere();
      did := did + [Stopped(id)];
    }

    method CopyToContainer(id: string, path: string, body: string) returns (ok: bool)
      requires Valid() && !progress.at.Returned?
      modifies this`host, this`states, this`actions, this`did
      ensures Valid() && Mine() == old(Mine())
      ensures did == if ok then old(did) + [Copied(id, path, body)] else old(did)
      ensures willing ==> ok
    {
      Interfere();
      ok := *;
      ok := ok || willing;
      if ok { did := did + [Copied(id, path, body)]; }
    }

    /** `waitForExit`: the exit code, or nothing when the wait fails or is cancelled. */
    method WaitForExit(id: string) returns (code: Option<int>)
      requires Valid() && !progress.at.Returned?
      modifies this`host, this`states, this`actions, this`did
      ensures Valid() && Mine() == old(Mine())
      ensures did == if code.Some? then old(did) + [Waited(id, code.value)] else old(did)
      ensures code == Some(exitCode) || (code == None && !willing)
    {
      Interfere();
      var ok: bool := *;
      code := if ok || willing then Some(exitCode) else None;
      if code.Some? { did := did + [Waited(id, code.value)]; }
    }

    /** `readResults`. */
    method ReadResults(id: string) returns (results: Option<string>)
      requires Valid() && !progress.at.Returned?
      modifies this`host, this`states, this`actions, this`did
      ensures Valid() && Mine() == old(Mine())
      ensures did == if results.Some? then old(did) + [ReadBack(id, results.value)] else old(did)
      ensures results == output || (results == None && !willing)
    {
      Interfere();
      var ok: bool := *;
      results := if ok || willing then output else None;
      if results.Some? { did := did + [ReadBack(id, results.value)]; }
    }

    /** A step that asks nothing of the daemon: a wait is over, or there is no container to remove. */
    ghost method Pass(ok: bool)
      requires Valid()
      requires progress.at.AwaitEngine? || progress.at.AwaitBench?
            || (progress.at.DropBench? && progress.benchID == "")
            || (progress.at.DropEngine? && progress.engineID == "")
      modifies this`progress, this`states, this`actions
      ensures Valid() && progress == NextProgress(old(progress), Outcome(ok, "", true))
    {
      hide Follows;
      var o := Outcome(ok, "", true);
      RunFollows(honours, party, states, actions, Now(), o);
      assert Went(party, Now(), o) == Now().(runs := map[party := NextProgress(progress, o)]);
      states, actions := states + [Went(party, Now(), o)], actions + [Go(party, o)];
      progress := NextProgress(progress, o);
    }

    /** In every history a returned run has nothing left on a daemon that honours what it permits. */
    ghost method AtTheEnd()
      requires Valid()
      ensures honours ==> inUse == 0 && (progress.at.Returned? ==> Mine() == NOTHING)
    {
      hide Follows, Own;
      Known(honours, party, states, actions, Now());
    }

    /** A name that is taken makes the creation fail. */
    method NetworkCreate() returns (ok: bool)
      requires Valid() && progress.at.MakeNetwork?
      modifies this
      ensures Valid() && progress == old(progress).(at := if ok then MakeVolume else DropBench)
      ensures Mine() == if ok then old(Mine()).(networks := map[party.Network() := party.Me()]) else old(Mine())
      ensures did == if ok then old(did) + [MadeNetwork(party.Network())] else old(did)
      ensures willing && old(Mine()).networks == map[] ==> ok
      ensures inUse == old(inUse)
    {
      hide Follows, Own, Clean;
      Interfere();
      Known(honours, party, states, actions, Now());
      NetworkIdleMine(party, host);
      ok := *;
      ok := (ok || willing) && party.Network() !in host.networks;
      var next := host;
      if ok { next := host.(networks := host.networks[party.Network() := party.Me()]); }
      Advance(Outcome(ok, "", true), next);
      if ok { did := did + [MadeNetwork(party.Network())]; }
    }

    /** Creating a volume that exists gives that volume. */
    method VolumeCreate() returns (ok: bool)
      requires Valid() && progress.at.MakeVolume?
      modifies this
      ensures Valid() && progress == old(progress).(at := if ok then MakeEngine else DropBench)
      ensures Mine() == if ok then old(Mine()).(volumes := map[party.Volume() := party.Me()]) else old(Mine())
      ensures did == if ok then old(did) + [MadeVolume(party.Volume())] else old(did)
      ensures willing ==> ok
      ensures inUse == old(inUse)
    {
      hide Follows, Own, Clean;
      Interfere();
      ok := *;
      ok := ok || willing;
      Known(honours, party, states, actions, Now());
      OnlyItsVolume(honours, party, progress, host);
      var next := host;
      if ok && party.Volume() !in host.volumes {
        next := host.(volumes := host.volumes[party.Volume() := party.Me()]);
      }
      Advance(Outcome(ok, "", true), next);
      if ok { did := did + [MadeVolume(party.Volume())]; }
    }

    /** `config` is as the stage asks for: the engine without a volume, the benchmark with the run's. */
    method ContainerCreate(config: BoxConfig) returns (id: Option<string>)
      requires Valid() && config.network == party.Network()
      requires if progress.at.MakeEngine? then config.volume == None
               else progress.at.MakeBench? && config.volume == Some(party.Volume())
      modifies this
      ensures Valid()
      ensures progress == if id == None then old(progress).(at := DropBench)
                          else if old(progress).at.MakeEngine?
                          then old(progress).(at := AwaitEngine, engineID := id.value)
                          else old(progress).(at := AwaitBench, benchID := id.value)
      ensures id == None ==> Mine() == old(Mine()) && did == old(did) && !willing
      ensures id.Some? ==> did == old(did) + [Created(id.value, config)]
      ensures id.Some? ==> id.value != "" && id.value !in old(Mine()).boxes
      ensures id.Some? ==>
                var box := Box(party.Me(), party.Network(), config.volume);
                Mine() == old(Mine()).(boxes := old(Mine()).boxes[id.value := box])
      ensures inUse == old(inUse)
    {
      hide Follows, Own;
      Interfere();
      id := *;
      if id.Some? && (id.value == "" || id.value in host.boxes) { id := None; }
      if id.None? && willing {
        ghost var free := S.FreshBehind(".", host.boxes.Keys);
        assert free != "" && free !in host.boxes;
        var name: string :| name != "" && name !in host.boxes;
        id := Some(name);
      }
      ghost var o := Outcome(id.Some?, if id.Some? then id.value else "", true);
      FreshIsNotMine(party, host, o.id);
      var next := host;
      if id.Some? {
        next := host.(boxes := host.boxes[id.value := Box(party.Me(), config.network, config.volume)]);
      }
      Advance(o, next);
      if id.Some? { did := did + [Created(id.value, config)]; }
    }

    /** A forced removal, which the daemon always permits. */
    method ContainerRemove(id: string)
      requires Valid() && id != ""
      requires if progress.at.DropBench? then id == progress.benchID
               else progress.at.DropEngine? && id == progress.engineID
      modifies this`host, this`progress, this`inUse, this`states, this`actions, this`did
      ensures Valid()
      ensures progress == old(progress).(at := if old(progress).at.DropBench? then DropEngine else DropNetwork)
      ensures Mine() == WithoutBox(old(Mine()), id) || (!honours && Mine() == old(Mine()))
      ensures did == old(did) + [Removed(id)]
      ensures inUse == old(inUse)
    {
      hide Follows, Own;
      Interfere();
      var done: bool := *;
      Advance(Outcome(true, "", honours || done), if honours || done then WithoutBox(host, id) else host);
      did := did + [Removed(id)];
    }

    /** Refused while the network is in use; a network that is not there is no matter. */
    method NetworkRemove()
      requires Valid() && progress.at.DropNetwork?
      modifies this`host, this`progress, this`inUse, this`states, this`actions, this`did
      ensures Valid() && progress == old(progress).(at := DropVolume)
      ensures var mine := old(Mine());
              var used := exists b :: b in mine.boxes && mine.boxes[b].network == party.Network();
              && inUse == old(inUse) + (if party.Network() in mine.networks && used then 1 else 0)
              && (used || party.Network() !in mine.networks ==> Mine() == mine)
              && (!used && honours ==> Mine() == mine.(networks := mine.networks - {party.Network()}))
      ensures Mine().boxes == old(Mine()).boxes && Mine().volumes == old(Mine()).volumes
      ensures did == old(did) + [RemovedNetwork(party.Network())]
    {
      hide Follows, Own, Clean;
      Interfere();
      Known(honours, party, states, actions, Now());
      NetworkIdleMine(party, host);
      var done: bool := *;
      var next := host;
      if party.Network() in host.networks && NetworkIdle(host, party.Network()) && (honours || done) {
        next := WithoutNetwork(host, party.Network());
      }
      Advance(Outcome(true, "", honours || done), next);
      WithoutNothing(old(Mine()).networks, party.Network());
      did := did + [RemovedNetwork(party.Network())];
    }

    method VolumeRemove()
      requires Valid() && progress.at.DropVolume?
      modifies this`host, this`progress, this`inUse, this`states, this`actions, this`did
      ensures Valid() && progress == old(progress).(at := Returned)
      ensures var mine := old(Mine());
              var used := exists b :: b in mine.boxes && mine.boxes[b].volume == Some(party.Volume());
              && inUse == old(inUse) + (if party.Volume() in mine.volumes && used then 1 else 0)
              && (used || party.Volume() !in mine.volumes ==> Mine() == mine)
              && (!used && honours ==> Mine() == mine.(volumes := mine.volumes - {party.Volume()}))
      ensures Mine().boxes == old(Mine()).boxes && Mine().networks == old(Mine()).networks
      ensures did == old(did) + [RemovedVolume(party.Volume())]
    {
      hide Follows, Own, Clean;
      Interfere();
      Known(honours, party, states, actions, Now());
      VolumeIdleMine(party, host);
      var done: bool := *;
      var next := host;
      if party.Volume() in host.volumes && VolumeIdle(host, party.Volume()) && (honours || done) {
        next := WithoutVolume(host, party.Volume());
      }
      Advance(Outcome(true, "", honours || done), next);
      WithoutNothing(old(Mine()).volumes, party.Volume());
      did := did + [RemovedVolume(party.Volume())];
    }
  }

  lemma OnlyItsVolume(honours: bool, p: Party, r: Progress, h: Host)
    requires RunOK(honours, p, r, h) && !r.at.Returned?
    ensures Own(p.Me(), h).volumes.Keys <= {p.Volume()}
    ensures p.Volume() in Own(p.Me(), h).volumes ==> Own(p.Me(), h).volumes == map[p.Volume() := p.Me()]
  {
  }

  lemma WithoutNothing(m: map<string, Owner>, name: string)
    ensures name !in m ==> m - {name} == m
  {
  }
}
