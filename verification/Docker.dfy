/** What a Docker daemon holds, as far as paired runs use it: networks, volumes and containers, each
    with the party that made it, and what runs may count on from each other. */
module Docker {
  import opened Wrappers

  datatype Owner = Run(handle: nat) | Stranger

  /** A container: its owner, the network it is attached to and the volume it mounts. */
  datatype Box = Box(owner: Owner, network: string, volume: Option<string>)

  datatype Host = Host(networks: map<string, Owner>, volumes: map<string, Owner>, boxes: map<string, Box>)

  const NOTHING := Host(map[], map[], map[])

  /** One paired run: who it is to the daemon, and the RunID its resources are named after. */
  datatype Party = Party(handle: nat, runID: string) {
    function Me(): Owner { Run(handle) }
    function Network(): string { "bonnie-run-" + runID }
    function Volume(): string { "bonnie-results-" + runID }
  }

  function NamesOf(o: Owner, m: map<string, Owner>): map<string, Owner> { map n | n in m && m[n] == o :: m[n] }

  function OtherNames(o: Owner, m: map<string, Owner>): map<string, Owner> { map n | n in m && m[n] != o :: m[n] }

  function BoxesOf(o: Owner, m: map<string, Box>): map<string, Box> { map b | b in m && m[b].owner == o :: m[b] }

  function OtherBoxes(o: Owner, m: map<string, Box>): map<string, Box> { map b | b in m && m[b].owner != o :: m[b] }

  /** What the owner has, and what all others have. */
  function Own(o: Owner, h: Host): Host {
    Host(NamesOf(o, h.networks), NamesOf(o, h.volumes), BoxesOf(o, h.boxes))
  }

  function Rest(o: Owner, h: Host): Host {
    Host(OtherNames(o, h.networks), OtherNames(o, h.volumes), OtherBoxes(o, h.boxes))
  }

  // ---------- Dependencies ----------

  /** A network can be removed when no container is attached to it. */
  predicate NetworkIdle(h: Host, name: string) {
    forall b :: b in h.boxes ==> h.boxes[b].network != name
  }

  /** A volume can be removed when no container mounts it, running or not. */
  predicate VolumeIdle(h: Host, name: string) {
    forall b :: b in h.boxes ==> h.boxes[b].volume != Some(name)
  }

  function WithoutNetwork(h: Host, name: string): Host { h.(networks := h.networks - {name}) }

  function WithoutVolume(h: Host, name: string): Host { h.(volumes := h.volumes - {name}) }

  function WithoutBox(h: Host, id: string): Host { h.(boxes := h.boxes - {id}) }

  // ---------- Rely and guarantee ----------

  /** Whoever bears this run's names, or uses what bears them, is this run. */
  predicate Clean(p: Party, h: Host) {
    && (p.Network() in h.networks ==> h.networks[p.Network()] == p.Me())
    && (p.Volume() in h.volumes ==> h.volumes[p.Volume()] == p.Me())
    && (forall b :: b in h.boxes && (h.boxes[b].network == p.Network() || h.boxes[b].volume == Some(p.Volume())) ==>
          h.boxes[b].owner == p.Me())
  }

  /** What this run has made is under its own names. */
  predicate Tidy(p: Party, mine: Host) {
    && mine.networks.Keys <= {p.Network()}
    && mine.volumes.Keys <= {p.Volume()}
    && (forall b :: b in mine.boxes ==> b != "" && mine.boxes[b].network == p.Network()
                                        && (mine.boxes[b].volume == None || mine.boxes[b].volume == Some(p.Volume())))
  }

  /** What a step of this run does: everyone else's resources stay exactly as they are. */
  predicate Guarantee(p: Party, h: Host, h': Host) {
    Rest(p.Me(), h') == Rest(p.Me(), h) && Tidy(p, Own(p.Me(), h'))
  }

  /** What this run needs of the steps of others. */
  predicate Rely(p: Party, h: Host, h': Host) {
    Own(p.Me(), h') == Own(p.Me(), h) && (Clean(p, h) ==> Clean(p, h'))
  }

  lemma NamesKept(o: Owner, m: map<string, Owner>, m': map<string, Owner>)
    requires OtherNames(o, m') == OtherNames(o, m)
    ensures forall n :: n in m' && m'[n] != o ==> n in m && m[n] == m'[n]
  {
    forall n | n in m' && m'[n] != o ensures n in m && m[n] == m'[n] {
      assert n in OtherNames(o, m');
    }
  }

  lemma BoxesKept(o: Owner, m: map<string, Box>, m': map<string, Box>)
    requires OtherBoxes(o, m') == OtherBoxes(o, m)
    ensures forall b :: b in m' && m'[b].owner != o ==> b in m && m[b] == m'[b]
  {
    forall b | b in m' && m'[b].owner != o ensures b in m && m[b] == m'[b] {
      assert b in OtherBoxes(o, m');
    }
  }

  lemma NamesApart(p: Party, q: Party)
    requires p.runID != q.runID
    ensures p.Network() != q.Network() && p.Volume() != q.Volume()
  {
    assert p.Network()[|"bonnie-run-"|..] == p.runID && q.Network()[|"bonnie-run-"|..] == q.runID;
    assert p.Volume()[|"bonnie-results-"|..] == p.runID && q.Volume()[|"bonnie-results-"|..] == q.runID;
  }

  lemma OthersNamesKept(o: Owner, other: Owner, m: map<string, Owner>, m': map<string, Owner>)
    requires o != other && OtherNames(o, m') == OtherNames(o, m)
    ensures NamesOf(other, m') == NamesOf(other, m)
  {
    NamesKept(o, m, m');
    NamesKept(o, m', m);
  }

  lemma OthersBoxesKept(o: Owner, other: Owner, m: map<string, Box>, m': map<string, Box>)
    requires o != other && OtherBoxes(o, m') == OtherBoxes(o, m)
    ensures BoxesOf(other, m') == BoxesOf(other, m)
  {
    BoxesKept(o, m, m');
    BoxesKept(o, m', m);
  }

  /** A step that leaves all others' resources alone leaves each other owner's alone. */
  lemma OthersKept(o: Owner, other: Owner, h: Host, h': Host)
    requires o != other && Rest(o, h') == Rest(o, h)
    ensures Own(other, h') == Own(other, h)
  {
    OthersNamesKept(o, other, h.networks, h'.networks);
    OthersNamesKept(o, other, h.volumes, h'.volumes);
    OthersBoxesKept(o, other, h.boxes, h'.boxes);
  }

  lemma GuaranteeKeepsClean(p: Party, q: Party, h: Host, h': Host)
    requires p.handle != q.handle && p.runID != q.runID && Guarantee(p, h, h') && Clean(q, h)
    ensures Clean(q, h')
  {
    NamesApart(p, q);
    NamesKept(p.Me(), h.networks, h'.networks);
    NamesKept(p.Me(), h.volumes, h'.volumes);
    BoxesKept(p.Me(), h.boxes, h'.boxes);
    assert q.Network() in h'.networks && h'.networks[q.Network()] == p.Me() ==> q.Network() in Own(p.Me(), h').networks;
    assert q.Volume() in h'.volumes && h'.volumes[q.Volume()] == p.Me() ==> q.Volume() in Own(p.Me(), h').volumes;
    forall b | b in h'.boxes && (h'.boxes[b].network == q.Network() || h'.boxes[b].volume == Some(q.Volume()))
      ensures h'.boxes[b].owner == q.Me()
    {
      assert h'.boxes[b].owner == p.Me() ==> b in Own(p.Me(), h').boxes;
    }
  }

  /** Runs with distinct RunIDs give each other what they rely on. */
  lemma GuaranteeIsRely(p: Party, q: Party, h: Host, h': Host)
    requires p.handle != q.handle && p.runID != q.runID && Guarantee(p, h, h')
    ensures Rely(q, h, h')
  {
    OthersKept(p.Me(), q.Me(), h, h');
    if Clean(q, h) { GuaranteeKeepsClean(p, q, h, h'); }
  }

  // ---------- What a change does to the owner's part ----------

  lemma AddName(o: Owner, m: map<string, Owner>, name: string)
    requires name in m ==> m[name] == o
    ensures NamesOf(o, m[name := o]) == NamesOf(o, m)[name := o] && OtherNames(o, m[name := o]) == OtherNames(o, m)
  {
  }

  lemma DropName(o: Owner, m: map<string, Owner>, name: string)
    requires name in m ==> m[name] == o
    ensures NamesOf(o, m - {name}) == NamesOf(o, m) - {name} && OtherNames(o, m - {name}) == OtherNames(o, m)
  {
    assert OtherNames(o, m - {name}) == OtherNames(o, m);
  }

  lemma AddBox(o: Owner, m: map<string, Box>, id: string, box: Box)
    requires id !in m && box.owner == o
    ensures BoxesOf(o, m[id := box]) == BoxesOf(o, m)[id := box] && OtherBoxes(o, m[id := box]) == OtherBoxes(o, m)
  {
  }

  lemma DropBox(o: Owner, m: map<string, Box>, id: string)
    requires id in m && m[id].owner == o
    ensures BoxesOf(o, m - {id}) == BoxesOf(o, m) - {id} && OtherBoxes(o, m - {id}) == OtherBoxes(o, m)
  {
    assert OtherBoxes(o, m - {id}) == OtherBoxes(o, m);
  }

  /** Whether a run's network is in use shows in the run's own containers. */
  lemma NetworkIdleMine(p: Party, h: Host)
    requires Clean(p, h)
    ensures NetworkIdle(h, p.Network()) <==> NetworkIdle(Own(p.Me(), h), p.Network())
    ensures p.Network() in h.networks <==> p.Network() in Own(p.Me(), h).networks
  {
    forall b | b in h.boxes && h.boxes[b].network == p.Network() ensures b in Own(p.Me(), h).boxes {}
  }

  lemma VolumeIdleMine(p: Party, h: Host)
    requires Clean(p, h)
    ensures VolumeIdle(h, p.Volume()) <==> VolumeIdle(Own(p.Me(), h), p.Volume())
    ensures p.Volume() in h.volumes <==> p.Volume() in Own(p.Me(), h).volumes
  {
    forall b | b in h.boxes && h.boxes[b].volume == Some(p.Volume()) ensures b in Own(p.Me(), h).boxes {}
  }

  // ---------- Any number of runs, interleaved ----------

  datatype Mover = By(p: Party) | Outside

  predicate Apart(parties: set<Party>) {
    forall p, q :: p in parties && q in parties && p != q ==> p.handle != q.handle && p.runID != q.runID
  }

  ghost predicate Moved(parties: set<Party>, m: Mover, h: Host, h': Host) {
    match m
    case By(p) => p in parties && Guarantee(p, h, h')
    case Outside => forall p :: p in parties ==> Rely(p, h, h')
  }

  /** A history of the daemon: each step is one party's own, or comes from outside. */
  ghost predicate Interleaved(parties: set<Party>, states: seq<Host>, movers: seq<Mover>) {
    && |states| == |movers| + 1
    && forall i :: 0 <= i < |movers| ==> Moved(parties, movers[i], states[i], states[i + 1])
  }

  /** Between any two steps of its own a run sees only what it relies on, whoever else is at work. */
  lemma {:induction false} InterleavedRely(parties: set<Party>, states: seq<Host>, movers: seq<Mover>, p: Party,
        i: nat, j: nat)
    requires Apart(parties) && Interleaved(parties, states, movers) && p in parties && i <= j < |states|
    requires forall k :: i <= k < j ==> movers[k] != By(p)
    ensures Rely(p, states[i], states[j])
    decreases j - i
  {
    hide Guarantee, Clean, Own;
    if i < j {
      InterleavedRely(parties, states, movers, p, i, j - 1);
      assert Moved(parties, movers[j - 1], states[j - 1], states[j]);
      if movers[j - 1].By? { GuaranteeIsRely(movers[j - 1].p, p, states[j - 1], states[j]); }
    }
  }

  /** Once a returned run has nothing left, nothing of it comes back. */
  lemma GoneForGood(parties: set<Party>, states: seq<Host>, movers: seq<Mover>, p: Party, i: nat, j: nat)
    requires Apart(parties) && Interleaved(parties, states, movers) && p in parties && i <= j < |states|
    requires forall k :: i <= k < j ==> movers[k] != By(p)
    requires Own(p.Me(), states[i]) == NOTHING && Clean(p, states[i])
    ensures Own(p.Me(), states[j]) == NOTHING && Clean(p, states[j])
    ensures p.Network() !in states[j].networks && p.Volume() !in states[j].volumes
  {
    InterleavedRely(parties, states, movers, p, i, j);
    NothingLeft(p, states[j]);
  }

  lemma NothingLeft(p: Party, h: Host)
    requires Own(p.Me(), h) == NOTHING && Clean(p, h)
    ensures p.Network() !in h.networks && p.Volume() !in h.volumes
    ensures NetworkIdle(h, p.Network()) && VolumeIdle(h, p.Volume())
  {
    assert p.Network() in h.networks ==> p.Network() in Own(p.Me(), h).networks;
    assert p.Volume() in h.volumes ==> p.Volume() in Own(p.Me(), h).volumes;
    assert forall b :: b in h.boxes && h.boxes[b].owner == p.Me() ==> b in Own(p.Me(), h).boxes;
  }

  // ---------- Removal by name ----------

  /** What the daemon does when asked to remove a network by name. */
  function NetworkRemoved(h: Host, name: string): Host {
    if name in h.networks && NetworkIdle(h, name) then WithoutNetwork(h, name) else h
  }

  function VolumeRemoved(h: Host, name: string): Host {
    if name in h.volumes && VolumeIdle(h, name) then WithoutVolume(h, name) else h
  }

  predicate TakenByOther(p: Party, owners: map<string, Owner>, name: string, idle: bool) {
    name in owners && owners[name] != p.Me() && idle
  }

  /** Cleanup removes the network and the volume by name even when their creation failed. It spares
      everyone else's exactly when nobody else has an idle network or volume of that name. */
  lemma RemovalByNameSparesIff(p: Party, h: Host)
    ensures Rest(p.Me(), VolumeRemoved(NetworkRemoved(h, p.Network()), p.Volume())) == Rest(p.Me(), h)
       <==> !TakenByOther(p, h.networks, p.Network(), NetworkIdle(h, p.Network()))
            && !TakenByOther(p, h.volumes, p.Volume(), VolumeIdle(h, p.Volume()))
  {
    var n := NetworkRemoved(h, p.Network());
    assert VolumeIdle(n, p.Volume()) == VolumeIdle(h, p.Volume());
    DroppingSparesIff(p.Me(), h.networks, p.Network());
    DroppingSparesIff(p.Me(), h.volumes, p.Volume());
  }

  lemma DroppingSparesIff(o: Owner, m: map<string, Owner>, name: string)
    ensures OtherNames(o, m - {name}) == OtherNames(o, m) <==> !(name in m && m[name] != o)
  {
    if name in m && m[name] != o {
      assert name in OtherNames(o, m) && name !in OtherNames(o, m - {name});
    } else {
      assert OtherNames(o, m - {name}) == OtherNames(o, m);
    }
  }

  /** Two runs under one RunID: the second cannot create its network, and its cleanup takes the
      first one's, which no container uses yet. */
  lemma SameRunIDTakesNetwork(runID: string) returns (h: Host)
    ensures var first, second := Party(0, runID), Party(1, runID);
            && Clean(first, h) && Own(first.Me(), h) == Host(map[first.Network() := first.Me()], map[], map[])
            && Own(first.Me(), NetworkRemoved(h, second.Network())) == NOTHING
  {
    var first := Party(0, runID);
    h := Host(map[first.Network() := first.Me()], map[], map[]);
    assert Own(first.Me(), h).networks == h.networks;
  }
}
