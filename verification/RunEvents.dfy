/** The events of a paired run and the story they tell. */
module RunEvents {
  datatype Kind = Status | Progress | Result | Error

  datatype Event = Event(kind: Kind, phase: string, source: string, text: string)

  const ORCHESTRATOR := "orchestrator"

  /** `terminalEventTimeout`, in milliseconds. */
  const TERMINAL_TIMEOUT := 10000

  predicate IsTerminal(ev: Event) {
    ev.kind.Result? || ev.kind.Error?
  }

  // ---------- The story of a run ----------

  datatype Beat = Beat(kind: Kind, phase: string)

  /** Kind and phase of the events whose source is the orchestrator, in order. */
  function Story(sent: seq<Event>): seq<Beat> {
    if sent == [] then []
    else
      var ev := sent[|sent| - 1];
      Story(sent[..|sent| - 1]) + if ev.source == ORCHESTRATOR then [Beat(ev.kind, ev.phase)] else []
  }

  /** The blocking sends among the events. */
  function Blocking(sent: seq<Event>): nat {
    if sent == [] then 0
    else Blocking(sent[..|sent| - 1]) + if IsTerminal(sent[|sent| - 1]) then 1 else 0
  }

  lemma OneMore(sent: seq<Event>, ev: Event)
    ensures Story(sent + [ev]) == Story(sent) + if ev.source == ORCHESTRATOR then [Beat(ev.kind, ev.phase)] else []
    ensures Blocking(sent + [ev]) == Blocking(sent) + if IsTerminal(ev) then 1 else 0
  {
    assert (sent + [ev])[..|sent|] == sent;
  }

  /** The phases a run announces, in order. */
  const PHASES := [
    "creating-network", "creating-volume", "starting-engine", "engine-starting",
    "engine-healthy", "starting-benchmark", "benchmark-running", "collecting-results"]

  function Statuses(n: nat): (beats: seq<Beat>)
    requires n <= |PHASES|
  {
    seq(n, i requires 0 <= i < n => Beat(Status, PHASES[i]))
  }

  predicate IsFinal(b: Beat) {
    b.kind.Result? || b.kind.Error?
  }

  /** The two ways a run that passed validation can end, as its orchestrator events tell it. */
  predicate Succeeds(story: seq<Beat>) {
    story == Statuses(|PHASES|) + [Beat(Result, "done")]
  }

  predicate FailsIn(story: seq<Beat>, n: nat) {
    0 < n <= |PHASES| && story == Statuses(n) + [Beat(Error, PHASES[n - 1])]
  }

  /** Of such a story exactly the last beat is final, and the beat before it is the last status: a
      result says "done" after all phases, an error names the phase last announced. */
  lemma OneFinalBeat(story: seq<Beat>, n: nat)
    requires Succeeds(story) || FailsIn(story, n)
    ensures |story| >= 2 && forall i :: 0 <= i < |story| ==> (IsFinal(story[i]) <==> i == |story| - 1)
    ensures story[|story| - 1].kind.Result? <==> Succeeds(story)
    ensures story[|story| - 1].kind.Error? ==> story[|story| - 1].phase == story[|story| - 2].phase
  {
    if Succeeds(story) {
      assert |story| == |PHASES| + 1;
    } else {
      assert |story| == n + 1 && story[n - 1] == Beat(Status, PHASES[n - 1]);
    }
  }
}
