/** Waiting for the engine: `waitEngineHealthy` as a loop over polls, and what its answer means. */
module Health {
  import opened Int64
  import opened Wrappers
  import opened RunEvents
  import opened RunStates

  datatype HealthCheck = HealthCheck(path: string, port: int, timeoutSeconds: int)

  /** Network name to address, as ContainerInspect reports it; an endpoint may be missing. */
  datatype Inspection = Inspection(networks: Option<map<string, Option<string>>>)

  /** What one turn of the loop meets: whether the context is done at its head, what the inspection
      gives (nothing when the call fails), whether a check of the engine would pass, how long both
      took in nanoseconds beyond the pause, and whether the context is done during the pause. */
  datatype Poll = Poll(cancelled: bool, inspection: Option<Inspection>, passes: bool, took: nat, stopped: bool)

  datatype Answer = Healthy(ip: string) | Cancelled | TimedOut

  const SECOND := 1000000000
  const PAUSE := 2 * SECOND
  const DEFAULT_TIMEOUT := 300

  function EffectiveTimeout(hc: HealthCheck): int {
    if hc.timeoutSeconds <= 0 then DEFAULT_TIMEOUT else hc.timeoutSeconds
  }

  /** Half the timeout in seconds, rounded up. */
  function MostPolls(hc: HealthCheck): int {
    (EffectiveTimeout(hc) + 1) / 2
  }

  /** The nanoseconds from the start to the deadline, a Duration. */
  function Window(hc: HealthCheck): int {
    Wrap64(EffectiveTimeout(hc) * SECOND)
  }

  function EndpointIP(info: Inspection, network: string): string {
    if info.networks.None? || network !in info.networks.value then ""
    else match info.networks.value[network] case None => "" case Some(ip) => ip
  }

  function SeenIP(p: Poll, network: string): string {
    if p.inspection.None? then "" else EndpointIP(p.inspection.value, network)
  }

  /** The engine answers in this poll: it has an address, and the configured check passes. */
  predicate Ready(hc: HealthCheck, p: Poll, network: string) {
    && SeenIP(p, network) != ""
    && (hc.path == "" || (hc.port != 0 && p.passes))
  }

  /** When poll `i` starts, counted from the first. */
  function StartOf(world: nat -> Poll, i: nat): nat {
    if i == 0 then 0 else StartOf(world, i - 1) + world(i - 1).took + PAUSE
  }

  /** Nothing in the poll ends the wait. */
  predicate GoesOn(hc: HealthCheck, network: string, p: Poll) {
    !p.cancelled && !Ready(hc, p, network) && !p.stopped
  }

  ghost predicate AllGoOn(hc: HealthCheck, network: string, world: nat -> Poll, i: nat) {
    forall j: nat :: j < i ==> GoesOn(hc, network, world(j))
  }

  /** Poll `i` takes place: the deadline has not passed and nothing before it ended the wait. */
  ghost predicate Reached(hc: HealthCheck, network: string, world: nat -> Poll, i: nat) {
    StartOf(world, i) < Window(hc) && AllGoOn(hc, network, world, i)
  }

  lemma {:induction false} StartsApart(world: nat -> Poll, i: nat)
    ensures StartOf(world, i) >= i * PAUSE
  {
    if i > 0 { StartsApart(world, i - 1); }
  }

  lemma WindowBounded(hc: HealthCheck)
    ensures Window(hc) <= EffectiveTimeout(hc) * SECOND
  {
  }

  /** No more polls take place than half the timeout in seconds, rounded up. Where the conversion to
      a Duration overflows, the window only shrinks. */
  lemma PollsBounded(hc: HealthCheck, network: string, world: nat -> Poll, i: nat)
    requires Reached(hc, network, world, i)
    ensures i < MostPolls(hc)
  {
    StartsApart(world, i);
    WindowBounded(hc);
  }

  /** What the wait answers if poll `i` ends it. */
  function AnswerAt(hc: HealthCheck, network: string, p: Poll): Answer {
    if !p.cancelled && Ready(hc, p, network) then Healthy(SeenIP(p, network)) else Cancelled
  }

  ghost predicate EndedBy(hc: HealthCheck, network: string, world: nat -> Poll, i: nat, a: Answer) {
    Reached(hc, network, world, i) && !GoesOn(hc, network, world(i)) && a == AnswerAt(hc, network, world(i))
  }

  ghost predicate Outlasted(hc: HealthCheck, network: string, world: nat -> Poll, i: nat) {
    StartOf(world, i) >= Window(hc) && AllGoOn(hc, network, world, i)
  }

  /** What the wait may answer: what the first poll that does not go on says, if it starts before
      the deadline; otherwise that the deadline passed. */
  ghost predicate AnswerFits(hc: HealthCheck, network: string, world: nat -> Poll, a: Answer) {
    if a.TimedOut? then exists i :: Outlasted(hc, network, world, i) else exists i :: EndedBy(hc, network, world, i, a)
  }

  // ---------- What that means for the caller ----------

  /** The deadline: 300 seconds after the start when no timeout is configured, otherwise as many as it says,
      as long as they fit a Duration; and two seconds pass between polls besides what these take. */
  lemma DeadlineMeans(hc: HealthCheck, world: nat -> Poll, i: nat)
    ensures hc.timeoutSeconds <= 0 ==> Window(hc) == 300_000_000_000 && MostPolls(hc) == 150
    ensures 0 < hc.timeoutSeconds <= 9_223_372_036 ==> Window(hc) == hc.timeoutSeconds * 1_000_000_000
    ensures 0 < hc.timeoutSeconds ==> 2 * MostPolls(hc) - 1 <= hc.timeoutSeconds <= 2 * MostPolls(hc)
    ensures StartOf(world, 0) == 0 && StartOf(world, i + 1) == StartOf(world, i) + world(i).took + 2_000_000_000
  {
  }

  /** The inspection shows this address on the network. */
  predicate Shows(p: Poll, network: string, ip: string) {
    && p.inspection.Some? && p.inspection.value.networks.Some?
    && network in p.inspection.value.networks.value
    && p.inspection.value.networks.value[network] == Some(ip)
  }

  /** The poll neither ends with the context nor finds the engine ready: it shows no address, or there is a
      health path and no port or no good answer. */
  ghost predicate FindsNothing(hc: HealthCheck, network: string, p: Poll) {
    && !p.cancelled && !p.stopped
    && ((forall ip :: Shows(p, network, ip) ==> ip == "") || (hc.path != "" && (hc.port == 0 || !p.passes)))
  }

  lemma FindsNothingIff(hc: HealthCheck, network: string, p: Poll)
    ensures FindsNothing(hc, network, p) <==> GoesOn(hc, network, p)
  {
    assert Shows(p, network, SeenIP(p, network)) || SeenIP(p, network) == "";
  }

  /** Poll `i` is the first that does not find nothing; it begins before the deadline and before the context is
      done, shows the address, and the check is not configured or passes. */
  ghost predicate FindsEngine(hc: HealthCheck, network: string, world: nat -> Poll, i: nat, ip: string) {
    && StartOf(world, i) < Window(hc) && (forall j: nat :: j < i ==> FindsNothing(hc, network, world(j)))
    && !world(i).cancelled && Shows(world(i), network, ip) && ip != ""
    && (hc.path == "" || (hc.port != 0 && world(i).passes))
  }

  /** A ready engine is found, and what is found is a ready engine: the answer is an address exactly when the
      first poll that finds something finds this address. */
  lemma HealthyIff(hc: HealthCheck, network: string, world: nat -> Poll, a: Answer, ip: string)
    requires AnswerFits(hc, network, world, a)
    ensures a == Healthy(ip) <==> exists i :: FindsEngine(hc, network, world, i, ip)
    ensures a == Healthy(ip) ==> exists i: nat :: i < MostPolls(hc) && FindsEngine(hc, network, world, i, ip)
  {
    hide StartOf, Window, FindsNothing;
    forall i: nat ensures FindsNothing(hc, network, world(i)) <==> GoesOn(hc, network, world(i)) {
      FindsNothingIff(hc, network, world(i));
    }
    if a == Healthy(ip) {
      var i :| EndedBy(hc, network, world, i, a);
      PollsBounded(hc, network, world, i);
      assert FindsEngine(hc, network, world, i, ip);
    }
    if i :| FindsEngine(hc, network, world, i, ip) {
      assert EndedBy(hc, network, world, i, Healthy(ip));
      AnswerDetermined(hc, network, world, a, Healthy(ip));
    }
  }

  /** The wait times out exactly when every poll before the deadline finds nothing. */
  lemma TimesOutIff(hc: HealthCheck, network: string, world: nat -> Poll, a: Answer)
    requires AnswerFits(hc, network, world, a)
    ensures a.TimedOut? <==> forall i: nat :: StartOf(world, i) < Window(hc) ==> FindsNothing(hc, network, world(i))
  {
    hide StartOf, Window, FindsNothing;
    if a.TimedOut? {
      var n: nat :| Outlasted(hc, network, world, n);
      forall i: nat | StartOf(world, i) < Window(hc) ensures FindsNothing(hc, network, world(i)) {
        if n <= i { LaterStarts(world, n, i); }
        FindsNothingIff(hc, network, world(i));
      }
    } else {
      var i :| EndedBy(hc, network, world, i, a);
      FindsNothingIff(hc, network, world(i));
    }
  }

  lemma {:induction false} LaterStarts(world: nat -> Poll, i: nat, j: nat)
    requires i <= j
    ensures StartOf(world, i) <= StartOf(world, j)
    decreases j
  {
    if i < j { LaterStarts(world, i, j - 1); }
  }

  lemma EarlierGoesOn(hc: HealthCheck, network: string, world: nat -> Poll, i: nat, j: nat)
    ensures i < j && AllGoOn(hc, network, world, j) ==> GoesOn(hc, network, world(i))
  {
  }

  lemma OneEnd(hc: HealthCheck, network: string, world: nat -> Poll, i: nat, j: nat, a: Answer)
    requires EndedBy(hc, network, world, i, a)
    ensures !Outlasted(hc, network, world, j)
    ensures forall b :: EndedBy(hc, network, world, j, b) ==> b == a
  {
    hide StartOf, Window, GoesOn, AnswerAt;
    if j <= i { LaterStarts(world, j, i); }
    EarlierGoesOn(hc, network, world, i, j);
    EarlierGoesOn(hc, network, world, j, i);
  }

  /** The answer is determined by what the polls meet. */
  lemma AnswerDetermined(hc: HealthCheck, network: string, world: nat -> Poll, a: Answer, b: Answer)
    requires AnswerFits(hc, network, world, a) && AnswerFits(hc, network, world, b)
    ensures a == b
  {
    hide EndedBy, Outlasted;
    if !a.TimedOut? {
      var i :| EndedBy(hc, network, world, i, a);
      forall j ensures !Outlasted(hc, network, world, j) { OneEnd(hc, network, world, i, j, a); }
      assert !b.TimedOut?;
      var j :| EndedBy(hc, network, world, j, b);
      OneEnd(hc, network, world, i, j, a);
    } else if !b.TimedOut? {
      var i :| EndedBy(hc, network, world, i, b);
      forall j ensures !Outlasted(hc, network, world, j) { OneEnd(hc, network, world, i, j, b); }
    }
  }

  /** The loop stands before poll `i`. */
  ghost predicate Waiting(hc: HealthCheck, network: string, world: nat -> Poll, now: nat, i: nat) {
    now == StartOf(world, i) && AllGoOn(hc, network, world, i) && i <= MostPolls(hc)
  }

  lemma Beginning(hc: HealthCheck, network: string, world: nat -> Poll)
    ensures Waiting(hc, network, world, 0, 0)
  {
  }

  /** What each way through a poll amounts to. */
  lemma PollEnds(hc: HealthCheck, network: string, world: nat -> Poll, now: nat, i: nat)
    requires Waiting(hc, network, world, now, i) && now < Window(hc)
    ensures i + 1 <= MostPolls(hc)
    ensures world(i).cancelled ==> EndedBy(hc, network, world, i, Cancelled)
    ensures !world(i).cancelled && Ready(hc, world(i), network) ==>
          EndedBy(hc, network, world, i, Healthy(SeenIP(world(i), network)))
    ensures !Ready(hc, world(i), network) && world(i).stopped ==> EndedBy(hc, network, world, i, Cancelled)
    ensures forall a: Answer :: !a.TimedOut? && EndedBy(hc, network, world, i, a) ==> AnswerFits(hc, network, world, a)
    ensures !world(i).cancelled && !Ready(hc, world(i), network) && !world(i).stopped
        ==> Waiting(hc, network, world, now + world(i).took + PAUSE, i + 1)
  {
    PollsBounded(hc, network, world, i);
    if !GoesOn(hc, network, world(i)) { assert EndedBy(hc, network, world, i, AnswerAt(hc, network, world(i))); }
  }

  lemma DeadlineEnds(hc: HealthCheck, network: string, world: nat -> Poll, now: nat, i: nat)
    requires Waiting(hc, network, world, now, i) && now >= Window(hc)
    ensures AnswerFits(hc, network, world, TimedOut) && Outlasted(hc, network, world, i) && i <= MostPolls(hc)
  {
    assert Outlasted(hc, network, world, i);
  }

  /** A progress event for every poll that finds the engine not ready. */
  function Waits(n: nat): seq<Event> {
    seq(n, _ => Event(Progress, "engine-starting", "engine", "waiting for engine health"))
  }

  lemma OneMoreWait(n: nat)
    ensures Waits(n + 1) == Waits(n) + [WAITING] && Waits(0) == []
  {
  }

  const WAITING := Event(Progress, "engine-starting", "engine", "waiting for engine health")

  /** What one inspection and check of the engine come to. */
  method Look(hc: HealthCheck, network: string, p: Poll) returns (ip: Option<string>)
    ensures ip == if Ready(hc, p, network) then Some(SeenIP(p, network)) else None
  {
    hide EndpointIP;
    if p.inspection.None? { return None; }
    var seen := EndpointIP(p.inspection.value, network);
    if seen != "" && hc.path != "" && hc.port != 0 {
      if p.passes { return Some(seen); }
    } else if seen != "" && hc.path == "" {
      return Some(seen);
    }
    ip := None;
  }

  /** `waitEngineHealthy`. */
  method WaitEngineHealthy(hc: HealthCheck, network: string, world: nat -> Poll, state: RunState)
    returns (a: Answer, polls: nat)
    requires state.Valid()
    modifies state`chan, state`sent, state`waited, state`mine
    ensures AnswerFits(hc, network, world, a)
    ensures if a.TimedOut? then Outlasted(hc, network, world, polls)
            else polls >= 1 && EndedBy(hc, network, world, polls - 1, a)
    ensures polls <= MostPolls(hc)
    ensures var last := if a.Healthy? || (a.Cancelled? && world(polls - 1).cancelled) then 1 else 0;
            state.sent == old(state.sent) + Waits(polls - last)
    ensures Story(state.sent) == Story(old(state.sent)) && Blocking(state.sent) == Blocking(old(state.sent))
    ensures state.Valid() && state.waited == old(state.waited)
  {
    hide Window, Waiting, AnswerFits, EndpointIP, MostPolls, Story, Blocking, RunState.Valid, Ready, SeenIP, Waits,
         EndedBy, Outlasted;
    Beginning(hc, network, world);
    OneMoreWait(0);
    var now := 0;
    polls := 0;
    while now < Window(hc)
      invariant Waiting(hc, network, world, now, polls)
      invariant Story(state.sent) == Story(old(state.sent)) && Blocking(state.sent) == Blocking(old(state.sent))
      invariant state.Valid() && state.waited == old(state.waited)
      invariant state.sent == old(state.sent) + Waits(polls)
      decreases Window(hc) - now
    {
      OneMoreWait(polls);
      var p := world(polls);
      PollEnds(hc, network, world, now, polls);
      if p.cancelled { return Cancelled, polls + 1; }
      var ip := Look(hc, network, p);
      if ip.Some? { return Healthy(ip.value), polls + 1; }
      state.Emit(WAITING);
      if p.stopped { return Cancelled, polls + 1; }
      now := now + p.took + PAUSE;
      polls := polls + 1;
    }
    DeadlineEnds(hc, network, world, now, polls);
    a := TimedOut;
  }
}
