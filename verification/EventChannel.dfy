/** The event channel between the goroutines of a paired run and the handler that frames its events
    for the client: a bounded buffer, a queue of blocked senders, and one consumer that may leave. */
module EventChannel {
  import opened RunEvents

  /** The buffer of `make(chan PairedRunEvent, 64)`. */
  const CAP := 64

  /** One call of `emit`: what was sent, and when. */
  datatype Attempt = Attempt(event: Event, at: nat)

  /** The handler reads on; has noticed that the client is gone and waits for the run; has seen the
      channel closed and empty and waits for the run; has returned early; has returned at the end. */
  datatype Handler = Streaming | Leaving | Ending | Gone | Drained

  /** Sends are known by their place in `attempts`. `buf` is the channel's buffer, `waiting` its
      blocked senders, `accepted` the sends it took, in order, `lost` the given up ones with the time,
      and `frames` what the client has been written. `panicked` says that the process went down over a send
      on the closed channel, `returned` that the run's error is in `runErr`. */
  datatype Chan = Chan(
    attempts: seq<Attempt>, buf: seq<nat>, waiting: seq<nat>, accepted: seq<nat>, lost: map<nat, nat>,
    frames: seq<nat>, now: nat, closed: bool, panicked: bool, returned: bool, handler: Handler)

  datatype Action =
    | Send(event: Event)
    | GiveUp(k: nat)
    | Receive(written: bool)
    | Disconnect
    | Close
    | Return
    | SeeClosed
    | GetResult
    | Tick(later: nat)

  // ---------- Steps ----------

  /** `emit`: taken at once if the buffer has room; otherwise a terminal event waits in line and any
      other is dropped. */
  function Sent(s: Chan, ev: Event): Chan {
    var i := |s.attempts|;
    var t := s.(attempts := s.attempts + [Attempt(ev, s.now)]);
    if |s.buf| < CAP then t.(buf := s.buf + [i], accepted := s.accepted + [i])
    else if IsTerminal(ev) then t.(waiting := s.waiting + [i])
    else t.(lost := s.lost[i := s.now])
  }

  /** A receive: the head of the buffer goes out, and the first blocked sender gets its place. */
  function Taken(s: Chan): Chan
    requires s.buf != []
  {
    if s.waiting == [] then s.(buf := s.buf[1..])
    else s.(buf := s.buf[1..] + [s.waiting[0]], waiting := s.waiting[1..], accepted := s.accepted + [s.waiting[0]])
  }

  /** When the `k`th blocked sender runs out of patience. */
  function Due(s: Chan, k: nat): nat
    requires k < |s.waiting| && s.waiting[k] < |s.attempts|
  {
    s.attempts[s.waiting[k]].at + TERMINAL_TIMEOUT
  }

  /** Time does not pass the moment at which a sender's timer goes off, and nothing happens any more
      when the process is down. Nobody joins the log goroutines before the close: it finds blocked
      whoever is, and sends come after it as before. */
  predicate Enabled(s: Chan, a: Action) {
    !s.panicked
    && match a
    case Send(_) => true
    case GiveUp(k) => k < |s.waiting| && s.waiting[k] < |s.attempts| && s.now >= Due(s, k)
    case Receive(_) => s.handler.Streaming? && s.buf != []
    case Disconnect => s.handler.Streaming?
    case Close => !s.closed
    case Return => s.closed && !s.returned
    case SeeClosed => s.handler.Streaming? && s.closed && s.buf == []
    case GetResult => (s.handler.Leaving? || s.handler.Ending?) && s.returned
    case Tick(later) =>
      s.now <= later && forall k :: 0 <= k < |s.waiting| && s.waiting[k] < |s.attempts| ==> later <= Due(s, k)
  }

  function Next(s: Chan, a: Action): Chan
    requires Enabled(s, a)
  {
    match a
    case Send(ev) => if s.closed then s.(panicked := true) else Sent(s, ev)
    case GiveUp(k) => s.(waiting := s.waiting[..k] + s.waiting[k + 1..], lost := s.lost[s.waiting[k] := s.now])
    case Receive(written) => if written then Taken(s).(frames := s.frames + [s.buf[0]]) else Taken(s).(handler := Gone)
    case Disconnect => s.(handler := Leaving)
    case Close => s.(closed := true, panicked := s.waiting != [])
    case Return => s.(returned := true)
    case SeeClosed => s.(handler := Ending)
    case GetResult => s.(handler := if s.handler.Leaving? then Gone else Drained)
    case Tick(later) => s.(now := later)
  }

  predicate Step(s: Chan, a: Action, s': Chan) {
    Enabled(s, a) && s' == Next(s, a)
  }

  const OPENED := Chan([], [], [], [], map[], [], 0, false, false, false, Streaming)

  // ---------- The invariant ----------

  predicate Increasing(s: seq<nat>) {
    forall i, j :: 0 <= i < j < |s| ==> s[i] < s[j]
  }

  predicate Below(s: seq<nat>, n: nat) {
    forall i :: 0 <= i < |s| ==> s[i] < n
  }

  /** A send is at most one of taken, waiting and lost, and it is one of them. */
  ghost predicate Settled(s: Chan) {
    && (forall i :: i in s.lost ==> i < |s.attempts| && i !in s.accepted && i !in s.waiting)
    && (forall i: nat :: i < |s.attempts| ==> i in s.accepted || i in s.waiting || i in s.lost)
  }

  /** A terminal event is lost exactly when its timeout is over, any other in the moment it is sent. */
  ghost predicate LossOK(s: Chan) {
    forall i :: i in s.lost && i < |s.attempts| ==>
      s.lost[i] == s.attempts[i].at + if IsTerminal(s.attempts[i].event) then TERMINAL_TIMEOUT else 0
  }

  /** Sends are attempted in the order of time, and none waits beyond its timeout. */
  predicate Timely(s: Chan) {
    && (forall i, j :: 0 <= i < j < |s.attempts| ==> s.attempts[i].at <= s.attempts[j].at)
    && (forall i :: 0 <= i < |s.attempts| ==> s.attempts[i].at <= s.now)
    && (forall k :: 0 <= k < |s.waiting| && s.waiting[k] < |s.attempts| ==> s.now <= Due(s, k))
  }

  predicate Framed(s: Chan) {
    match s.handler
    case Streaming => s.accepted == s.frames + s.buf
    case Leaving => s.frames <= s.accepted
    case Gone => s.frames <= s.accepted
    case Ending => s.frames == s.accepted && s.closed && s.buf == []
    case Drained => s.frames == s.accepted && s.closed && s.buf == [] && s.returned
  }

  /** The sends in line, behind those taken. */
  predicate InLine(s: Chan) {
    && Increasing(s.accepted + s.waiting) && Below(s.accepted + s.waiting, |s.attempts|)
    && |s.buf| <= CAP
    && (s.waiting != [] ==> |s.buf| == CAP)
    && (forall k :: 0 <= k < |s.waiting| && s.waiting[k] < |s.attempts| ==> IsTerminal(s.attempts[s.waiting[k]].event))
  }

  ghost predicate Inv(s: Chan) {
    && InLine(s) && Settled(s) && LossOK(s) && Timely(s) && Framed(s)
    && (s.closed ==> s.waiting == [] || s.panicked) && (s.panicked || s.returned ==> s.closed)
  }

  lemma IncreasingExtends(s: seq<nat>, n: nat)
    requires Increasing(s) && Below(s, n)
    ensures Increasing(s + [n]) && Below(s + [n], n + 1) && n !in s
  {
  }

  /** Dropping one element of the second part. */
  lemma DropAt(a: seq<nat>, b: seq<nat>, k: nat, i: nat)
    requires k < |b| && i < |a| + |b| - 1
    ensures (a + (b[..k] + b[k + 1..]))[i] == (a + b)[if i < |a| + k then i else i + 1]
  {
  }

  lemma IncreasingDrops(a: seq<nat>, b: seq<nat>, k: nat, n: nat)
    requires k < |b| && Increasing(a + b) && Below(a + b, n)
    ensures Increasing(a + (b[..k] + b[k + 1..])) && Below(a + (b[..k] + b[k + 1..]), n)
  {
    var t, u := a + b, a + (b[..k] + b[k + 1..]);
    forall i | 0 <= i < |u| ensures u[i] == t[if i < |a| + k then i else i + 1] { DropAt(a, b, k, i); }
    forall i, j | 0 <= i < j < |u| ensures u[i] < u[j] {
      assert u[i] == t[if i < |a| + k then i else i + 1] && u[j] == t[if j < |a| + k then j else j + 1];
    }
  }

  lemma DroppedIsGone(a: seq<nat>, b: seq<nat>, k: nat)
    requires k < |b| && Increasing(a + b)
    ensures b[k] !in a && b[k] !in b[..k] + b[k + 1..]
    ensures forall i :: i in b && i != b[k] ==> i in b[..k] + b[k + 1..]
  {
    var t, rest := a + b, b[..k] + b[k + 1..];
    forall i | 0 <= i < |a| ensures a[i] != b[k] { assert t[i] < t[|a| + k]; }
    forall i | 0 <= i < |b| && i != k ensures b[i] != b[k] && b[i] in rest {
      assert if i < k then t[|a| + i] < t[|a| + k] else t[|a| + k] < t[|a| + i];
      assert rest[if i < k then i else i - 1] == b[i];
    }
  }

  lemma SendKeepsLine(s: Chan, ev: Event)
    requires InLine(s)
    ensures InLine(Sent(s, ev))
  {
    var i := |s.attempts|;
    IncreasingExtends(s.accepted + s.waiting, i);
    var t := Sent(s, ev);
    if |s.buf| < CAP {
      assert t.accepted + t.waiting == s.accepted + s.waiting + [i];
    } else if IsTerminal(ev) {
      assert t.accepted + t.waiting == s.accepted + s.waiting + [i];
    }
  }

  lemma FreshSend(s: Chan)
    requires InLine(s)
    ensures |s.attempts| !in s.accepted && |s.attempts| !in s.waiting
  {
    var all := s.accepted + s.waiting;
    forall k | 0 <= k < |s.waiting| ensures s.waiting[k] < |s.attempts| { assert all[|s.accepted| + k] < |s.attempts|; }
    forall k | 0 <= k < |s.accepted| ensures s.accepted[k] < |s.attempts| { assert all[k] < |s.attempts|; }
  }

  lemma SendKeepsSettled(s: Chan, ev: Event)
    requires InLine(s) && Settled(s)
    ensures Settled(Sent(s, ev))
  {
    FreshSend(s);
    hide InLine;
    var i, t := |s.attempts|, Sent(s, ev);
    forall j: nat | j < |t.attempts| ensures j in t.accepted || j in t.waiting || j in t.lost {
      assert j < i ==> j in s.accepted || j in s.waiting || j in s.lost;
    }
  }

  lemma SendKeepsLoss(s: Chan, ev: Event)
    requires LossOK(s) && forall j :: j in s.lost ==> j < |s.attempts|
    ensures LossOK(Sent(s, ev))
  {
    var t := Sent(s, ev);
    forall j | j in t.lost && j < |t.attempts|
      ensures t.lost[j] == t.attempts[j].at + if IsTerminal(t.attempts[j].event) then TERMINAL_TIMEOUT else 0
    {
      assert j < |s.attempts| ==> t.attempts[j] == s.attempts[j];
    }
  }

  lemma SendKeepsRest(s: Chan, ev: Event)
    requires Inv(s) && !s.closed
    ensures Settled(Sent(s, ev)) && LossOK(Sent(s, ev)) && Framed(Sent(s, ev))
  {
    hide InLine, LossOK, Timely;
    SendKeepsSettled(s, ev);
    SendKeepsLoss(s, ev);
  }

  lemma TakeKeepsLine(s: Chan)
    requires InLine(s) && s.buf != []
    ensures InLine(Taken(s))
    ensures forall i :: i in Taken(s).accepted || i in Taken(s).waiting <==> i in s.accepted || i in s.waiting
  {
    var t := Taken(s);
    assert t.accepted + t.waiting == s.accepted + s.waiting;
    forall i ensures i in t.accepted || i in t.waiting <==> i in s.accepted || i in s.waiting {
      assert i in t.accepted + t.waiting <==> i in t.accepted || i in t.waiting;
      assert i in s.accepted + s.waiting <==> i in s.accepted || i in s.waiting;
    }
  }

  lemma ReceiveFramed(s: Chan, written: bool)
    requires Framed(s) && Enabled(s, Receive(written))
    ensures Framed(Next(s, Receive(written)))
  {
    var t := Taken(s);
    assert s.buf == [s.buf[0]] + s.buf[1..];
    assert t.accepted == s.frames + [s.buf[0]] + t.buf;
  }

  lemma TakeKeepsTime(s: Chan)
    requires Timely(s) && s.buf != []
    ensures Timely(Taken(s))
  {
    var t := Taken(s);
    forall k | 0 <= k < |t.waiting| && t.waiting[k] < |t.attempts| ensures t.now <= Due(t, k) {
      assert t.waiting[k] == s.waiting[k + 1] && s.now <= Due(s, k + 1);
    }
  }

  lemma SameLine(s: Chan, t: Chan)
    requires InLine(s) && Timely(s) && t == s.(frames := t.frames, handler := t.handler)
    ensures InLine(t) && Timely(t)
  {
  }

  lemma ReceiveKeeps(s: Chan, written: bool)
    requires Inv(s) && Enabled(s, Receive(written))
    ensures Inv(Next(s, Receive(written)))
  {
    hide InLine, Timely, Framed;
    TakeKeepsLine(s);
    TakeKeepsTime(s);
    ReceiveFramed(s, written);
    SameLine(Taken(s), Next(s, Receive(written)));
  }

  lemma GiveUpKeepsLine(s: Chan, k: nat, s': Chan)
    requires InLine(s) && Timely(s) && Step(s, GiveUp(k), s')
    ensures InLine(s') && Timely(s')
  {
    IncreasingDrops(s.accepted, s.waiting, k, |s.attempts|);
    hide Increasing;
    forall j | 0 <= j < |s'.waiting| ensures s'.waiting[j] == s.waiting[if j < k then j else j + 1] {}
  }

  lemma GiveUpKeeps(s: Chan, k: nat, s': Chan)
    requires Inv(s) && Step(s, GiveUp(k), s')
    ensures Inv(s')
  {
    GiveUpKeepsLine(s, k, s');
    DroppedIsGone(s.accepted, s.waiting, k);
    assert s.now == Due(s, k);
    WaitingTerminal(s, k);
    hide InLine, Increasing, Below, Timely;
  }

  lemma WaitingTerminal(s: Chan, k: nat)
    requires InLine(s) && k < |s.waiting|
    ensures s.waiting[k] < |s.attempts| && IsTerminal(s.attempts[s.waiting[k]].event)
  {
    assert (s.accepted + s.waiting)[|s.accepted| + k] == s.waiting[k];
  }

  /** Every step, of whichever goroutine, keeps the invariant. */
  lemma StepKeeps(s: Chan, a: Action, s': Chan)
    requires Inv(s) && Step(s, a, s')
    ensures Inv(s')
  {
    match a
    case Send(ev) =>
      if s.closed { OtherKeeps(s, a, s'); } else { SendKeepsLine(s, ev); SendKeepsTime(s, ev); SendKeepsRest(s, ev); }
    case GiveUp(k) => GiveUpKeeps(s, k, s');
    case Receive(written) => ReceiveKeeps(s, written);
    case _ => OtherKeeps(s, a, s');
  }

  lemma SendKeepsTime(s: Chan, ev: Event)
    requires InLine(s) && Timely(s)
    ensures Timely(Sent(s, ev))
  {
    forall k | 0 <= k < |s.waiting| ensures s.waiting[k] < |s.attempts| && s.now <= Due(s, k) {
      WaitingTerminal(s, k);
    }
    OneMoreInTime(s, Sent(s, ev), ev);
  }

  lemma OneMoreInTime(s: Chan, t: Chan, ev: Event)
    requires Timely(s) && t.attempts == s.attempts + [Attempt(ev, s.now)] && t.now == s.now
    requires t.waiting == s.waiting || t.waiting == s.waiting + [|s.attempts|]
    requires forall k :: 0 <= k < |s.waiting| ==> s.waiting[k] < |s.attempts| && s.now <= Due(s, k)
    ensures Timely(t)
  {
    forall i | 0 <= i < |s.attempts| ensures t.attempts[i] == s.attempts[i] {}
  }

  lemma OtherKeeps(s: Chan, a: Action, s': Chan)
    requires Inv(s) && Step(s, a, s') && (a.Send? ==> s.closed) && !a.GiveUp? && !a.Receive?
    ensures Inv(s')
  {
    hide Increasing, Below;
  }

  // ---------- Whole schedules ----------

  ghost predicate IsSchedule(states: seq<Chan>, actions: seq<Action>) {
    && |states| == |actions| + 1 && states[0] == OPENED
    && forall i :: 0 <= i < |actions| ==> Step(states[i], actions[i], states[i + 1])
  }

  lemma OpenedHolds()
    ensures Inv(OPENED)
  {
  }

  lemma {:induction false} ScheduleHolds(states: seq<Chan>, actions: seq<Action>, i: nat)
    requires IsSchedule(states, actions) && i < |states|
    ensures Inv(states[i])
  {
    hide Step, Inv;
    if i == 0 {
      OpenedHolds();
    } else {
      ScheduleHolds(states, actions, i - 1);
      assert Step(states[i - 1], actions[i - 1], states[i]);
      StepKeeps(states[i - 1], actions[i - 1], states[i]);
    }
  }

  /** The channel has come about by a schedule, so all that is shown of schedules holds of it. */
  ghost predicate Scheduled(s: Chan) {
    exists states, actions :: IsSchedule(states, actions) && states[|actions|] == s
  }

  lemma OpenedScheduled()
    ensures Scheduled(OPENED)
  {
    var states: seq<Chan>, actions: seq<Action> := [OPENED], [];
    assert IsSchedule(states, actions) && states[|actions|] == OPENED;
  }

  lemma ScheduledOn(s: Chan, a: Action)
    requires Scheduled(s) && Enabled(s, a)
    ensures Scheduled(Next(s, a))
  {
    hide Enabled, Next;
    var states, actions :| IsSchedule(states, actions) && states[|actions|] == s;
    var ss, aa := states + [Next(s, a)], actions + [a];
    forall i | 0 <= i < |aa| ensures Step(ss[i], aa[i], ss[i + 1]) {
      assert i < |actions| ==> Step(states[i], actions[i], states[i + 1]);
    }
    assert IsSchedule(ss, aa) && ss[|aa|] == Next(s, a);
  }

  lemma AcceptedAlone(s: Chan)
    requires InLine(s)
    ensures Increasing(s.accepted) && Below(s.accepted, |s.attempts|)
  {
    forall j, k | 0 <= j < k < |s.accepted| ensures s.accepted[j] < s.accepted[k] {
      assert (s.accepted + s.waiting)[j] < (s.accepted + s.waiting)[k];
    }
    forall j | 0 <= j < |s.accepted| ensures s.accepted[j] < |s.attempts| {
      assert (s.accepted + s.waiting)[j] < |s.attempts|;
    }
  }

  /** Accepted events are a subsequence of the attempted sends, in order: their places in the
      sequence of attempts increase. Nothing is accepted twice. */
  lemma AcceptedInOrder(states: seq<Chan>, actions: seq<Action>, i: nat)
    requires IsSchedule(states, actions) && i < |states|
    ensures Increasing(states[i].accepted) && Below(states[i].accepted, |states[i].attempts|)
  {
    ScheduleHolds(states, actions, i);
    AcceptedAlone(states[i]);
  }

  /** When a send is lost: a status or progress event in the very step that attempts it, with the
      buffer full; a terminal event by giving up as its timeout is over, with the buffer full still. */
  lemma LossReason(states: seq<Chan>, actions: seq<Action>, i: nat, n: nat)
    requires IsSchedule(states, actions) && i < |actions|
    requires n in states[i + 1].lost && n !in states[i].lost
    ensures |states[i].buf| == 64 && n < |states[i + 1].attempts|
    ensures var ev := states[i + 1].attempts[n].event;
            if ev.kind.Result? || ev.kind.Error? then
              actions[i].GiveUp? && n in states[i].waiting
              && states[i].now == states[i].attempts[n].at + 10000
            else actions[i] == Send(ev) && n == |states[i].attempts|
  {
    ScheduleHolds(states, actions, i);
    ScheduleHolds(states, actions, i + 1);
    assert Step(states[i], actions[i], states[i + 1]);
    LossStep(states[i], actions[i], states[i + 1], n);
  }

  lemma LossStep(s: Chan, a: Action, s': Chan, n: nat)
    requires Inv(s) && Step(s, a, s') && n in s'.lost && n !in s.lost
    ensures |s.buf| == CAP && n < |s'.attempts|
    ensures var ev := s'.attempts[n].event;
            if IsTerminal(ev) then a.GiveUp? && n in s.waiting && s.now == s.attempts[n].at + TERMINAL_TIMEOUT
            else a == Send(ev) && n == |s.attempts|
  {
    hide Increasing, Below, LossOK, Framed, Settled;
    if a.GiveUp? { WaitingTerminal(s, a.k); }
  }

  /** No send is ever blocked for longer than the timeout, and no status or progress event at all. */
  lemma BlockedBriefly(states: seq<Chan>, actions: seq<Action>, i: nat, n: nat)
    requires IsSchedule(states, actions) && i < |states| && n in states[i].waiting
    ensures n < |states[i].attempts|
    ensures states[i].attempts[n].event.kind.Result? || states[i].attempts[n].event.kind.Error?
    ensures states[i].now <= states[i].attempts[n].at + 10000
  {
    ScheduleHolds(states, actions, i);
    var k :| 0 <= k < |states[i].waiting| && states[i].waiting[k] == n;
    WaitingTerminal(states[i], k);
    assert states[i].now <= Due(states[i], k);
  }

  /** A client that stays connected and takes every write has been framed exactly the accepted events
      in order, up to what the buffer still holds; one that leaves has been framed a prefix; and when
      the handler ends at the close, every accepted event has been framed. */
  lemma ClientSees(states: seq<Chan>, actions: seq<Action>, i: nat)
    requires IsSchedule(states, actions) && i < |states|
    ensures var s := states[i];
            && s.frames <= s.accepted
            && (s.handler.Streaming? ==> s.accepted == s.frames + s.buf)
            && (s.handler.Ending? || s.handler.Drained? ==> s.frames == s.accepted)
  {
    ScheduleHolds(states, actions, i);
  }

  /** When the handler has drained a closed channel, every terminal event was framed unless it was given
      up as its timeout was over. */
  lemma OutcomeReachesClient(states: seq<Chan>, actions: seq<Action>, i: nat, n: nat)
    requires IsSchedule(states, actions) && i < |states| && (states[i].handler.Ending? || states[i].handler.Drained?)
    requires n < |states[i].attempts|
    requires states[i].attempts[n].event.kind.Result? || states[i].attempts[n].event.kind.Error?
    ensures n in states[i].frames
         || (n in states[i].lost && states[i].lost[n] == states[i].attempts[n].at + 10000)
  {
    ScheduleHolds(states, actions, i);
  }

  // ---------- Without a consumer ----------

  lemma HeadRunsOut(s: Chan)
    requires Inv(s) && !s.panicked && s.waiting != []
    ensures s.waiting[0] < |s.attempts| && Enabled(s, Tick(Due(s, 0)))
    ensures var t := Next(s, Tick(Due(s, 0))); Inv(t) && Enabled(t, GiveUp(0)) && Inv(Next(t, GiveUp(0)))
  {
    WaitingTerminal(s, 0);
    forall k | 0 <= k < |s.waiting| && s.waiting[k] < |s.attempts| ensures Due(s, 0) <= Due(s, k) {
      assert (s.accepted + s.waiting)[|s.accepted|] == s.waiting[0];
      assert (s.accepted + s.waiting)[|s.accepted| + k] == s.waiting[k];
    }
    var t := Next(s, Tick(Due(s, 0)));
    hide Inv, Increasing, Below, Next;
    StepKeeps(s, Tick(Due(s, 0)), t);
    StepKeeps(t, GiveUp(0), Next(t, GiveUp(0)));
  }

  /** Time runs on until the sender that has waited longest gives up. */
  function HeadGone(s: Chan): (t: Chan)
    requires Inv(s) && !s.panicked && s.waiting != []
    ensures Inv(t) && t.waiting == s.waiting[1..]
  {
    HeadRunsOut(s);
    Next(Next(s, Tick(Due(s, 0))), GiveUp(0))
  }

  /** Nobody receives, so blocked senders give up one after the other, until send `i` is no longer
      blocked. */
  function Settle(s: Chan, i: nat): (t: Chan)
    requires Inv(s) && !s.panicked
    ensures Inv(t)
    decreases |s.waiting|
  {
    if i !in s.waiting then s else Settle(HeadGone(s), i)
  }

  /** Only the senders in line, their losses and the clock change. */
  predicate NothingTaken(s: Chan, t: Chan) {
    t == s.(attempts := t.attempts, waiting := t.waiting, lost := t.lost, now := t.now)
  }

  lemma HeadGoneFacts(s: Chan)
    requires Inv(s) && !s.panicked && s.waiting != []
    ensures s.waiting[0] < |s.attempts|
    ensures var t := HeadGone(s); NothingTaken(s, t) && t.attempts == s.attempts && s.now <= t.now == Due(s, 0)
    ensures forall k :: k in HeadGone(s).waiting ==> k in s.waiting
  {
    HeadRunsOut(s);
    hide Inv;
  }

  lemma {:induction false} SettleEnds(s: Chan, i: nat)
    requires Inv(s) && !s.panicked
    ensures var t := Settle(s, i);
            && i !in t.waiting && NothingTaken(s, t) && t.attempts == s.attempts && s.now <= t.now
            && (forall k :: k in t.waiting ==> k in s.waiting)
            && (i < |s.attempts| && i in s.waiting ==> t.now <= s.attempts[i].at + TERMINAL_TIMEOUT)
            && (i !in s.waiting ==> t == s)
    decreases |s.waiting|
  {
    hide Inv, HeadGone;
    if i in s.waiting {
      HeadGoneFacts(s);
      SettleEnds(HeadGone(s), i);
      var k :| 0 <= k < |s.waiting| && s.waiting[k] == i;
      HeadFirst(s, k);
      assert k > 0 ==> HeadGone(s).waiting[k - 1] == i;
    }
  }

  lemma HeadFirst(s: Chan, k: nat)
    requires Inv(s) && k < |s.waiting|
    ensures s.waiting[0] < |s.attempts| && s.waiting[k] < |s.attempts| && Due(s, 0) <= Due(s, k)
  {
    WaitingTerminal(s, 0);
    WaitingTerminal(s, k);
    assert (s.accepted + s.waiting)[|s.accepted|] == s.waiting[0];
    assert (s.accepted + s.waiting)[|s.accepted| + k] == s.waiting[k];
  }

  lemma {:induction false} SettleScheduled(s: Chan, i: nat)
    requires Inv(s) && !s.panicked && Scheduled(s)
    ensures Scheduled(Settle(s, i))
    decreases |s.waiting|
  {
    hide Inv, Scheduled, Enabled, Next;
    if i in s.waiting {
      HeadRunsOut(s);
      HeadGoneFacts(s);
      var t := Next(s, Tick(Due(s, 0)));
      ScheduledOn(s, Tick(Due(s, 0)));
      ScheduledOn(t, GiveUp(0));
      SettleScheduled(HeadGone(s), i);
    }
  }

  /** One goroutine sends the events one after the other, each settled before the next, while nobody
      receives. */
  function SentAll(s: Chan, events: seq<Event>): (t: Chan)
    requires Inv(s) && !s.closed
    ensures Inv(t) && !t.closed
    decreases |events|
  {
    if events == [] then s
    else
      var before := SentAll(s, events[..|events| - 1]);
      var ev := events[|events| - 1];
      StepKeeps(before, Send(ev), Next(before, Send(ev)));
      SettleEnds(Next(before, Send(ev)), |before.attempts|);
      Settle(Next(before, Send(ev)), |before.attempts|)
  }

  lemma SendSettles(s: Chan, ev: Event)
    requires Inv(s) && !s.closed
    ensures var i, t := |s.attempts|, Next(s, Send(ev));
            && Inv(t) && t.attempts == s.attempts + [Attempt(ev, s.now)]
            && NothingReceived(s, Settle(t, i)) && Settle(t, i).attempts == t.attempts
            && (forall k :: k in Settle(t, i).waiting ==> k in s.waiting)
            && s.now <= Settle(t, i).now <= s.now + if IsTerminal(ev) then TERMINAL_TIMEOUT else 0
  {
    var i, t := |s.attempts|, Next(s, Send(ev));
    StepKeeps(s, Send(ev), t);
    SettleEnds(t, i);
    assert i in s.waiting ==> i in s.accepted + s.waiting;
    hide Inv, Settle;
  }

  /** So whatever the state of the channel, and with a handler that receives nothing any more, any list
      of events is sent to its end: the goroutine is blocked for at most one timeout for each terminal
      event among them, and is not blocked afterwards. */
  lemma {:induction false} SendsFinish(s: Chan, events: seq<Event>)
    requires Inv(s) && !s.closed
    ensures var t := SentAll(s, events);
            && NothingReceived(s, t) && |t.attempts| == |s.attempts| + |events|
            && (forall k :: 0 <= k < |events| ==> t.attempts[|s.attempts| + k].event == events[k])
            && (forall i :: i in t.waiting ==> i in s.waiting)
            && s.now <= t.now <= s.now + TERMINAL_TIMEOUT * Blocking(events)
    decreases |events|
  {
    hide Inv, Settle, Next;
    if events != [] {
      SendsFinish(s, events[..|events| - 1]);
      SendSettles(SentAll(s, events[..|events| - 1]), events[|events| - 1]);
    }
  }

  /** The handler has been given nothing: what it has framed is what it had. */
  predicate NothingReceived(s: Chan, t: Chan) {
    t.frames == s.frames && t.handler == s.handler && s.attempts <= t.attempts
  }

  /** So when the handler has left and waits for the run, and the run sends what it still has to send,
      closes the channel and returns: within one timeout for each of its terminal events the handler is
      gone with the run's error, or the close has met another goroutine's send. It meets none that was
      not blocked when the run began, and then exactly those still blocked. */
  lemma RunEndsInTime(s: Chan, events: seq<Event>)
    requires Inv(s) && !s.closed && s.handler.Leaving?
    ensures var t := SentAll(s, events);
            && t.now <= s.now + TERMINAL_TIMEOUT * Blocking(events)
            && (forall i :: i in t.waiting ==> i in s.waiting)
            && Enabled(t, Close)
            && var u := Next(t, Close);
            && u.now == t.now && (u.panicked <==> t.waiting != [])
            && (!u.panicked ==>
                  Enabled(u, Return) && Enabled(Next(u, Return), GetResult)
                  && Next(Next(u, Return), GetResult) == u.(returned := true, handler := Gone))
  {
    SendsFinish(s, events);
    EndsAtOnce(SentAll(s, events));
    hide Inv, SentAll, Settle, Blocking, Next, Enabled;
  }

  lemma EndsAtOnce(s: Chan)
    requires Inv(s) && !s.closed && s.handler.Leaving?
    ensures Enabled(s, Close)
    ensures var u := Next(s, Close);
            && u.now == s.now && (u.panicked <==> s.waiting != [])
            && (!u.panicked ==>
                  Enabled(u, Return) && Enabled(Next(u, Return), GetResult)
                  && Next(Next(u, Return), GetResult) == u.(returned := true, handler := Gone))
  {
    hide InLine, Settled, LossOK, Timely, Framed;
  }

  // ---------- The close ----------

  /** Neither taken nor given up. */
  predicate Pending(s: Chan, n: nat) {
    n < |s.attempts| && n !in s.accepted && n !in s.lost
  }

  /** The close brings the process down exactly when some send is pending: a result or an error sent
      within the last timeout, into a channel that is still full. */
  lemma ClosePanicsIff(states: seq<Chan>, actions: seq<Action>, i: nat)
    requires IsSchedule(states, actions) && i < |actions| && actions[i].Close?
    ensures states[i + 1].panicked <==> exists n: nat :: Pending(states[i], n)
    ensures forall n: nat :: Pending(states[i], n) ==>
                  && IsTerminal(states[i].attempts[n].event) && |states[i].buf| == CAP
                  && states[i].now <= states[i].attempts[n].at + TERMINAL_TIMEOUT
  {
    var s := states[i];
    ScheduleHolds(states, actions, i);
    assert Step(s, Close, states[i + 1]);
    hide LossOK, Framed;
    forall n: nat | Pending(s, n)
      ensures IsTerminal(s.attempts[n].event) && |s.buf| == CAP && s.now <= s.attempts[n].at + TERMINAL_TIMEOUT
    {
      var k :| 0 <= k < |s.waiting| && s.waiting[k] == n;
      WaitingTerminal(s, k);
      assert s.now <= Due(s, k);
    }
    if s.waiting != [] {
      WaitingTerminal(s, 0);
      NotTaken(s, s.waiting[0]);
    }
  }

  lemma NotTaken(s: Chan, n: nat)
    requires Inv(s) && n in s.waiting && n < |s.attempts|
    ensures Pending(s, n)
  {
    hide LossOK, Framed, Timely;
    var k :| 0 <= k < |s.waiting| && s.waiting[k] == n;
    forall j | 0 <= j < |s.accepted| ensures s.accepted[j] != n {
      assert (s.accepted + s.waiting)[j] < (s.accepted + s.waiting)[|s.accepted| + k];
    }
  }

  /** `n` status events in a row, with no one reading. */
  function Filled(n: nat, ev: Event): Chan {
    OPENED.(attempts := seq(n, _ => Attempt(ev, 0)), buf := seq(n, i => i), accepted := seq(n, i => i))
  }

  lemma {:induction false} FilledSchedule(n: nat, ev: Event)
    returns (states: seq<Chan>, actions: seq<Action>)
    requires n <= CAP
    ensures IsSchedule(states, actions) && |actions| == n && states[n] == Filled(n, ev)
  {
    if n == 0 {
      states, actions := [OPENED], [];
      assert Filled(0, ev) == OPENED;
    } else {
      var before, steps := FilledSchedule(n - 1, ev);
      states, actions := before + [Filled(n, ev)], steps + [Send(ev)];
      assert Step(Filled(n - 1, ev), Send(ev), Filled(n, ev));
      forall i | 0 <= i < |actions| ensures Step(states[i], actions[i], states[i + 1]) {
        assert i < n - 1 ==> Step(before[i], steps[i], before[i + 1]);
      }
    }
  }

  /** And some send can be: a log goroutine reports an error into a full channel, and the run closes it. */
  lemma CloseCanPanic(line: Event, failed: Event) returns (states: seq<Chan>, actions: seq<Action>)
    requires IsTerminal(failed)
    ensures IsSchedule(states, actions) && |actions| == CAP + 2
    ensures actions[CAP] == Send(failed) && actions[CAP + 1] == Close && states[CAP + 2].panicked
  {
    var before, steps := FilledSchedule(CAP, line);
    var blocked := Sent(Filled(CAP, line), failed);
    assert Step(Filled(CAP, line), Send(failed), blocked) && Enabled(blocked, Close);
    states, actions := before + [blocked, Next(blocked, Close)], steps + [Send(failed), Close];
    forall i | 0 <= i < |actions| ensures Step(states[i], actions[i], states[i + 1]) {
      assert i < CAP ==> Step(before[i], steps[i], before[i + 1]);
    }
  }
}
