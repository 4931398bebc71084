/** The HTTP handler of a paired run: the select loop that turns channel events into frames. */
module BenchmarkHandler {
  import opened Wrappers
  import opened RunEvents
  import opened PairedRun
  import opened EventChannel
  import opened RunStates

  // ---------- What the handler checks itself ----------

  predicate Rejects(spec: RunSpec) {
    spec.runID == "" || !ValidRunID(spec.runID) || spec.engine.image == "" || spec.benchmark.image == ""
  }

  /** The handler turns away exactly the specs the run would, except for an unknown benchmark kind:
      there it opens a stream on which the run never sends anything. */
  lemma RejectsIff(spec: RunSpec)
    ensures Rejects(spec) <==> Validate(spec).Some? && Validate(spec) != Some(KindInvalid)
    ensures Rejects(spec) <==>
            spec.runID == "" || (exists i :: 0 <= i < |spec.runID| && !NameCode(spec.runID[i] as int))
            || spec.engine.image == "" || spec.benchmark.image == ""
  {
    if spec.runID != "" && !ValidRunID(spec.runID) {
      var i :| 0 <= i < |spec.runID| && !SafeChar(spec.runID[i]);
      assert !NameCode(spec.runID[i] as int);
    }
  }

  // ---------- The loop ----------

  /** One turn of the select: what everyone else does before it, whether the handler notices that
      the client has gone, and whether writing a frame fails. */
  datatype Turn = Turn(others: seq<Action>, gone: bool, writeFails: bool)

  /** The client neither leaves nor fails a write. */
  predicate Stays(turns: seq<Turn>) {
    forall i :: 0 <= i < |turns| ==> !turns[i].gone && !turns[i].writeFails
  }

  predicate NoneGone(turns: seq<Turn>) {
    forall i :: 0 <= i < |turns| ==> !turns[i].gone
  }

  predicate NoneFails(turns: seq<Turn>) {
    forall i :: 0 <= i < |turns| ==> !turns[i].writeFails
  }

  lemma TurnAt(turns: seq<Turn>, i: nat)
    requires i < |turns|
    ensures Stays(turns) ==> !turns[i].gone && !turns[i].writeFails
    ensures NoneFails(turns) ==> !turns[i].writeFails
    ensures NoneGone(turns[..i]) && !turns[i].gone ==> NoneGone(turns[..i + 1])
    ensures NoneGone(turns[..0])
  {
  }

  /** What everyone but the handler does; without the run, what the log goroutines and time do. */
  predicate NotHandlers(a: Action, run: bool) {
    a.Send? || a.GiveUp? || a.Tick? || (run && (a.Close? || a.Return?))
  }

  /** For how many turns at the end nobody but the handler has acted. */
  function Quiet(turns: seq<Turn>): nat {
    if turns == [] || turns[|turns| - 1].others != [] then 0 else 1 + Quiet(turns[..|turns| - 1])
  }

  lemma OneMoreTurn(turns: seq<Turn>, i: nat)
    requires i < |turns|
    ensures Quiet(turns[..i + 1]) == if turns[i].others != [] then 0 else 1 + Quiet(turns[..i])
    ensures Quiet(turns[..0]) == 0
  {
    assert turns[..i + 1][..i] == turns[..i];
  }

  function EventsAt(attempts: seq<Attempt>, places: seq<nat>): seq<Event>
    requires Below(places, |attempts|)
  {
    seq(|places|, i requires 0 <= i < |places| => attempts[places[i]].event)
  }

  /** The channel has come about by a schedule, and the frames are the events it counts as framed. */
  ghost predicate Streamed(chan: Chan, frames: seq<Event>) {
    && Inv(chan) && Scheduled(chan)
    && Below(chan.frames, |chan.attempts|)
    && frames == EventsAt(chan.attempts, chan.frames)
  }

  lemma AttemptsGrow(s: Chan, a: Action)
    requires Inv(s) && Enabled(s, a)
    ensures s.attempts <= Next(s, a).attempts
    ensures Next(s, a).closed <==> s.closed || a.Close?
  {
  }

  lemma OthersLeaveFrames(s: Chan, a: Action, frames: seq<Event>)
    requires Streamed(s, frames) && Enabled(s, a) && NotHandlers(a, true)
    ensures Streamed(Next(s, a), frames) && Next(s, a).handler == s.handler
    ensures s.attempts <= Next(s, a).attempts && (Next(s, a).closed <==> s.closed || a.Close?)
  {
    ScheduledOn(s, a);
    StepKeeps(s, a, Next(s, a));
    AttemptsGrow(s, a);
    hide Inv, Scheduled;
  }

  /** A received event is one the channel accepted. */
  lemma HeadAccepted(s: Chan)
    requires Inv(s) && s.handler.Streaming? && s.buf != []
    ensures s.buf[0] < |s.attempts|
  {
    assert s.accepted[|s.frames|] == s.buf[0];
    assert (s.accepted + s.waiting)[|s.frames|] == s.buf[0];
  }

  lemma ReceiveFrames(s: Chan, written: bool, frames: seq<Event>)
    requires Streamed(s, frames) && Enabled(s, Receive(written))
    ensures s.buf[0] < |s.attempts|
    ensures Next(s, Receive(written)).handler == if written then Streaming else Gone
    ensures Streamed(Next(s, Receive(written)), if written then frames + [s.attempts[s.buf[0]].event] else frames)
  {
    HeadAccepted(s);
    ScheduledOn(s, Receive(written));
    StepKeeps(s, Receive(written), Next(s, Receive(written)));
    hide Inv, Scheduled;
  }

  lemma LeaveFrames(s: Chan, a: Action, frames: seq<Event>)
    requires Streamed(s, frames) && Enabled(s, a) && (a.Disconnect? || a.SeeClosed? || a.GetResult?)
    ensures Streamed(Next(s, a), frames)
  {
    ScheduledOn(s, a);
    StepKeeps(s, a, Next(s, a));
    hide Inv, Scheduled;
  }

  lemma OpenedStreams()
    ensures Streamed(OPENED, []) && OPENED.handler.Streaming?
  {
    OpenedHolds();
    OpenedScheduled();
  }

  /** Everyone else's steps, those that can be taken. */
  method LetOthers(chan: Chan, others: seq<Action>, run: bool, ghost frames: seq<Event>) returns (later: Chan)
    requires Streamed(chan, frames)
    ensures Streamed(later, frames) && later.handler == chan.handler && chan.attempts <= later.attempts
    ensures if chan.closed then later.closed else !run ==> !later.closed
    ensures others == [] ==> later == chan
  {
    hide Streamed, Enabled, Next;
    later := chan;
    for i := 0 to |others|
      invariant Streamed(later, frames) && later.handler == chan.handler && chan.attempts <= later.attempts
      invariant if chan.closed then later.closed else !run ==> !later.closed
      invariant others == [] ==> later == chan
    {
      if NotHandlers(others[i], run) && Enabled(later, others[i]) {
        OthersLeaveFrames(later, others[i], frames);
        later := Next(later, others[i]);
      }
    }
  }

  /** `<-runErr`: the handler waits while the run sends the `rest` of its events, closes the channel and
      returns, and the log goroutines go on as they like. Nobody receives any more, so what is blocked
      runs out of patience. The wait ends with the run's error, or the process goes down over a log
      goroutine's send. `mine` are the places of the run's sends. */
  method AwaitRun(chan: Chan, rest: seq<Event>, ghost frames: seq<Event>) returns (later: Chan, ghost mine: seq<nat>)
    requires Streamed(chan, frames) && !chan.panicked && (chan.handler.Leaving? || chan.handler.Ending?)
    ensures Streamed(later, frames)
    ensures if later.panicked then later.closed && later.handler == chan.handler
            else later.returned && later.handler == if chan.handler.Leaving? then Gone else Drained
    ensures !chan.closed ==> Ours(later, mine, rest, false)
  {
    hide Streamed, Next, Enabled, Ours;
    later, mine := chan, [];
    if !chan.closed {
      later, mine := SendRest(chan, rest, frames);
      OpenRuns(later, frames);
      OthersLeaveFrames(later, Close, frames);
      OursExtends(later, Next(later, Close), mine, rest, false);
      later := Next(later, Close);
    }
    var script: seq<Action> := *;
    ghost var closed := later;
    later := LetOthers(later, script, false, frames);
    if !chan.closed { OursExtends(closed, later, mine, rest, false); }
    if !later.panicked {
      ghost var before := later;
      later := ReturnsTo(later, frames);
      if !chan.closed { OursExtends(before, later, mine, rest, false); }
    }
  }

  lemma OpenRuns(s: Chan, frames: seq<Event>)
    requires Streamed(s, frames) && !s.closed
    ensures Inv(s) && Enabled(s, Close)
  {
    hide InLine, Settled, LossOK, Timely, Framed, EventsAt;
  }

  /** One after the other, each over before the next, with the log goroutines acting at any time. */
  method SendRest(chan: Chan, rest: seq<Event>, ghost frames: seq<Event>)
    returns (later: Chan, ghost mine: seq<nat>)
    requires Streamed(chan, frames) && !chan.closed
    ensures Streamed(later, frames) && !later.closed && later.handler == chan.handler
    ensures Ours(later, mine, rest, false)
  {
    hide Streamed, Ours;
    later, mine := chan, [];
    NoneOfOurs(later);
    for i := 0 to |rest|
      invariant Streamed(later, frames) && !later.closed && later.handler == chan.handler
      invariant Ours(later, mine, rest[..i], false)
    {
      ghost var before := later;
      var script: seq<Action> := *;
      later := LetOthers(later, script, false, frames);
      OursExtends(before, later, mine, rest[..i], false);
      assert rest[..i + 1] == rest[..i] + [rest[i]];
      later, mine := SendOne(later, rest[i], mine, rest[..i], frames);
    }
    assert rest[..|rest|] == rest;
  }

  lemma NoneOfOurs(chan: Chan)
    ensures Ours(chan, [], [], false)
  {
  }

  method SendOne(chan: Chan, ev: Event, ghost mine: seq<nat>, ghost sent: seq<Event>, ghost frames: seq<Event>)
    returns (later: Chan, ghost places: seq<nat>)
    requires Streamed(chan, frames) && !chan.closed && Ours(chan, mine, sent, false)
    ensures Streamed(later, frames) && !later.closed && later.handler == chan.handler
    ensures Ours(later, places, sent + [ev], false)
  {
    hide Streamed, Ours, Next, Enabled;
    OpenRuns(chan, frames);
    SendIs(chan, ev);
    OursSent(chan, ev, mine, sent, false);
    OthersLeaveFrames(chan, Send(ev), frames);
    places := mine + [|chan.attempts|];
    ghost var begun := Sent(chan, ev);
    var script: seq<Action> := *;
    later := LetOthers(Next(chan, Send(ev)), script, false, frames);
    OursExtends(begun, later, places, sent + [ev], false);
    SettleLeavesFrames(later, |chan.attempts|, frames);
    OursExtends(later, Settle(later, |chan.attempts|), places, sent + [ev], false);
    later := Settle(later, |chan.attempts|);
  }

  lemma SettleLeavesFrames(s: Chan, i: nat, frames: seq<Event>)
    requires Streamed(s, frames) && !s.closed
    ensures Inv(s) && !s.panicked
    ensures var t := Settle(s, i);
            Streamed(t, frames) && !t.closed && t.handler == s.handler && t.attempts == s.attempts
  {
    SettleEnds(s, i);
    SettleScheduled(s, i);
    hide Scheduled, InLine, Settled, LossOK, Timely, Framed, Settle;
  }

  /** The run's error arrives, and the handler with it is done. */
  method ReturnsTo(chan: Chan, ghost frames: seq<Event>) returns (later: Chan)
    requires Streamed(chan, frames) && chan.closed && !chan.panicked && (chan.handler.Leaving? || chan.handler.Ending?)
    ensures Streamed(later, frames) && later.returned && !later.panicked && later.attempts == chan.attempts
    ensures later.handler == if chan.handler.Leaving? then Gone else Drained
  {
    hide Inv, EventsAt;
    later := chan;
    if !later.returned {
      OthersLeaveFrames(later, Return, frames);
      later := Next(later, Return);
    }
    LeaveFrames(later, GetResult, frames);
    later := Next(later, GetResult);
  }

  /** `Run` from the opening of the stream on, for as many turns as are given, with `rest` the events the
      run still sends when the handler only waits for it. The frames are a prefix of the accepted events; all
      of those sent out while the client stays; and all of them, with the channel closed, when the loop
      ends by itself. While nobody else acts every turn frames one more, as long as there is one. The run is
      cancelled when the handler returns early, which is exactly when the
      client has gone or a write failed; but for the failed write the run has returned first, or the
      process is down. */
  method Run(turns: seq<Turn>, rest: seq<Event>) returns (chan: Chan, frames: seq<Event>, cancelled: bool)
    ensures Scheduled(chan) && Below(chan.accepted, |chan.attempts|) && Increasing(chan.accepted)
    ensures |frames| <= |chan.accepted|
    ensures forall k :: 0 <= k < |frames| ==> frames[k] == chan.attempts[chan.accepted[k]].event
    ensures chan.panicked || chan.handler.Streaming? || chan.handler.Gone? || (chan.handler.Drained? && chan.returned)
    ensures chan.handler.Streaming? ==> |chan.accepted| == |frames| + |chan.buf|
    ensures chan.handler.Drained? ==> chan.closed && |frames| == |chan.accepted|
    ensures chan.handler.Streaming? && !chan.panicked ==> NoneGone(turns)
    ensures chan.handler.Streaming? && !chan.panicked ==>
              |frames| >= Quiet(turns) || (chan.buf == [] && !chan.closed)
    ensures cancelled <==> chan.handler.Gone? || chan.handler.Leaving?
    ensures Stays(turns) ==> !cancelled
    ensures NoneFails(turns) && cancelled ==> chan.returned || chan.panicked
  {
    hide Stays, NoneGone, NoneFails, Quiet, Streamed, Scheduled, Inv, Increasing, Below, Ours;
    chan, frames, cancelled := Loop(turns);
    if !chan.panicked && (chan.handler.Leaving? || chan.handler.Ending?) {
      ghost var mine;
      chan, mine := AwaitRun(chan, rest, frames);
    }
    FramesOfAccepted(chan, frames);
  }

  /** The loop, until it is left or the turns are used up. */
  method Loop(turns: seq<Turn>) returns (chan: Chan, frames: seq<Event>, cancelled: bool)
    ensures Streamed(chan, frames)
    ensures chan.handler.Streaming? || chan.handler.Leaving? || chan.handler.Ending? || chan.handler.Gone?
    ensures cancelled <==> chan.handler.Leaving? || chan.handler.Gone?
    ensures Stays(turns) ==> !cancelled
    ensures chan.handler.Gone? ==> !NoneFails(turns)
    ensures chan.handler.Streaming? && !chan.panicked ==>
              NoneGone(turns) && (|frames| >= Quiet(turns) || (chan.buf == [] && !chan.closed))
  {
    chan, frames, cancelled := OPENED, [], false;
    OpenedStreams();
    assert turns[..0] == [] && turns[..|turns|] == turns;
    assert NoneGone(turns[..0]);
    hide Stays, NoneGone, NoneFails, Quiet, Streamed, Scheduled, Inv, Next, Enabled, EventsAt, OPENED, NextTurn;
    var i := 0;
    while i < |turns| && chan.handler.Streaming? && !chan.panicked
      invariant 0 <= i <= |turns| && Streamed(chan, frames)
      invariant chan.handler.Streaming? || chan.handler.Leaving? || chan.handler.Ending? || chan.handler.Gone?
      invariant cancelled <==> chan.handler.Leaving? || chan.handler.Gone?
      invariant Stays(turns) ==> !cancelled
      invariant chan.handler.Gone? ==> !NoneFails(turns)
      invariant chan.handler.Streaming? && !chan.panicked ==>
                  NoneGone(turns[..i]) && (|frames| >= Quiet(turns[..i]) || (chan.buf == [] && !chan.closed))
    {
      OneMoreTurn(turns, i);
      TurnAt(turns, i);
      ghost var before, had := chan, |frames|;
      chan, frames, cancelled := TakeTurn(chan, turns[i], frames);
      TurnCounts(before, turns[i], had, chan, |frames|);
      i := i + 1;
    }
  }

  /** Where one turn leads: to nothing more if the process is down; away when the client has gone; on with one
      more frame, or away if that cannot be written; to the end of a closed and empty channel; and on with an
      open and empty one. */
  predicate NextTurn(chan: Chan, turn: Turn, had: nat, later: Chan, have: nat) {
    if later.panicked then later.handler.Streaming? && have == had
    else if turn.gone then later.handler.Leaving? && have == had
    else if turn.others == [] && chan.buf == [] then
      have == had && (if chan.closed then later.handler.Ending? else later == chan)
    else if turn.others == [] then
      if turn.writeFails then later.handler.Gone? && have == had
      else later.handler.Streaming? && have == had + 1 && later.closed == chan.closed
    else if later.handler.Gone? then turn.writeFails && have == had
    else (later.handler.Streaming? || later.handler.Ending?) && have >= had
  }

  /** What follows for the counting of frames. */
  lemma TurnCounts(chan: Chan, turn: Turn, had: nat, later: Chan, have: nat)
    requires chan.handler.Streaming? && NextTurn(chan, turn, had, later, have)
    ensures later.handler.Gone? ==> turn.writeFails
    ensures later.handler.Streaming? && !later.panicked ==> !turn.gone
    ensures turn.others == [] && later.handler.Streaming? && !later.panicked ==>
              (chan.buf == [] && !chan.closed && later == chan && have == had)
              || (chan.buf != [] && have == had + 1 && later.closed == chan.closed)
  {
  }

  /** One turn of the select. */
  method TakeTurn(chan: Chan, turn: Turn, frames: seq<Event>)
    returns (later: Chan, more: seq<Event>, cancelled: bool)
    requires Streamed(chan, frames) && chan.handler.Streaming? && !chan.panicked
    ensures Streamed(later, more) && NextTurn(chan, turn, |frames|, later, |more|)
    ensures cancelled <==> later.handler.Leaving? || later.handler.Gone?
    ensures cancelled ==> turn.gone || turn.writeFails
  {
    hide Streamed, Inv, Sent, EventsAt, Increasing, Below;
    more, cancelled := frames, false;
    later := LetOthers(chan, turn.others, true, frames);
    if later.panicked {
      return;
    }
    LiveStreams(later, frames);
    if turn.gone {
      LeaveFrames(later, Disconnect, frames);
      later := Next(later, Disconnect);
      cancelled := true;
    } else if later.buf != [] {
      ReceiveFrames(later, !turn.writeFails, frames);
      if turn.writeFails {
        cancelled := true;
      } else {
        more := frames + [later.attempts[later.buf[0]].event];
      }
      later := Next(later, Receive(!turn.writeFails));
    } else if later.closed {
      LeaveFrames(later, SeeClosed, frames);
      later := Next(later, SeeClosed);
    }
  }

  lemma LiveStreams(s: Chan, frames: seq<Event>)
    requires Streamed(s, frames) && !s.panicked && s.handler.Streaming?
    ensures Enabled(s, Disconnect)
    ensures s.buf != [] ==> Enabled(s, Receive(true)) && Enabled(s, Receive(false))
    ensures s.buf == [] && s.closed ==> Enabled(s, SeeClosed)
  {
  }

  lemma FramesOfAccepted(s: Chan, frames: seq<Event>)
    requires Streamed(s, frames)
    ensures Scheduled(s) && Below(s.accepted, |s.attempts|) && Increasing(s.accepted)
    ensures |frames| <= |s.accepted|
    ensures forall k :: 0 <= k < |frames| ==> frames[k] == s.attempts[s.accepted[k]].event
    ensures s.handler.Streaming? ==> |s.accepted| == |frames| + |s.buf|
    ensures s.handler.Drained? ==> s.closed && |frames| == |s.accepted|
  {
    AcceptedAlone(s);
    hide InLine, Settled, LossOK, Scheduled;
    assert s.frames <= s.accepted;
    forall i | 0 <= i < |frames| ensures frames[i] == s.attempts[s.accepted[i]].event {
      assert s.frames[i] == s.accepted[i];
    }
  }
}
