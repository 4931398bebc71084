/** `runState`: how a goroutine of a paired run emits its events through the channel. */
module RunStates {
  import opened RunEvents
  import opened EventChannel

  // ---------- Whose sends are whose ----------

  /** `mine` are the places of the goroutine's own sends, of the events `sent`. If `alone`, no one else
      sends as the orchestrator. */
  ghost predicate Ours(chan: Chan, mine: seq<nat>, sent: seq<Event>, alone: bool) {
    && |mine| == |sent| && Increasing(mine) && Below(mine, |chan.attempts|)
    && (forall k :: 0 <= k < |mine| && mine[k] < |chan.attempts| ==> chan.attempts[mine[k]].event == sent[k])
    && (alone ==> forall i :: 0 <= i < |chan.attempts| && chan.attempts[i].event.source == ORCHESTRATOR ==> i in mine)
  }

  /** What anyone but the goroutine may do while the run goes on. */
  predicate ByOthers(a: Action, alone: bool) {
    match a
    case Send(ev) => alone ==> ev.source != ORCHESTRATOR
    case Close => false
    case Return => false
    case _ => true
  }

  lemma OthersKeep(chan: Chan, a: Action, mine: seq<nat>, sent: seq<Event>, alone: bool)
    requires Inv(chan) && !chan.closed && Enabled(chan, a) && ByOthers(a, alone) && Ours(chan, mine, sent, alone)
    ensures Inv(Next(chan, a)) && !Next(chan, a).closed && Ours(Next(chan, a), mine, sent, alone)
  {
    StepKeeps(chan, a, Next(chan, a));
    OthersExtend(chan, a, alone);
    hide Inv;
    OursExtends(chan, Next(chan, a), mine, sent, alone);
  }

  lemma OthersExtend(chan: Chan, a: Action, alone: bool)
    requires !chan.closed && Enabled(chan, a) && ByOthers(a, alone)
    ensures var t := Next(chan, a); chan.attempts <= t.attempts && !t.closed
    ensures var t := Next(chan, a);
            alone ==> forall i :: |chan.attempts| <= i < |t.attempts| ==> t.attempts[i].event.source != ORCHESTRATOR
  {
  }

  lemma OursExtends(chan: Chan, t: Chan, mine: seq<nat>, sent: seq<Event>, alone: bool)
    requires Ours(chan, mine, sent, alone) && chan.attempts <= t.attempts
    requires alone ==> forall i :: |chan.attempts| <= i < |t.attempts| ==> t.attempts[i].event.source != ORCHESTRATOR
    ensures Ours(t, mine, sent, alone)
  {
    assert forall i :: 0 <= i < |chan.attempts| ==> t.attempts[i] == chan.attempts[i];
  }

  lemma OursSent(chan: Chan, ev: Event, mine: seq<nat>, sent: seq<Event>, alone: bool)
    requires Ours(chan, mine, sent, alone)
    ensures Ours(Sent(chan, ev), mine + [|chan.attempts|], sent + [ev], alone)
  {
    hide Increasing, Below;
    IncreasingExtends(mine, |chan.attempts|);
    var t, m := Sent(chan, ev), mine + [|chan.attempts|];
    assert forall i :: 0 <= i < |chan.attempts| ==> t.attempts[i] == chan.attempts[i];
    assert forall i :: i in mine ==> i in m;
    assert m[|mine|] == |chan.attempts|;
  }

  /** The run's last event is the last orchestrator event the client is framed, once the handler has
      drained the channel, unless it was given up when its timeout was over. */
  lemma OutcomeIsLastFrame(chan: Chan, mine: seq<nat>, sent: seq<Event>)
    requires Inv(chan) && Ours(chan, mine, sent, true) && (chan.handler.Ending? || chan.handler.Drained?)
    requires sent != [] && IsTerminal(sent[|sent| - 1])
    ensures var last := mine[|mine| - 1];
            && last < |chan.attempts| && Below(chan.frames, |chan.attempts|)
            && chan.attempts[last].event == sent[|sent| - 1]
            && ((last in chan.lost && chan.lost[last] == chan.attempts[last].at + TERMINAL_TIMEOUT)
                || IsLastFrame(chan, last))
  {
    var last := mine[|mine| - 1];
    AcceptedAlone(chan);
    if last in chan.frames {
      LastOfOurs(chan, mine, sent);
    }
  }

  /** Framed, and no later frame is the orchestrator's. */
  predicate IsLastFrame(chan: Chan, last: nat)
    requires Below(chan.frames, |chan.attempts|)
  {
    && last in chan.frames
    && (forall g :: 0 <= g < |chan.frames| && chan.frames[g] > last ==>
          chan.attempts[chan.frames[g]].event.source != ORCHESTRATOR)
    && Increasing(chan.frames)
  }

  lemma LastOfOurs(chan: Chan, mine: seq<nat>, sent: seq<Event>)
    requires Ours(chan, mine, sent, true) && mine != []
    ensures forall i :: mine[|mine| - 1] < i < |chan.attempts| ==> chan.attempts[i].event.source != ORCHESTRATOR
  {
    forall i | mine[|mine| - 1] < i < |chan.attempts| ensures chan.attempts[i].event.source != ORCHESTRATOR {
      assert forall k :: 0 <= k < |mine| ==> mine[k] <= mine[|mine| - 1];
    }
  }

  /** A closed channel takes no further event: what has been sent and taken stays as it is. A log
      goroutine may still send; then the process goes down. */
  lemma ClosedKeepsOurs(chan: Chan, a: Action, mine: seq<nat>, sent: seq<Event>)
    requires Inv(chan) && chan.closed && Enabled(chan, a) && Ours(chan, mine, sent, true)
    ensures var t := Next(chan, a);
            && Inv(t) && t.closed && Ours(t, mine, sent, true)
            && t.attempts == chan.attempts && t.accepted == chan.accepted && t.lost == chan.lost
            && (t.panicked <==> a.Send?)
  {
    StepKeeps(chan, a, Next(chan, a));
    hide InLine, Settled, LossOK, Timely, Framed, Sent;
  }

  // ---------- Which sends are blocked ----------

  /** None of these sends is blocked. */
  predicate Free(chan: Chan, mine: seq<nat>) {
    forall k :: 0 <= k < |mine| ==> mine[k] !in chan.waiting
  }

  /** What others do never blocks a send made before. */
  lemma OthersFree(chan: Chan, a: Action, mine: seq<nat>)
    requires !chan.closed && Enabled(chan, a) && !a.Close? && Below(mine, |chan.attempts|) && Free(chan, mine)
    ensures Free(Next(chan, a), mine)
  {
  }

  lemma FewerBlocked(chan: Chan, t: Chan, mine: seq<nat>)
    requires Free(chan, mine) && forall i :: i in t.waiting ==> i in chan.waiting
    ensures Free(t, mine)
  {
  }

  /** Every blocked send is of a source other than the orchestrator. */
  predicate OnlyLogsBlocked(chan: Chan) {
    forall k :: 0 <= k < |chan.waiting| ==>
      chan.waiting[k] < |chan.attempts| && chan.attempts[chan.waiting[k]].event.source != ORCHESTRATOR
  }

  lemma BlockedIsOthers(chan: Chan, mine: seq<nat>, sent: seq<Event>)
    requires Inv(chan) && Ours(chan, mine, sent, true) && Free(chan, mine)
    ensures OnlyLogsBlocked(chan)
  {
    hide Inv;
    forall k | 0 <= k < |chan.waiting|
      ensures chan.waiting[k] < |chan.attempts| && chan.attempts[chan.waiting[k]].event.source != ORCHESTRATOR
    {
      BlockedIsAttempted(chan, k);
    }
  }

  lemma BlockedIsAttempted(chan: Chan, k: nat)
    requires Inv(chan) && k < |chan.waiting|
    ensures chan.waiting[k] < |chan.attempts|
  {
    WaitingTerminal(chan, k);
  }

  // ---------- The state ----------

  /** What one goroutine of a run sees of `runState`: the ids cleanup has to tear down and the event
      channel. `sent` are the events it has sent, `waited` the milliseconds it was blocked on them. */
  class RunState {
    const alone: bool
    var engineID: string
    var benchID: string
    var chan: Chan
    var sent: seq<Event>
    var waited: nat
    ghost var mine: seq<nat>

    constructor (alone: bool)
      ensures engineID == "" && benchID == "" && sent == [] && waited == 0 && this.alone == alone
      ensures Valid()
    {
      this.alone, engineID, benchID, chan, sent, waited, mine := alone, "", "", OPENED, [], 0, [];
      new;
      OpenedHolds();
      OpenedScheduled();
    }

    ghost predicate Valid()
      reads `chan, `sent, `waited, `mine
    {
      Open(|mine|) && waited <= TERMINAL_TIMEOUT * Blocking(sent)
    }

    /** What is shared and settled: the channel, and that the sends so far are where they are, the first
        `n` of them no longer blocked. */
    ghost predicate Open(n: nat)
      reads `chan, `sent, `mine
    {
      && Inv(chan) && Scheduled(chan) && !chan.closed
      && Ours(chan, mine, sent, alone) && n <= |mine| && Free(chan, mine[..n])
    }

    /** A handler that has stopped reading neither goes back to it nor ends before the run has. */
    twostate predicate HandlerWaits()
      reads `chan
    {
      !old(chan).handler.Streaming? ==> chan.handler == old(chan).handler && chan.frames == old(chan).frames
    }

    /** One step of anyone else. */
    method LetOne(a: Action, ghost n: nat)
      requires Open(n) && Enabled(chan, a) && ByOthers(a, alone)
      modifies `chan
      ensures Open(n) && chan == Next(old(chan), a) && HandlerWaits()
    {
      hide Sent, Taken, Scheduled;
      ScheduledOn(chan, a);
      OthersKeep(chan, a, mine, sent, alone);
      OthersFree(chan, a, mine[..n]);
      WaitingHandler(chan, a, alone);
      hide Inv, Next, Enabled;
      chan := Next(chan, a);
    }

    /** The other goroutines and the handler act. */
    method LetOthers()
      requires Open(|mine|)
      modifies `chan
      ensures Open(|mine|) && HandlerWaits()
    {
      hide Inv, Ours, Enabled, Next, Scheduled;
      var script: seq<Action> := *;
      for k := 0 to |script|
        invariant Open(|mine|) && HandlerWaits()
      {
        if ByOthers(script[k], alone) && Enabled(chan, script[k]) {
          LetOne(script[k], |mine|);
        }
      }
    }

    /** They act while the send `i`, of time `began`, is blocked. */
    method WhileBlocked(i: nat, began: nat, ghost n: nat)
      requires Open(n) && i < |chan.attempts| && chan.attempts[i].at == began == chan.now
      modifies `chan
      ensures Open(n) && i < |chan.attempts| && chan.attempts[i] == old(chan).attempts[i] && HandlerWaits()
      ensures began <= chan.now <= began + if IsTerminal(chan.attempts[i].event) then TERMINAL_TIMEOUT else 0
    {
      hide Inv, Ours, Enabled, Next, Scheduled;
      var script: seq<Action> := *;
      var k := 0;
      while k < |script| && i in chan.waiting
        invariant Open(n) && i < |chan.attempts| && chan.attempts[i] == old(chan).attempts[i] && HandlerWaits()
        invariant began <= chan.now <= began + if IsTerminal(chan.attempts[i].event) then TERMINAL_TIMEOUT else 0
      {
        if ByOthers(script[k], alone) && Enabled(chan, script[k]) {
          BlockedTime(chan, script[k], i);
          LetOne(script[k], n);
        }
        k := k + 1;
      }
    }

    /** `emit`. A terminal event waits for room until it is taken or its timeout is over, whoever else
        acts and even if no one receives; any other is taken at once or dropped. */
    method Emit(ev: Event)
      requires Valid() && (alone || ev.source != ORCHESTRATOR)
      modifies `chan, `sent, `waited, `mine
      ensures Valid() && sent == old(sent) + [ev] && HandlerWaits()
      ensures Story(sent) == Story(old(sent)) + if ev.source == ORCHESTRATOR then [Beat(ev.kind, ev.phase)] else []
      ensures Blocking(sent) == Blocking(old(sent)) + if IsTerminal(ev) then 1 else 0
      ensures !IsTerminal(ev) ==> waited == old(waited)
    {
      OneMore(sent, ev);
      hide Inv, Ours, Next, Enabled, Story, Blocking, Free, Scheduled;
      LetOthers();
      var i, began := |chan.attempts|, chan.now;
      ghost var n := |mine|;
      Begin(ev);
      WhileBlocked(i, began, n);
      End(i, n);
      waited := waited + (chan.now - began);
    }

    /** The send itself. */
    method Begin(ev: Event)
      requires Open(|mine|) && (alone || ev.source != ORCHESTRATOR)
      modifies `chan, `sent, `mine
      ensures Open(old(|mine|)) && sent == old(sent) + [ev] && mine == old(mine) + [old(|chan.attempts|)]
      ensures chan.attempts == old(chan).attempts + [Attempt(ev, old(chan).now)] && chan.now == old(chan).now
      ensures HandlerWaits()
    {
      hide Inv, Ours, Next, Enabled, Scheduled;
      OursSent(chan, ev, mine, sent, alone);
      SendSettles(chan, ev);
      SendIs(chan, ev);
      SendFree(chan, ev, mine, sent, alone);
      ScheduledOn(chan, Send(ev));
      var i := |chan.attempts|;
      assert (mine + [i])[..|mine|] == mine[..|mine|] == mine;
      chan, mine, sent := Next(chan, Send(ev)), mine + [i], sent + [ev];
    }

    /** Nobody receives any more until the send is over. */
    method End(i: nat, ghost n: nat)
      requires Open(n) && n + 1 == |mine| && mine[n] == i < |chan.attempts|
      modifies `chan
      ensures Open(|mine|) && HandlerWaits() && old(chan).now <= chan.now
      ensures if i in old(chan).waiting
            then IsTerminal(old(chan).attempts[i].event)
                 && chan.now <= old(chan).attempts[i].at + TERMINAL_TIMEOUT
            else chan == old(chan)
    {
      hide Inv, Ours, Next, Enabled, Scheduled;
      SettleKeepsOurs(chan, i, mine, sent, alone);
      SettleScheduled(chan, i);
      FewerBlocked(chan, Settle(chan, i), mine[..n]);
      assert mine[..|mine|] == mine[..n] + [i];
      chan := Settle(chan, i);
    }

    /** `emitError`. */
    method EmitError(phase: string, text: string)
      requires Valid() && alone
      modifies `chan, `sent, `waited, `mine
      ensures Valid() && Story(sent) == Story(old(sent)) + [Beat(Error, phase)]
      ensures sent == old(sent) + [Event(Error, phase, ORCHESTRATOR, text)]
      ensures Blocking(sent) == Blocking(old(sent)) + 1
    {
      Emit(Event(Error, phase, ORCHESTRATOR, text));
    }

    /** `close(events)`, at once, whoever is blocked. None of the goroutine's own sends is; if another's
        is, the process goes down. */
    method CloseEvents()
      requires Valid()
      modifies `chan
      ensures Inv(chan) && chan.closed && Ours(chan, mine, sent, alone) && Free(chan, mine) && HandlerWaits()
      ensures Scheduled(chan) && (chan.panicked <==> chan.waiting != [])
      ensures alone ==> OnlyLogsBlocked(chan)
    {
      hide Inv, Ours, Next, Enabled, Scheduled;
      LetOthers();
      assert mine[..|mine|] == mine;
      CloseKeepsOurs(chan, mine, sent, alone);
      ScheduledOn(chan, Close);
      chan := Next(chan, Close);
      if alone { BlockedIsOthers(chan, mine, sent); }
    }
  }

  /** Nobody but a reading handler changes frames, and nobody but an ended run's lets the handler go. */
  lemma WaitingHandler(chan: Chan, a: Action, alone: bool)
    requires Inv(chan) && !chan.closed && Enabled(chan, a) && ByOthers(a, alone)
    ensures !chan.handler.Streaming? ==>
          Next(chan, a).handler == chan.handler && Next(chan, a).frames == chan.frames
  {
    hide InLine, Settled, LossOK, Timely;
  }

  lemma SendFree(chan: Chan, ev: Event, mine: seq<nat>, sent: seq<Event>, alone: bool)
    requires Ours(chan, mine, sent, alone) && Free(chan, mine)
    ensures Free(Sent(chan, ev), mine)
  {
  }

  lemma SendIs(chan: Chan, ev: Event)
    requires Inv(chan) && !chan.closed
    ensures Enabled(chan, Send(ev)) && Next(chan, Send(ev)) == Sent(chan, ev)
    ensures Sent(chan, ev).handler == chan.handler && Sent(chan, ev).frames == chan.frames
    ensures var t := Sent(chan, ev);
            !t.closed && t.now == chan.now && t.attempts == chan.attempts + [Attempt(ev, chan.now)]
  {
  }

  /** While a send is blocked time stays within its timeout. */
  lemma BlockedTime(chan: Chan, a: Action, i: nat)
    requires Inv(chan) && Enabled(chan, a) && i < |chan.attempts| && i in chan.waiting
    ensures IsTerminal(chan.attempts[i].event)
    ensures chan.now <= Next(chan, a).now <= chan.attempts[i].at + TERMINAL_TIMEOUT
    ensures chan.attempts <= Next(chan, a).attempts
  {
    var k :| 0 <= k < |chan.waiting| && chan.waiting[k] == i;
    WaitingTerminal(chan, k);
    assert chan.now <= Due(chan, k);
    hide Inv, Sent, Taken;
    if a.Tick? { assert a.later <= Due(chan, k); }
    TimeOf(chan, a);
  }

  lemma TimeOf(chan: Chan, a: Action)
    requires Enabled(chan, a)
    ensures Next(chan, a).now == (if a.Tick? then a.later else chan.now) && chan.attempts <= Next(chan, a).attempts
    ensures a.Tick? ==> chan.now <= a.later
  {
  }

  lemma SettleKeepsOurs(chan: Chan, i: nat, mine: seq<nat>, sent: seq<Event>, alone: bool)
    requires Inv(chan) && !chan.closed && Ours(chan, mine, sent, alone) && i < |chan.attempts|
    ensures !chan.panicked
    ensures var t := Settle(chan, i);
            && Inv(t) && !t.closed && Ours(t, mine, sent, alone)
            && i !in t.waiting && (forall k :: k in t.waiting ==> k in chan.waiting)
            && t.handler == chan.handler && t.frames == chan.frames
            && (i !in chan.waiting ==> t == chan)
            && (i in chan.waiting ==> IsTerminal(chan.attempts[i].event)
                                      && chan.now <= t.now <= chan.attempts[i].at + TERMINAL_TIMEOUT)
  {
    SettleEnds(chan, i);
    if i in chan.waiting {
      var k :| 0 <= k < |chan.waiting| && chan.waiting[k] == i;
      WaitingTerminal(chan, k);
    }
    hide Inv, Settle;
  }

  lemma CloseKeepsOurs(chan: Chan, mine: seq<nat>, sent: seq<Event>, alone: bool)
    requires Inv(chan) && !chan.closed && Ours(chan, mine, sent, alone)
    ensures Enabled(chan, Close)
    ensures var t := Next(chan, Close);
            && Inv(t) && t.closed && Ours(t, mine, sent, alone) && t == chan.(closed := true, panicked := t.panicked)
            && (t.panicked <==> t.waiting != [])
  {
    StepKeeps(chan, Close, Next(chan, Close));
    hide Inv;
  }
}
