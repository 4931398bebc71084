/** `streamLogs`: the incremental splitter that turns a container's log bytes into progress events.
    A char stands for one byte. */
module LogLines {
  import opened Wrappers
  import opened RunEvents
  import opened RunStates

  // ---------- Whole streams ----------

  /** The place of the first newline, or -1. */
  function IndexNewline(s: string): (i: int)
    ensures -1 <= i < |s|
    ensures i == -1 ==> '\n' !in s
    ensures i >= 0 ==> s[i] == '\n' && '\n' !in s[..i]
  {
    if s == "" then -1
    else if s[0] == '\n' then 0
    else
      var rest := IndexNewline(s[1..]);
      assert rest >= 0 ==> s[..rest + 1] == [s[0]] + s[1..][..rest];
      if rest == -1 then -1 else rest + 1
  }

  function TrimCR(line: string): (t: string)
    ensures t <= line && (t == "" || t[|t| - 1] != '\r')
    ensures forall i :: |t| <= i < |line| ==> line[i] == '\r'
  {
    if line == "" || line[|line| - 1] != '\r' then line else TrimCR(line[..|line| - 1])
  }

  /** What a line contributes: nothing when it is empty once its trailing CRs are gone. */
  function Shown(line: string): seq<string> {
    if TrimCR(line) == "" then [] else [TrimCR(line)]
  }

  /** The lines shown for a stream: one for each newline, in order. */
  function Lines(s: string): seq<string>
    decreases |s|
  {
    var i := IndexNewline(s);
    if i == -1 then [] else Shown(s[..i]) + Lines(s[i + 1..])
  }

  /** What follows the last newline. */
  function Rest(s: string): (r: string)
    ensures '\n' !in r
    decreases |s|
  {
    var i := IndexNewline(s);
    if i == -1 then s else Rest(s[i + 1..])
  }

  // ---------- The lines of a stream, stated without searching ----------

  function Joined(lines: seq<string>): string {
    if lines == [] then "" else lines[0] + "\n" + Joined(lines[1..])
  }

  function AllShown(lines: seq<string>): seq<string> {
    if lines == [] then [] else Shown(lines[0]) + AllShown(lines[1..])
  }

  predicate Plain(lines: seq<string>) {
    forall i :: 0 <= i < |lines| ==> '\n' !in lines[i]
  }

  lemma {:induction false} NewlineAt(s: string, k: nat)
    requires k < |s| && s[k] == '\n' && forall i :: 0 <= i < k ==> s[i] != '\n'
    ensures IndexNewline(s) == k
  {
    if k > 0 { NewlineAt(s[1..], k - 1); }
  }

  lemma FirstLine(head: string, tail: string)
    requires '\n' !in head
    ensures Lines(head + "\n" + tail) == Shown(head) + Lines(tail)
    ensures Rest(head + "\n" + tail) == Rest(tail)
  {
    var s := head + "\n" + tail;
    NewlineAt(s, |head|);
    assert s[..|head|] == head && s[|head| + 1..] == tail;
  }

  /** Whatever newline-free lines a stream is made of, those are the lines it is split into. */
  lemma {:induction false} SplitUndoesJoin(lines: seq<string>, rest: string)
    requires Plain(lines) && '\n' !in rest
    ensures Lines(Joined(lines) + rest) == AllShown(lines)
    ensures Rest(Joined(lines) + rest) == rest
  {
    hide Lines, Rest, Shown;
    if lines == [] {
      assert Joined(lines) + rest == rest;
      OneLine(rest);
    } else {
      FirstLine(lines[0], Joined(lines[1..]) + rest);
      Regroup(lines[0] + "\n", Joined(lines[1..]), rest);
      SplitUndoesJoin(lines[1..], rest);
    }
  }

  /** What is shown of a line: something, without a CR at its end, of which only CRs are left away. */
  predicate ShownOf(line: string, shown: string) {
    && shown != "" && shown <= line && shown[|shown| - 1] != '\r'
    && forall i :: |shown| <= i < |line| ==> line[i] == '\r'
  }

  predicate OnlyCRs(line: string) {
    forall i :: 0 <= i < |line| ==> line[i] == '\r'
  }

  lemma OneShown(line: string)
    ensures if Shown(line) == [] then OnlyCRs(line) else |Shown(line)| == 1 && ShownOf(line, Shown(line)[0])
  {
  }

  /** The lines shown are those that hold more than CRs, in order: line `k` shown is line `at[k]`. */
  lemma {:induction false} ShownMeans(lines: seq<string>) returns (at: seq<nat>)
    ensures |at| == |AllShown(lines)| && forall j, k :: 0 <= j < k < |at| ==> at[j] < at[k]
    ensures forall k :: 0 <= k < |at| ==> at[k] < |lines| && ShownOf(lines[at[k]], AllShown(lines)[k])
    ensures forall i: nat :: i < |lines| && i !in at ==> OnlyCRs(lines[i])
  {
    hide Shown, ShownOf, OnlyCRs;
    if lines == [] {
      at := [];
    } else {
      var init, last := lines[..|lines| - 1], lines[|lines| - 1];
      at := ShownMeans(init);
      assert lines == init + [last];
      ShownAppend(init, [last]);
      assert AllShown([last]) == Shown(last) + AllShown([]) == Shown(last);
      OneShown(last);
      if Shown(last) != [] {
        ghost var was := at;
        at := at + [|init|];
        assert forall i :: i in at <==> i in was || i == |init|;
      }
    }
  }

  lemma OneLine(s: string)
    ensures var i := IndexNewline(s);
            if i == -1 then Lines(s) == [] && Rest(s) == s
            else Lines(s) == Shown(s[..i]) + Lines(s[i + 1..]) && Rest(s) == Rest(s[i + 1..])
  {
  }

  lemma JoinedCons(line: string, more: seq<string>)
    ensures Joined([line] + more) == line + "\n" + Joined(more)
  {
    assert ([line] + more)[1..] == more;
  }

  lemma NoLines(s: string)
    ensures s == Joined([]) + s
  {
  }

  /** Every stream is such lines and a rest. */
  lemma {:induction false} SplitExists(s: string) returns (lines: seq<string>)
    ensures Plain(lines) && s == Joined(lines) + Rest(s)
    decreases |s|
  {
    hide Joined, Rest;
    OneLine(s);
    var i := IndexNewline(s);
    if i == -1 {
      lines := [];
      NoLines(s);
    } else {
      var more := SplitExists(s[i + 1..]);
      lines := [s[..i]] + more;
      JoinedCons(s[..i], more);
      assert s == (s[..i] + "\n") + s[i + 1..];
      Regroup(s[..i] + "\n", Joined(more), Rest(s));
    }
  }

  lemma Regroup(a: string, b: string, c: string)
    ensures (a + b) + c == a + (b + c)
  {
  }

  // ---------- Splitting in pieces ----------

  lemma {:induction false} JoinedAppend(a: seq<string>, b: seq<string>)
    ensures Joined(a + b) == Joined(a) + Joined(b)
  {
    if a == [] {
      assert a + b == b;
    } else {
      JoinedAppend(a[1..], b);
      assert (a + b)[1..] == a[1..] + b && (a + b)[0] == a[0];
      Regroup(a[0] + "\n", Joined(a[1..]), Joined(b));
    }
  }

  lemma {:induction false} ShownAppend(a: seq<string>, b: seq<string>)
    ensures AllShown(a + b) == AllShown(a) + AllShown(b)
  {
    hide Shown;
    if a == [] {
      assert a + b == b;
    } else {
      ShownAppend(a[1..], b);
      assert (a + b)[1..] == a[1..] + b && (a + b)[0] == a[0];
    }
  }

  /** Splitting what came first and then the rest of it with what comes next is splitting it all. */
  lemma SplitInPieces(a: string, b: string)
    ensures Lines(a + b) == Lines(a) + Lines(Rest(a) + b)
    ensures Rest(a + b) == Rest(Rest(a) + b)
  {
    hide Lines, Rest, Joined, AllShown;
    var first := SplitExists(a);
    var second := SplitExists(Rest(a) + b);
    var end := Rest(Rest(a) + b);
    JoinedAppend(first, second);
    ShownAppend(first, second);
    Regroup(Joined(first), Rest(a), b);
    Regroup(Joined(first), Joined(second), end);
    SplitUndoesJoin(first, Rest(a));
    SplitUndoesJoin(second, end);
    SplitUndoesJoin(first + second, end);
  }

  // ---------- The reader ----------

  datatype Ending = EOF | Cancelled | Broken

  /** A container's log stream: it hands out `source` in pieces of any size and ends, at the latest
      when its reads are used up. */
  class LogReader {
    const source: string
    var pos: nat
    var readsLeft: nat
    ghost var ended: Option<Ending>  // what a read has ended with

    constructor (source: string, count: nat)
      ensures this.source == source && pos == 0 && readsLeft == count && ended == None
    {
      this.source, pos, readsLeft, ended := source, 0, count, None;
    }

    /** `Read`: bytes and an error may come together. */
    method Read(tmp: array<char>) returns (n: nat, rerr: Option<Ending>)
      requires pos <= |source|
      modifies this, tmp
      ensures n <= tmp.Length && pos == old(pos) + n <= |source|
      ensures tmp[..n] == source[old(pos)..pos]
      ensures rerr == None ==> readsLeft < old(readsLeft)
      ensures ended == if rerr.Some? then rerr else old(ended)
    {
      var wish: int := *;
      rerr := *;
      var room := if tmp.Length <= |source| - pos then tmp.Length else |source| - pos;
      n := if wish < 0 then 0 else if wish > room then room else wish;
      for i := 0 to n
        invariant pos == old(pos) && readsLeft == old(readsLeft) && ended == old(ended)
        invariant forall j :: 0 <= j < i ==> tmp[j] == source[pos + j]
      {
        tmp[i] := source[pos + i];
      }
      pos := pos + n;
      if readsLeft == 0 {
        if rerr == None { rerr := Some(EOF); }
      } else {
        readsLeft := readsLeft - 1;
      }
      if rerr.Some? { ended := rerr; }
    }
  }

  // ---------- The splitter ----------

  function ProgressOf(source: string, lines: seq<string>): seq<Event> {
    seq(|lines|, i requires 0 <= i < |lines| => Event(Progress, "", source, lines[i]))
  }

  lemma ProgressAppend(source: string, a: seq<string>, b: seq<string>)
    ensures ProgressOf(source, a + b) == ProgressOf(source, a) + ProgressOf(source, b)
    ensures |b| == 1 ==> ProgressOf(source, b) == [Event(Progress, "", source, b[0])]
  {
  }

  /** The whole lines in `buf` go out as progress events; what is left has no newline. */
  method EmitLines(buf: string, source: string, state: RunState) returns (rest: string)
    requires state.Valid() && source != ORCHESTRATOR
    modifies state`chan, state`sent, state`waited, state`mine
    ensures rest == Rest(buf)
    ensures state.sent == old(state.sent) + ProgressOf(source, Lines(buf))
    ensures state.Valid()
  {
    hide Story, Blocking, RunState.Valid, TrimCR, Lines, Rest, ProgressOf;
    rest := buf;
    ghost var done: seq<string> := [];
    NothingRead(source);
    while true
      invariant Rest(rest) == Rest(buf) && Lines(buf) == done + Lines(rest)
      invariant state.sent == old(state.sent) + ProgressOf(source, done)
      invariant state.Valid()
      decreases |rest|
    {
      OneLine(rest);
      var i := IndexNewline(rest);
      if i < 0 {
        assert done + Lines(rest) == done;
        break;
      }
      var line := TrimCR(rest[..i]);
      rest := rest[i + 1..];
      if line != "" {
        ProgressAppend(source, done, [line]);
        state.Emit(Event(Progress, "", source, line));
        done := done + [line];
      }
    }
  }

  function ErrorOf(source: string, text: string): Event {
    Event(Error, "logs", source, text)
  }

  /** `streamLogs`, with no reader when the logs cannot be opened. However the bytes arrive, the progress
      events sent are exactly the lines of all bytes received, in order; then one error event if the
      stream broke; and nothing but an error event if it could not be opened. */
  method StreamLogs(reader: LogReader?, source: string, state: RunState) returns (buf: string, ending: Ending)
    requires reader != null ==> reader.pos == 0 && reader.ended == None
    requires state.Valid() && source != ORCHESTRATOR
    modifies if reader == null then {} else {reader}
    modifies state`chan, state`sent, state`waited, state`mine
    ensures state.Valid()
    ensures reader == null ==>
              ending.Broken? && buf == "" && state.sent == old(state.sent) + [Event(Error, "logs", source, "open")]
    ensures reader != null ==> reader.pos <= |reader.source| && buf == Rest(reader.source[..reader.pos])
    ensures reader != null ==> reader.ended == Some(ending)
    ensures reader != null ==>
              var lines := Lines(reader.source[..reader.pos]);
              state.sent == old(state.sent)
                            + seq(|lines|, i requires 0 <= i < |lines| => Event(Progress, "", source, lines[i]))
                            + if ending.Broken? then [Event(Error, "logs", source, "read")] else []
  {
    if reader == null {
      state.Emit(ErrorOf(source, "open"));
      return "", Broken;
    }
    buf, ending := StreamFrom(reader, source, state);
  }

  /** The reading loop. */
  method StreamFrom(reader: LogReader, source: string, state: RunState) returns (buf: string, ending: Ending)
    requires reader.pos == 0 && reader.ended == None
    requires state.Valid() && source != ORCHESTRATOR
    modifies reader, state`chan, state`sent, state`waited, state`mine
    ensures state.Valid()
    ensures reader.ended == Some(ending)
    ensures reader.pos <= |reader.source| && buf == Rest(reader.source[..reader.pos])
    ensures state.sent == old(state.sent) + ProgressOf(source, Lines(reader.source[..reader.pos]))
                          + if ending.Broken? then [ErrorOf(source, "read")] else []
  {
    hide Story, Blocking, RunState.Valid, Lines, Rest, ProgressOf;
    buf := "";
    var tmp := new char[4096];
    NothingRead(source);
    assert reader.source[..0] == "";
    while true
      invariant reader.pos <= |reader.source| && buf == Rest(reader.source[..reader.pos])
      invariant state.sent == old(state.sent) + ProgressOf(source, Lines(reader.source[..reader.pos]))
      invariant state.Valid() && fresh(tmp)
      decreases reader.readsLeft
    {
      ghost var seen := reader.source[..reader.pos];
      var n, rerr := reader.Read(tmp);
      assert reader.source[..reader.pos] == seen + tmp[..n];
      SplitInPieces(seen, tmp[..n]);
      ProgressAppend(source, Lines(seen), Lines(buf + tmp[..n]));
      if n > 0 {
        buf := buf + tmp[..n];
        buf := EmitLines(buf, source, state);
      } else {
        assert seen + tmp[..n] == seen;
      }
      if rerr.Some? {
        if rerr.value.Broken? {
          state.Emit(ErrorOf(source, "read"));
        }
        ending := rerr.value;
        return;
      }
    }
  }

  lemma NothingRead(source: string)
    ensures Lines("") == [] && Rest("") == "" && ProgressOf(source, []) == []
  {
  }
}
