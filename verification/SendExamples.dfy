/** Runs in which the outgoing path reorders, loses or stops: why the conditions of the theorems are needed. */
module SendExamples {
  import opened Framing
  import opened SendPath
  import opened SendOrder

  /** A run that ends in s, with `_send` called by flushes only. */
  ghost predicate Trace(r: seq<State>, ls: seq<Label>, s: State) {
    Run(r, ls) && OnlyFlushes(ls) && r[|ls|] == s
  }

  ghost predicate Reordered(r: seq<State>, ls: seq<Label>) {
    |ls| <= |r| && Overtaken(r, ls, |ls|)
  }

  ghost predicate Lossy(r: seq<State>, ls: seq<Label>) {
    |ls| <= |r| && Dropped(r, ls, |ls|)
  }

  lemma Extend(r: seq<State>, ls: seq<Label>, s: State, t: Tid, step: Step, s': State)
    returns (r': seq<State>, ls': seq<Label>)
    requires Trace(r, ls, s) && Do(s, t, step, s') && !step.CallSend?
    ensures Trace(r', ls', s')
    ensures Reordered(r, ls) || (step == Advance && Overtakes(s, t)) ==> Reordered(r', ls')
    ensures Lossy(r, ls) || (step == Clear && s.sendQueue != []) ==> Lossy(r', ls')
  {
    hide Do, Init, Overtakes;
    r', ls' := r + [s'], ls + [Label(t, step)];
    forall i | 0 <= i < |ls'| ensures Do(r'[i], ls'[i].t, ls'[i].step, r'[i + 1]) {
      if i < |ls| { assert Do(r[i], ls[i].t, ls[i].step, r[i + 1]); }
    }
    assert forall i :: 0 <= i < |r| ==> r'[i] == r[i];
    assert forall i :: 0 <= i < |ls| ==> ls'[i] == ls[i];
    assert r'[|ls|] == s && ls'[|ls|] == Label(t, step);
  }

  function Start(connected: bool): State {
    State(connected, [], 0, None, [], false, [], map[1 := Idle, 2 := Idle], [], [], [], [], [])
  }

  lemma StartTrace(connected: bool)
    ensures Trace([Start(connected)], [], Start(connected))
  {
  }

  function Nth(n: nat, p: Packet): Buf {
    Buf(n, Encode(p))
  }

  /** Two packets without payload. */
  const P := Packet(1, [])
  const Q := Packet(2, [])

  /** The packet p is accepted, and t has it in hand. */
  function Took(s: State, t: Tid, p: Packet): State {
    var b := Nth(|s.accepted|, p);
    At(s, t, Ready([b])).(accepted := s.accepted + [p], taken := s.taken + [b], reservedBytes := 0)
  }

  lemma SendAndTake(r0: seq<State>, ls0: seq<Label>, s: State, t: Tid, p: Packet)
    returns (r: seq<State>, ls: seq<Label>)
    requires Trace(r0, ls0, s) && Fits(p) && t in s.pcs && s.pcs[t] == Idle && s.reserved == []
    ensures Trace(r, ls, Took(s, t, p))
    ensures (Reordered(r0, ls0) ==> Reordered(r, ls)) && (Lossy(r0, ls0) ==> Lossy(r, ls))
  {
    hide Encode, Trace, Reordered, Lossy, Overtakes;
    var s1 := Accept(s, p);
    var s2 := At(s1, t, Flushing);
    r, ls := Extend(r0, ls0, s, t, Send(p), s1);
    r, ls := Extend(r, ls, s1, t, CallFlush(MIN_INTERVAL), s2);
    r, ls := Extend(r, ls, s2, t, Advance, TakeReserved(s2, t));
    assert s1.reserved == [Nth(|s.accepted|, p)];
    assert s2.pcs[t := Ready(s1.reserved)] == s.pcs[t := Ready(s1.reserved)];
  }

  /** A thread queues its buffer; it becomes the registering thread if there is none. */
  function Enqueued(s: State, t: Tid, b: Buf): State {
    Exchange(Append(s, t, [b]), t)
  }

  lemma EnqueueBuf(r0: seq<State>, ls0: seq<Label>, s: State, t: Tid, b: Buf) returns (r: seq<State>, ls: seq<Label>)
    requires Trace(r0, ls0, s) && t in s.pcs && s.pcs[t] == Ready([b]) && s.holder == None
    ensures Trace(r, ls, Enqueued(s, t, b))
    ensures Reordered(r0, ls0) || Overtakes(s, t) ==> Reordered(r, ls)
    ensures Lossy(r0, ls0) ==> Lossy(r, ls)
  {
    hide Trace, Reordered, Lossy, Overtakes;
    var s1 := Append(s, t, [b]);
    r, ls := Extend(r0, ls0, s, t, Advance, s1);
    r, ls := Extend(r, ls, s1, t, Advance, Exchange(s1, t));
  }

  /** The registering thread t, past its connection test, moves and submits the only queued buffer. */
  lemma SubmitBuf(r0: seq<State>, ls0: seq<Label>, s: State, t: Tid, b: Buf)
    returns (r: seq<State>, ls: seq<Label>, s': State)
    requires Trace(r0, ls0, s) && t in s.pcs && s.pcs[t] == Moving && s.sendQueue == [b] && s.holder == None
    requires s.segments == [] && s.submitted == []
    ensures Trace(r, ls, s') && s'.accepted == s.accepted && Flat(s'.submitted) == [b]
    ensures (Reordered(r0, ls0) ==> Reordered(r, ls)) && (Lossy(r0, ls0) ==> Lossy(r, ls))
  {
    hide Trace, Reordered, Lossy, Overtakes;
    var s1 := Move(s, t);
    s' := Submit(s1, t);
    r, ls := Extend(r0, ls0, s, t, Advance, s1);
    r, ls := Extend(r, ls, s1, t, Advance, s');
    assert s1.segments == [b];
    assert s'.submitted == [] + [[b]];
    FlatAppend([], [b]);
  }

  // ---- Reordering ----------------------------------------------------------------------------------------------

  /** Both threads have a packet in hand. */
  function BothHold(): State {
    State(true, [], 0, None, [], false, [], map[1 := Ready([Nth(0, P)]), 2 := Ready([Nth(1, Q)])], [], [P, Q],
          [Nth(0, P), Nth(1, Q)], [], [])
  }

  lemma BothTake() returns (r: seq<State>, ls: seq<Label>)
    ensures Trace(r, ls, BothHold())
  {
    hide Encode;
    var s0 := Start(true);
    var s1 := Took(s0, 1, P);
    StartTrace(true);
    assert Took(s1, 2, Q) == BothHold();
    assert s1.pcs[2] == Idle && s1.reserved == [];
    hide Trace, Reordered, Lossy, Took;
    r, ls := SendAndTake([s0], [], s0, 1, P);
    r, ls := SendAndTake(r, ls, s1, 2, Q);
  }

  /** Two flushing threads can submit the second packet before the first: thread 2 overtakes thread 1. */
  lemma TwoFlushersCanReorder() returns (r: seq<State>, ls: seq<Label>, s: State)
    ensures Run(r, ls) && OnlyFlushes(ls) && r[|ls|] == s && Overtaken(r, ls, |ls|)
    ensures s.accepted == [P, Q] && Flat(s.submitted) == [Nth(1, Q)]
  {
    hide Encode;
    var s0, b := BothHold(), Nth(1, Q);
    var s1 := Enqueued(s0, 2, b);
    var s2 := At(s1, 2, Moving);
    assert Overtakes(s0, 2) by {
      assert Holds(s0, 1) && Holds(s0, 2);
    }
    hide Nth;
    {
      hide Trace, Reordered, Lossy, Overtakes;
      r, ls := BothTake();
      r, ls := EnqueueBuf(r, ls, s0, 2, b);
      r, ls := Extend(r, ls, s1, 2, Advance, s2);
      r, ls, s := SubmitBuf(r, ls, s2, 2, b);
    }
  }

  // ---- Loss ----------------------------------------------------------------------------------------------------

  /** Thread 1 has queued its packet and is about to register it. */
  function Registered(connected: bool): State {
    State(connected, [], 0, None, [Nth(0, P)], true, [], map[1 := Registering, 2 := Idle], [], [P], [Nth(0, P)],
          [Nth(0, P)], [true])
  }

  lemma Register(connected: bool) returns (r: seq<State>, ls: seq<Label>)
    ensures Trace(r, ls, Registered(connected))
  {
    hide Encode, Nth;
    var s0, b := Start(connected), Nth(0, P);
    var s1 := Took(s0, 1, P);
    StartTrace(connected);
    assert Enqueued(s1, 1, b) == Registered(connected);
    {
      hide Trace, Reordered, Lossy, Overtakes;
      r, ls := SendAndTake([s0], [], s0, 1, P);
      r, ls := EnqueueBuf(r, ls, s1, 1, b);
    }
  }

  /** Thread 1 has passed the connection test, and its packet was dropped. */
  function Cleared(): State {
    State(false, [], 0, None, [], true, [], map[1 := Moving, 2 := Idle], [], [P], [Nth(0, P)], [Nth(0, P)], [false])
  }

  lemma ClearDrops() returns (r: seq<State>, ls: seq<Label>)
    ensures Trace(r, ls, Cleared()) && Lossy(r, ls)
  {
    hide Encode, Nth;
    var s0 := Registered(true);
    var s1 := At(s0, 1, Moving);
    var s2 := s1.(connected := false);
    assert Drop(s2) == Cleared();
    {
      hide Trace, Reordered, Lossy, Overtakes;
      r, ls := Register(true);
      r, ls := Extend(r, ls, s0, 1, Advance, s1);
      r, ls := Extend(r, ls, s1, 2, Disconnect, s2);
      r, ls := Extend(r, ls, s2, 2, Clear, Cleared());
    }
  }

  /** A `_clear` between the connection test and the move drops the first packet, and the second one leaves
      without it. */
  lemma ClearCanLeaveAGap() returns (r: seq<State>, ls: seq<Label>, s: State)
    ensures Run(r, ls) && OnlyFlushes(ls) && r[|ls|] == s && Dropped(r, ls, |ls|)
    ensures s.accepted == [P, Q] && Flat(s.submitted) == [Nth(1, Q)]
  {
    hide Encode, Nth;
    var s0, b := Cleared(), Nth(1, Q);
    var s1 := Took(s0, 2, Q);
    var s2 := Enqueued(s1, 2, b);
    assert s1.pcs[2] == Ready([b]) && s1.sending;
    assert s2.pcs[1] == Moving && s2.sendQueue == [b] && s2.accepted == [P, Q];
    {
      hide Trace, Reordered, Lossy, Overtakes, Enqueued, Took;
      r, ls := ClearDrops();
      r, ls := SendAndTake(r, ls, s0, 2, Q);
      r, ls := EnqueueBuf(r, ls, s1, 2, b);
      r, ls, s := SubmitBuf(r, ls, s2, 1, b);
    }
  }

  // ---- Standstill ------------------------------------------------------------------------------------------------

  /** Thread 1 has left through the disconnected branch, and the session is connected now. */
  function ConnectedLate(): State {
    State(true, [], 0, None, [Nth(0, P)], true, [], map[1 := Idle, 2 := Idle], [], [P], [Nth(0, P)],
          [Nth(0, P)], [true])
  }

  lemma LeaveEarly() returns (r: seq<State>, ls: seq<Label>)
    ensures Trace(r, ls, ConnectedLate())
  {
    hide Encode, Nth;
    var s0 := Registered(false);
    var s1 := At(s0, 1, Idle);
    assert s1.(connected := true) == ConnectedLate();
    {
      hide Trace, Reordered, Lossy, Overtakes;
      r, ls := Register(false);
      r, ls := Extend(r, ls, s0, 1, Advance, s1);
      r, ls := Extend(r, ls, s1, 2, Connect, ConnectedLate());
    }
  }

  /** A flush before the session is connected: afterwards it is connected and a packet is sent and flushed, but
      nothing is submitted, now or, being wedged, ever. */
  lemma FlushedTooEarly() returns (r: seq<State>, ls: seq<Label>, s: State)
    ensures Run(r, ls) && OnlyFlushes(ls) && r[|ls|] == s
    ensures s.connected && Wedged(s) && s.submitted == []
    ensures s.accepted == [P, Q] && s.sendQueue == [Nth(0, P), Nth(1, Q)] && s.pcs == map[1 := Idle, 2 := Idle]
  {
    hide Encode, Nth;
    var s0 := ConnectedLate();
    var s1 := Took(s0, 1, Q);
    s := Enqueued(s1, 1, Nth(1, Q));
    {
      hide Trace, Reordered, Lossy, Overtakes, Wedged;
      r, ls := LeaveEarly();
      r, ls := SendAndTake(r, ls, s0, 1, Q);
      r, ls := EnqueueBuf(r, ls, s1, 1, Nth(1, Q));
    }
  }
}
