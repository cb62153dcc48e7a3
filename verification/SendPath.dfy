/** The outgoing path: `PacketSession::Send` and `Flush`, then `Session::_send` and `_register_send`, one
    transition per locked region or atomic operation, with any number of threads.  The session may be
    connected, disconnected and cleared at any time. */
module SendPath {
  import opened Framing

  type Tid = nat

  const WORD := 0x1_0000_0000
  const MIN_INTERVAL := 1000 // FLUSH_SEND_MIN_INTERVAL_TICK
  const MIN_BYTES := 128     // FLUSH_SEND_MIN_RESERVED_BYTE_LENGTH

  /** A buffer to send.  `n` only tells buffers apart: the n-th packet given to `Send`. */
  datatype Buf = Buf(n: nat, data: seq<Byte>)

  datatype Pc =
    | Idle
    | Flushing               // Flush: condition passed, before the locked move out of _reserved
    | Ready(list: seq<Buf>)  // _send: before taking the send lock
    | Queued                 // _send: holds the send lock, before the exchange of _sending
    | Registering            // _register_send: before the connection test
    | Moving                 // _register_send: before the locked move to the segments
    | Submitting             // _register_send: before WSASend
    | Clearing               // _register_send: before clearing the segments
    | Storing                // _register_send: before _sending.store(false)

  datatype Option<+T> = None | Some(value: T)

  /** `submitted` is the log of WSASend calls.  Histories: `accepted` are the packets given to `Send`, `taken`
      the buffers in the order flushes took them out of the reserve, `locked` those in the order their senders
      took the send lock, and `alive` says which of those `_clear` has not dropped. */
  datatype State = State(connected: bool, reserved: seq<Buf>, reservedBytes: nat, holder: Option<Tid>,
                         sendQueue: seq<Buf>, sending: bool, segments: seq<Buf>, pcs: map<Tid, Pc>,
                         submitted: seq<seq<Buf>>, accepted: seq<Packet>, taken: seq<Buf>, locked: seq<Buf>,
                         alive: seq<bool>)

  function At(s: State, t: Tid, pc: Pc): State {
    s.(pcs := s.pcs[t := pc])
  }

  // ---- Steps ----------------------------------------------------------------------------------------------

  datatype Step =
    | Send(p: Packet)                // PacketSession::Send
    | CallFlush(dt: nat)             // PacketSession::Flush, dt ticks after the last one
    | CallSend(list: seq<Buf>)       // Session::_send by another caller
    | Connect                        // _set_connected
    | Disconnect                     // Disconnect, or the end of _clear
    | Clear                          // _clear: _sendQueue.clear(), without the send lock
    | Advance

  function Accept(s: State, p: Packet): State {
    s.(reserved := s.reserved + [Buf(|s.accepted|, Encode(p))], accepted := s.accepted + [p],
       reservedBytes := (s.reservedBytes + |p.payload| + HEADER) % WORD)
  }

  function TakeReserved(s: State, t: Tid): State {
    if s.reserved == [] then At(s, t, Idle)
    else At(s, t, Ready(s.reserved)).(reserved := [], reservedBytes := 0, taken := s.taken + s.reserved)
  }

  function Append(s: State, t: Tid, list: seq<Buf>): State {
    At(s, t, Queued).(holder := Some(t), sendQueue := s.sendQueue + list, locked := s.locked + list,
                         alive := s.alive + Repeat(true, |list|))
  }

  function Exchange(s: State, t: Tid): State {
    At(s, t, if s.sending then Idle else Registering).(holder := None, sending := true)
  }

  function Move(s: State, t: Tid): State {
    At(s, t, Submitting).(segments := s.segments + s.sendQueue, sendQueue := [])
  }

  function Submit(s: State, t: Tid): State {
    At(s, t, Clearing).(submitted := s.submitted + [s.segments])
  }

  function Repeat(b: bool, n: nat): (bs: seq<bool>)
    ensures |bs| == n && forall i :: 0 <= i < n ==> bs[i] == b
  {
    seq(n, _ => b)
  }

  /** The last k places are dropped. */
  function Cut(alive: seq<bool>, k: nat): (bs: seq<bool>)
    ensures |bs| == |alive|
  {
    if k <= |alive| then alive[..|alive| - k] + Repeat(false, k) else Repeat(false, |alive|)
  }

  /** What is queued is what was locked last. */
  function Drop(s: State): State {
    s.(sendQueue := [], alive := Cut(s.alive, |s.sendQueue|))
  }

  /** The next atomic operation of the call that t is in. */
  ghost predicate Proceed(s: State, t: Tid, s': State)
    requires t in s.pcs
  {
    match s.pcs[t]
    case Idle => false
    case Flushing => s' == TakeReserved(s, t)
    case Ready(list) => s.holder == None && s' == Append(s, t, list)
    case Queued => s' == Exchange(s, t)
    case Registering => s' == At(s, t, if s.connected then Moving else Idle)
    case Moving => s.holder == None && s' == Move(s, t)
    case Submitting => s' == Submit(s, t)
    case Clearing => s' == At(s, t, Storing).(segments := [])
    case Storing => s' == At(s, t, Idle).(sending := false)
  }

  ghost predicate Do(s: State, t: Tid, step: Step, s': State) {
    t in s.pcs &&
    match step
    case Send(p) => s.pcs[t] == Idle && Fits(p) && s' == Accept(s, p)
    case CallFlush(dt) =>
      s.pcs[t] == Idle && s' == if dt < MIN_INTERVAL && s.reservedBytes < MIN_BYTES then s else At(s, t, Flushing)
    case CallSend(list) => s.pcs[t] == Idle && s' == if list == [] then s else At(s, t, Ready(list))
    case Connect => s' == s.(connected := true)
    case Disconnect => s' == s.(connected := false)
    case Clear => s' == Drop(s)
    case Advance => Proceed(s, t, s')
  }

  ghost predicate Init(s: State) {
    && s.reserved == [] && s.reservedBytes == 0 && s.holder == None && s.sendQueue == [] && !s.sending
    && s.segments == [] && s.submitted == [] && s.accepted == [] && s.taken == [] && s.locked == [] && s.alive == []
    && forall t :: t in s.pcs ==> s.pcs[t] == Idle
  }

  /** A step with its thread and its kind. */
  datatype Label = Label(t: Tid, step: Step)

  /** A run: its states, and the steps between them. */
  ghost predicate Run(r: seq<State>, ls: seq<Label>) {
    && |r| == |ls| + 1 && Init(r[0])
    && forall i :: 0 <= i < |ls| ==> Do(r[i], ls[i].t, ls[i].step, r[i + 1])
  }

  lemma StepOf(r: seq<State>, ls: seq<Label>, n: nat)
    requires Run(r, ls) && 0 < n < |r|
    ensures Do(r[n - 1], ls[n - 1].t, ls[n - 1].step, r[n])
  {
    hide Do, Init;
    assert Do(r[n - 1], ls[n - 1].t, ls[n - 1].step, r[n - 1 + 1]);
  }

  // ---- The registering region ------------------------------------------------------------------------------

  predicate InRegion(pc: Pc) {
    pc.Registering? || pc.Moving? || pc.Submitting? || pc.Clearing? || pc.Storing?
  }

  function Flat(batches: seq<seq<Buf>>): seq<Buf> {
    if batches == [] then [] else Flat(batches[..|batches| - 1]) + batches[|batches| - 1]
  }

  function Total(bufs: seq<Buf>): nat {
    if bufs == [] then 0 else Total(bufs[..|bufs| - 1]) + |bufs[|bufs| - 1].data|
  }

  ghost predicate HasSubmitter(s: State) {
    exists t :: t in s.pcs && s.pcs[t] == Submitting
  }

  /** The segments that are moved but not yet submitted. */
  ghost function Unsubmitted(s: State): seq<Buf> {
    if HasSubmitter(s) then s.segments else []
  }

  /** Everything that has gone through the send lock and is still to be seen: submitted, then moved, then queued. */
  ghost function Outgoing(s: State): seq<Buf> {
    Flat(s.submitted) + Unsubmitted(s) + s.sendQueue
  }

  /** At most one thread registers, and it owns the segment list. */
  ghost predicate RegionOk(s: State) {
    && (forall t, u :: t in s.pcs && u in s.pcs && InRegion(s.pcs[t]) && InRegion(s.pcs[u]) ==> t == u)
    && (forall t :: t in s.pcs && InRegion(s.pcs[t]) ==> s.sending)
    && (forall t :: t in s.pcs && (s.pcs[t] == Moving || s.pcs[t] == Storing || s.pcs[t] == Registering) ==>
          s.segments == [])
    && ((forall t :: t in s.pcs ==> !InRegion(s.pcs[t])) ==> s.segments == [])
  }

  ghost predicate HolderOk(s: State) {
    forall t :: t in s.pcs ==> (s.holder == Some(t) <==> s.pcs[t] == Queued)
  }

  /** What is left of the locked buffers when the dropped ones are taken out. */
  function Surviving(bufs: seq<Buf>, alive: seq<bool>): seq<Buf>
    requires |bufs| == |alive|
  {
    if bufs == [] then []
    else
      var n := |bufs| - 1;
      Surviving(bufs[..n], alive[..n]) + if alive[n] then [bufs[n]] else []
  }

  /** The queue is the end of what was locked, and nothing of it is dropped. */
  ghost predicate QueueOk(s: State) {
    && |s.sendQueue| <= |s.locked| == |s.alive| && s.locked[|s.locked| - |s.sendQueue|..] == s.sendQueue
    && forall i :: |s.locked| - |s.sendQueue| <= i < |s.alive| ==> s.alive[i]
  }

  ghost predicate Conserved(s: State) {
    |s.locked| == |s.alive| && Outgoing(s) == Surviving(s.locked, s.alive)
  }

  ghost predicate BytesOk(s: State) {
    s.reservedBytes == Total(s.reserved) % WORD
  }

  ghost predicate Inv(s: State) {
    RegionOk(s) && HolderOk(s) && QueueOk(s) && Conserved(s) && BytesOk(s)
  }

  /** Only these facts about a step matter for the registering region. */
  ghost predicate RegionStep(s: State, t: Tid, s': State) {
    && t in s.pcs && t in s'.pcs && s'.pcs == s.pcs[t := s'.pcs[t]]
    && (InRegion(s'.pcs[t]) ==> (InRegion(s.pcs[t]) && s'.sending == s.sending) || (!s.sending && s'.sending))
    && (s'.sending == s.sending || InRegion(s'.pcs[t]) || (s.pcs[t] == Storing && !InRegion(s'.pcs[t])))
    && (s'.segments == s.segments || s.pcs[t] == Moving || s.pcs[t] == Clearing)
    && (InRegion(s.pcs[t]) && !InRegion(s'.pcs[t]) ==> s.pcs[t] == Storing || s.pcs[t] == Registering)
    && (s'.pcs[t] == Moving ==> s.pcs[t] == Registering || s.pcs[t] == Moving)
    && (s'.pcs[t] == Registering ==> !InRegion(s.pcs[t]) || s.pcs[t] == Registering)
    && (s'.pcs[t] == Storing ==> s'.segments == [] || s.pcs[t] == Storing)
    && (s.pcs[t] == Moving && s'.pcs[t] != Moving ==> s'.pcs[t] == Submitting)
    && (s.pcs[t] == Clearing && s'.pcs[t] != Clearing ==> s'.pcs[t] == Storing)
    && (s'.pcs[t] == s.pcs[t] ==> s'.segments == s.segments)
  }

  lemma StepsTheRegion(s: State, t: Tid, step: Step, s': State)
    requires Do(s, t, step, s')
    ensures RegionStep(s, t, s')
  {
    hide Encode, Proceed, RegionStep;
    if step == Advance {
      ProceedsInRegion(s, t, s');
    } else {
      StepsOutsideRegion(s, t, s');
    }
  }

  lemma StepsOutsideRegion(s: State, t: Tid, s': State)
    requires t in s.pcs && s'.sending == s.sending && s'.segments == s.segments
    requires || s'.pcs == s.pcs
             || (t in s'.pcs && s'.pcs == s.pcs[t := s'.pcs[t]] && s.pcs[t] == Idle && !InRegion(s'.pcs[t]))
    ensures RegionStep(s, t, s')
  {
    assert s.pcs == s.pcs[t := s.pcs[t]];
  }

  lemma ProceedsInRegion(s: State, t: Tid, s': State)
    requires t in s.pcs && Proceed(s, t, s')
    ensures RegionStep(s, t, s')
  {
    assert t in s'.pcs && s'.pcs == s.pcs[t := s'.pcs[t]];
  }

  lemma RegionKept(s: State, t: Tid, s': State)
    requires RegionOk(s) && RegionStep(s, t, s')
    ensures RegionOk(s')
  {
    if forall u :: u in s'.pcs ==> !InRegion(s'.pcs[u]) {
      if !InRegion(s.pcs[t]) {
        forall u | u in s.pcs ensures !InRegion(s.pcs[u]) { assert u in s'.pcs; }
      }
    }
  }

  lemma HolderKept(s: State, t: Tid, step: Step, s': State)
    requires HolderOk(s) && Do(s, t, step, s')
    ensures HolderOk(s')
  {
    hide Encode, Proceed;
    if step == Advance { HolderProceeds(s, t, s'); }
  }

  lemma HolderProceeds(s: State, t: Tid, s': State)
    requires HolderOk(s) && t in s.pcs && Proceed(s, t, s')
    ensures HolderOk(s')
  {
  }

  // ---- Conservation ------------------------------------------------------------------------------------------

  lemma {:induction false} SurvivingSplit(a: seq<Buf>, x: seq<bool>, b: seq<Buf>, y: seq<bool>)
    requires |a| == |x| && |b| == |y|
    ensures Surviving(a + b, x + y) == Surviving(a, x) + Surviving(b, y)
    decreases |b|
  {
    if b == [] {
      assert a + b == a && x + y == x;
    } else {
      var n := |b| - 1;
      SurvivingSplit(a, x, b[..n], y[..n]);
      assert (a + b)[..|a| + n] == a + b[..n] && (x + y)[..|a| + n] == x + y[..n];
    }
  }

  lemma {:induction false} SurvivingUniform(bufs: seq<Buf>, alive: seq<bool>)
    requires |bufs| == |alive|
    ensures (forall i :: 0 <= i < |alive| ==> alive[i]) ==> Surviving(bufs, alive) == bufs
    ensures (forall i :: 0 <= i < |alive| ==> !alive[i]) ==> Surviving(bufs, alive) == []
  {
    if bufs != [] {
      var n := |bufs| - 1;
      SurvivingUniform(bufs[..n], alive[..n]);
      assert bufs == bufs[..n] + [bufs[n]];
    }
  }

  lemma {:induction false} SurvivingLength(bufs: seq<Buf>, alive: seq<bool>)
    requires |bufs| == |alive|
    ensures |Surviving(bufs, alive)| <= |bufs|
    ensures (exists i :: 0 <= i < |alive| && !alive[i]) ==> |Surviving(bufs, alive)| < |bufs|
  {
    if bufs != [] { SurvivingLength(bufs[..|bufs| - 1], alive[..|bufs| - 1]); }
  }

  lemma QueueKept(s: State, t: Tid, step: Step, s': State)
    requires QueueOk(s) && Do(s, t, step, s')
    ensures QueueOk(s')
  {
    hide Encode, Proceed;
    if step == Advance { QueueProceeds(s, t, s'); }
  }

  lemma QueueProceeds(s: State, t: Tid, s': State)
    requires QueueOk(s) && t in s.pcs && Proceed(s, t, s')
    ensures QueueOk(s')
  {
    hide QueueOk;
    if s.pcs[t].Ready? {
      QueueAppend(s, t, s.pcs[t].list);
    } else {
      QueueShrinks(s, s');
    }
  }

  lemma QueueAppend(s: State, t: Tid, list: seq<Buf>)
    requires QueueOk(s)
    ensures QueueOk(Append(s, t, list))
  {
    assert (s.locked + list)[|s.locked| - |s.sendQueue|..] == s.sendQueue + list;
  }

  lemma QueueShrinks(s: State, s': State)
    requires QueueOk(s) && s'.locked == s.locked && s'.alive == s.alive
    requires s'.sendQueue == s.sendQueue || s'.sendQueue == []
    ensures QueueOk(s')
  {
  }

  lemma ConservedKept(s: State, t: Tid, step: Step, s': State)
    requires RegionOk(s) && QueueOk(s) && Conserved(s) && Do(s, t, step, s') && RegionOk(s')
    ensures Conserved(s')
  {
    hide Flat, RegionOk, QueueOk, HasSubmitter, Conserved, Encode, Proceed, Drop;
    if step == Advance {
      ProceedConserves(s, t, s');
    } else if step == Clear {
      DropConserves(s);
    } else {
      if s'.pcs == s.pcs { SameSubmitter(s, s'); } else { SubmitterKept(s, t, s'); }
      NothingMoved(s, s');
    }
  }

  lemma ProceedConserves(s: State, t: Tid, s': State)
    requires RegionOk(s) && QueueOk(s) && Conserved(s) && t in s.pcs && Proceed(s, t, s') && RegionOk(s')
    ensures Conserved(s')
  {
    hide Flat, RegionOk, QueueOk, HasSubmitter, Conserved;
    match s.pcs[t]
    case Moving => MoveConserves(s, t);
    case Submitting => SubmitConserves(s, t);
    case Ready(list) => AppendConserves(s, t, list);
    case Clearing =>
      SoleSubmitter(s, t);
      SoleSubmitter(s', t);
      NothingMoved(s, s');
    case _ =>
      SubmitterKept(s, t, s');
      NothingMoved(s, s');
  }

  lemma NothingMoved(s: State, s': State)
    requires Conserved(s) && HasSubmitter(s') == HasSubmitter(s) && (HasSubmitter(s) ==> s'.segments == s.segments)
    requires s'.submitted == s.submitted && s'.sendQueue == s.sendQueue && s'.locked == s.locked && s'.alive == s.alive
    ensures Conserved(s')
  {
  }

  lemma DropConserves(s: State)
    requires QueueOk(s) && Conserved(s)
    ensures Conserved(Drop(s))
  {
    hide HasSubmitter, Flat, Surviving;
    var s', m, k := Drop(s), |s.locked| - |s.sendQueue|, |s.sendQueue|;
    var before := Flat(s.submitted) + Unsubmitted(s);
    SameSubmitter(s, s');
    assert s.locked == s.locked[..m] + s.sendQueue && s.alive == s.alive[..m] + s.alive[m..];
    SurvivingSplit(s.locked[..m], s.alive[..m], s.sendQueue, s.alive[m..]);
    SurvivingSplit(s.locked[..m], s.alive[..m], s.sendQueue, Repeat(false, k));
    SurvivingUniform(s.sendQueue, s.alive[m..]);
    SurvivingUniform(s.sendQueue, Repeat(false, k));
    assert before + s.sendQueue == Surviving(s.locked[..m], s.alive[..m]) + s.sendQueue;
    assert before == (before + s.sendQueue)[..|before|];
    assert before + [] == before;
  }

  lemma MoveConserves(s: State, t: Tid)
    requires RegionOk(s) && Conserved(s) && t in s.pcs && s.pcs[t] == Moving && RegionOk(Move(s, t))
    ensures Conserved(Move(s, t))
  {
    hide RegionOk, HasSubmitter, Conserved;
    SoleSubmitter(s, t);
    SoleSubmitter(Move(s, t), t);
    assert [] + s.sendQueue == s.sendQueue;
    MovedConserves(s, Move(s, t));
  }

  lemma MovedConserves(s: State, s': State)
    requires Conserved(s) && s'.submitted == s.submitted && s'.locked == s.locked && s'.alive == s.alive
    requires Unsubmitted(s) == [] == s'.sendQueue && Unsubmitted(s') == s.sendQueue
    ensures Conserved(s')
  {
    hide Unsubmitted, Flat, Surviving;
    assert Flat(s.submitted) + [] + s.sendQueue == Flat(s.submitted) + s.sendQueue + [];
  }

  lemma SubmitConserves(s: State, t: Tid)
    requires RegionOk(s) && Conserved(s) && t in s.pcs && s.pcs[t] == Submitting && RegionOk(Submit(s, t))
    ensures Conserved(Submit(s, t))
  {
    hide RegionOk, HasSubmitter, Flat, Surviving;
    SoleSubmitter(s, t);
    SoleSubmitter(Submit(s, t), t);
    FlatAppend(s.submitted, s.segments);
  }

  lemma AppendConserves(s: State, t: Tid, list: seq<Buf>)
    requires QueueOk(s) && Conserved(s) && t in s.pcs && s.pcs[t] == Ready(list)
    ensures Conserved(Append(s, t, list))
  {
    hide HasSubmitter, Flat, Surviving;
    SubmitterKept(s, t, Append(s, t, list));
    SurvivingSplit(s.locked, s.alive, list, Repeat(true, |list|));
    SurvivingUniform(list, Repeat(true, |list|));
    assert Flat(s.submitted) + Unsubmitted(s) + (s.sendQueue + list) == Surviving(s.locked, s.alive) + list;
  }

  lemma SoleSubmitter(s: State, t: Tid)
    requires RegionOk(s) && t in s.pcs && InRegion(s.pcs[t])
    ensures HasSubmitter(s) <==> s.pcs[t] == Submitting
    ensures s.pcs[t] == Moving ==> s.segments == []
  {
  }

  lemma SameSubmitter(s: State, s': State)
    requires s'.pcs == s.pcs
    ensures HasSubmitter(s') == HasSubmitter(s)
  {
  }

  lemma SubmitterKept(s: State, t: Tid, s': State)
    requires t in s.pcs && (s'.pcs == s.pcs || (t in s'.pcs && s'.pcs == s.pcs[t := s'.pcs[t]]))
    requires t in s'.pcs && s.pcs[t] != Submitting && s'.pcs[t] != Submitting
    ensures HasSubmitter(s') == HasSubmitter(s)
  {
    if HasSubmitter(s) {
      var u :| u in s.pcs && s.pcs[u] == Submitting;
      assert s'.pcs[u] == Submitting;
    }
  }

  lemma FlatAppend(batches: seq<seq<Buf>>, b: seq<Buf>)
    ensures Flat(batches + [b]) == Flat(batches) + b
  {
    assert (batches + [b])[..|batches|] == batches;
  }

  // ---- The byte counter ---------------------------------------------------------------------------------------

  lemma TotalAppend(bufs: seq<Buf>, b: Buf)
    ensures Total(bufs + [b]) == Total(bufs) + |b.data|
  {
    assert (bufs + [b])[..|bufs|] == bufs;
  }

  lemma BytesKept(s: State, t: Tid, step: Step, s': State)
    requires BytesOk(s) && Do(s, t, step, s')
    ensures BytesOk(s')
  {
    hide Total, Encode, Proceed;
    if step.Send? {
      AcceptBytes(s, step.p);
    } else if step == Advance {
      TotalNone();
      BytesProceed(s, t, s');
    }
  }

  /** Apart from `Send`, a step leaves the reserve alone or empties it. */
  lemma BytesProceed(s: State, t: Tid, s': State)
    requires t in s.pcs && Proceed(s, t, s')
    ensures || (s'.reserved == s.reserved && s'.reservedBytes == s.reservedBytes)
            || (s'.reserved == [] && s'.reservedBytes == 0)
  {
  }

  lemma AcceptBytes(s: State, p: Packet)
    requires BytesOk(s)
    ensures BytesOk(Accept(s, p))
  {
    EncodedLength(p);
    hide Encode, Total;
    TotalAppend(s.reserved, Buf(|s.accepted|, Encode(p)));
    WrapSum(Total(s.reserved), |p.payload| + HEADER);
  }

  lemma EncodedLength(p: Packet)
    ensures |Encode(p)| == |p.payload| + HEADER
  {
  }

  lemma WrapSum(x: nat, y: nat)
    ensures (x % WORD + y) % WORD == (x + y) % WORD
  {
  }

  lemma TotalNone()
    ensures Total([]) == 0
  {
  }

  // ---- Main results -------------------------------------------------------------------------------------------

  lemma InvInitially(s: State)
    requires Init(s)
    ensures Inv(s)
  {
    RegionInitially(s);
    hide RegionOk, HolderOk, Init;
    QueueInitially(s);
  }

  lemma RegionInitially(s: State)
    requires Init(s)
    ensures RegionOk(s) && HolderOk(s)
    ensures !HasSubmitter(s) && s.sendQueue == s.locked == s.reserved == [] && s.submitted == [] && s.alive == []
    ensures s.reservedBytes == 0
  {
  }

  lemma QueueInitially(s: State)
    requires !HasSubmitter(s) && s.sendQueue == s.locked == s.reserved == [] && s.submitted == [] && s.alive == []
    requires s.reservedBytes == 0
    ensures QueueOk(s) && Conserved(s) && BytesOk(s)
  {
    hide HasSubmitter;
    assert Outgoing(s) == [];
  }

  lemma {:induction false} Reachable(r: seq<State>, ls: seq<Label>, n: nat)
    requires Run(r, ls) && n < |r|
    ensures Inv(r[n])
  {
    hide Do, RegionOk, RegionStep, HolderOk, QueueOk, Conserved, BytesOk, Init;
    if n == 0 {
      InvInitially(r[0]);
    } else {
      Reachable(r, ls, n - 1);
      var l := ls[n - 1];
      StepOf(r, ls, n);
      StepsTheRegion(r[n - 1], l.t, l.step, r[n]);
      RegionKept(r[n - 1], l.t, r[n]);
      HolderKept(r[n - 1], l.t, l.step, r[n]);
      QueueKept(r[n - 1], l.t, l.step, r[n]);
      ConservedKept(r[n - 1], l.t, l.step, r[n]);
      BytesKept(r[n - 1], l.t, l.step, r[n]);
    }
  }

  /** For any number of `_send` callers, whatever becomes of the connection: at most one thread is registering,
      the segment list is empty whenever `_sending` is false, and batches submitted, then segments not yet
      submitted, then the queue, are the buffers in the order their callers took the send lock, without those
      that `_clear` has dropped. */
  lemma SendHandover(r: seq<State>, ls: seq<Label>, n: nat)
    requires Run(r, ls) && n < |r|
    ensures forall t, u :: t in r[n].pcs && u in r[n].pcs && InRegion(r[n].pcs[t]) && InRegion(r[n].pcs[u]) ==> t == u
    ensures !r[n].sending ==> r[n].segments == []
    ensures |r[n].locked| == |r[n].alive|
    ensures Flat(r[n].submitted) + Unsubmitted(r[n]) + r[n].sendQueue == Surviving(r[n].locked, r[n].alive)
  {
    Reachable(r, ls, n);
  }

  /** Before the n-th state, some `_clear` found something in the queue. */
  ghost predicate Dropped(r: seq<State>, ls: seq<Label>, n: nat)
    requires n <= |r| && n <= |ls|
  {
    exists i :: 0 <= i < n && ls[i].step == Clear && r[i].sendQueue != []
  }

  ghost predicate AllAlive(s: State) {
    forall i :: 0 <= i < |s.alive| ==> s.alive[i]
  }

  lemma {:induction false} AllAliveIff(r: seq<State>, ls: seq<Label>, n: nat)
    requires Run(r, ls) && n < |r|
    ensures AllAlive(r[n]) <==> !Dropped(r, ls, n)
  {
    hide Do;
    if n > 0 {
      AllAliveIff(r, ls, n - 1);
      Reachable(r, ls, n - 1);
      StepOf(r, ls, n);
      AliveStep(r[n - 1], ls[n - 1].t, ls[n - 1].step, r[n]);
    }
  }

  lemma AliveStep(s: State, t: Tid, step: Step, s': State)
    requires QueueOk(s) && Do(s, t, step, s')
    ensures AllAlive(s') <==> AllAlive(s) && !(step == Clear && s.sendQueue != [])
  {
    hide Encode, Proceed;
    if step == Advance {
      AliveProceeds(s, t, s');
    } else if step == Clear {
      if s.sendQueue == [] {
        assert s'.alive == s.alive;
      } else {
        assert !s'.alive[|s.alive| - 1];
      }
    }
  }

  lemma AliveProceeds(s: State, t: Tid, s': State)
    requires t in s.pcs && Proceed(s, t, s')
    ensures AllAlive(s') <==> AllAlive(s)
  {
    if s.pcs[t].Ready? {
      assert s'.alive[..|s.alive|] == s.alive;
    }
  }

  /** Everything locked is still to be seen, exactly if every `_clear` so far found an empty queue. */
  lemma NothingLostIff(r: seq<State>, ls: seq<Label>, n: nat)
    requires Run(r, ls) && n < |r|
    ensures Flat(r[n].submitted) + Unsubmitted(r[n]) + r[n].sendQueue == r[n].locked <==> !Dropped(r, ls, n)
  {
    hide RegionOk, HolderOk, QueueOk, BytesOk, Flat, Unsubmitted, Surviving, Dropped, Run;
    var s := r[n];
    Reachable(r, ls, n);
    AllAliveIff(r, ls, n);
    SurvivingLength(s.locked, s.alive);
    SurvivingUniform(s.locked, s.alive);
  }

  /** With only `Send` used, the byte counter is the total length of the reserved buffers, modulo 2^32. */
  lemma ReservedBytesAreTheirLength(r: seq<State>, ls: seq<Label>, n: nat)
    requires Run(r, ls) && n < |r|
    ensures r[n].reservedBytes == Total(r[n].reserved) % WORD
  {
    Reachable(r, ls, n);
  }

  // ---- Calls ---------------------------------------------------------------------------------------------------

  /** A flush has something to do: a second has passed since the last one, or 128 bytes are waiting. */
  ghost predicate Due(s: State, dt: nat) {
    dt >= 1000 || Total(s.reserved) % 0x1_0000_0000 >= 128
  }

  /** Over every run, a call of `Flush` that is not due changes nothing at all, and one that is due goes on. */
  lemma FlushDecides(r: seq<State>, ls: seq<Label>, n: nat)
    requires Run(r, ls) && n < |ls| && ls[n].step.CallFlush?
    ensures Due(r[n], ls[n].step.dt) ==> r[n + 1] == At(r[n], ls[n].t, Flushing)
    ensures !Due(r[n], ls[n].step.dt) ==> r[n + 1] == r[n]
  {
    hide RegionOk, HolderOk, QueueOk, Conserved, Total, Proceed;
    Reachable(r, ls, n);
    assert Do(r[n], ls[n].t, ls[n].step, r[n + 1]);
  }

  /** Between n and m, t neither calls a function nor goes on in one; it may be the thread that connects, disconnects,
      clears or sends. */
  ghost predicate Rests(ls: seq<Label>, t: Tid, n: nat, m: nat)
    requires m <= |ls|
  {
    forall i :: n < i < m && ls[i].t == t ==> ls[i].step != Advance && !ls[i].step.CallFlush? && !ls[i].step.CallSend?
  }

  lemma OtherPc(s: State, t: Tid, step: Step, s': State, u: Tid)
    requires Do(s, t, step, s') && u in s.pcs
    requires t == u ==> step != Advance && !step.CallFlush? && !step.CallSend?
    ensures u in s'.pcs && s'.pcs[u] == s.pcs[u]
  {
    hide Proceed, Encode;
    StepsTheRegion(s, t, step, s');
  }

  lemma {:induction false} PcRests(r: seq<State>, ls: seq<Label>, t: Tid, n: nat, m: nat)
    requires Run(r, ls) && n < m <= |ls| && Rests(ls, t, n, m) && t in r[n + 1].pcs
    ensures t in r[m].pcs && r[m].pcs[t] == r[n + 1].pcs[t]
    decreases m
  {
    hide Do, Init;
    if n + 1 < m {
      PcRests(r, ls, t, n, m - 1);
      StepOf(r, ls, m);
      OtherPc(r[m - 1], ls[m - 1].t, ls[m - 1].step, r[m], t);
    }
  }

  /** Over every run, the next step of a flush takes the whole reserve, in order, if there is any, and does nothing
      else; and only a flush that was due when it was called gets there. */
  lemma FlushTakes(r: seq<State>, ls: seq<Label>, n: nat, m: nat)
    requires Run(r, ls) && n < m < |ls| && ls[n].step.CallFlush? && ls[m] == Label(ls[n].t, Advance)
    requires Rests(ls, ls[n].t, n, m)
    ensures Due(r[n], ls[n].step.dt)
    ensures var s, s', t := r[m], r[m + 1], ls[n].t;
            && s' == s.(reserved := [], reservedBytes := s'.reservedBytes, taken := s.taken + s.reserved, pcs := s'.pcs)
            && s'.pcs == s.pcs[t := if s.reserved == [] then Idle else Ready(s.reserved)]
            && s'.reservedBytes == 0
  {
    hide RegionOk, HolderOk, QueueOk, Conserved, Due;
    var t := ls[n].t;
    assert Do(r[n], t, ls[n].step, r[n + 1]);
    FlushDecides(r, ls, n);
    PcRests(r, ls, t, n, m);
    assert Do(r[m], t, Advance, r[m + 1]);
    Reachable(r, ls, m);
    assert r[m].reserved == [] ==> r[m].taken + r[m].reserved == r[m].taken;
  }

  /** Over every run, `_send` ignores an empty list, and otherwise appends exactly its list, under the lock, with its
      next step. */
  lemma SendQueues(r: seq<State>, ls: seq<Label>, n: nat, m: nat)
    requires Run(r, ls) && n < m < |ls| && ls[n].step.CallSend? && Rests(ls, ls[n].t, n, m)
    ensures ls[n].step.list == [] ==> r[n + 1] == r[n] && ls[m] != Label(ls[n].t, Advance)
    ensures ls[n].step.list != [] ==> r[n + 1] == At(r[n], ls[n].t, Ready(ls[n].step.list))
    ensures ls[n].step.list != [] && ls[m] == Label(ls[n].t, Advance) ==>
              && r[m].holder == None && r[m + 1].holder == Some(ls[n].t)
              && r[m + 1].sendQueue == r[m].sendQueue + ls[n].step.list
              && r[m + 1].locked == r[m].locked + ls[n].step.list
  {
    var t := ls[n].t;
    assert Do(r[n], t, ls[n].step, r[n + 1]);
    PcRests(r, ls, t, n, m);
    assert Do(r[m], ls[m].t, ls[m].step, r[m + 1]);
  }

  /** The send lock works: while u holds it, no other thread takes or drops it, or changes the queue, except through
      `_clear`. */
  lemma SendLockExcludes(r: seq<State>, ls: seq<Label>, n: nat, u: Tid)
    requires Run(r, ls) && n < |ls| && r[n].holder == Some(u) && ls[n].t != u
    ensures r[n + 1].holder == Some(u) && (ls[n].step == Clear || r[n + 1].sendQueue == r[n].sendQueue)
  {
    hide RegionOk, QueueOk, Conserved, BytesOk;
    Reachable(r, ls, n);
    assert Do(r[n], ls[n].t, ls[n].step, r[n + 1]);
  }

  // ---- What a flush of a disconnected session leaves behind --------------------------------------------------

  /** `_sending` is set, and nobody is left to reset it. */
  ghost predicate Wedged(s: State) {
    s.sending && forall t :: t in s.pcs ==> !InRegion(s.pcs[t])
  }

  /** The early return of `_register_send`. */
  ghost predicate LeavesEarly(s: State, t: Tid, step: Step) {
    t in s.pcs && step == Advance && s.pcs[t] == Registering && !s.connected
  }

  /** Then nothing is ever submitted again, even if the session is connected afterwards. */
  lemma {:induction false} WedgedSubmitsNothing(r: seq<State>, ls: seq<Label>, m: nat, n: nat)
    requires Run(r, ls) && m <= n < |r| && Wedged(r[m])
    ensures Wedged(r[n]) && r[n].submitted == r[m].submitted
    decreases n
  {
    hide Do;
    if m < n {
      WedgedSubmitsNothing(r, ls, m, n - 1);
      StepOf(r, ls, n);
      WedgedKept(r[n - 1], ls[n - 1].t, ls[n - 1].step, r[n]);
    }
  }

  lemma WedgedKept(s: State, t: Tid, step: Step, s': State)
    requires Wedged(s) && Do(s, t, step, s')
    ensures Wedged(s') && s'.submitted == s.submitted
  {
  }

  /** The only way into that state is the early return. */
  lemma OnlyDisconnectionWedges(s: State, t: Tid, step: Step, s': State)
    requires RegionOk(s) && !Wedged(s) && Do(s, t, step, s')
    ensures Wedged(s') <==> LeavesEarly(s, t, step)
  {
    StepsTheRegion(s, t, step, s');
    assert forall u :: u in s.pcs && u != t ==> s'.pcs[u] == s.pcs[u];
  }

  /** A session is wedged exactly if some registration so far left through the disconnected branch. */
  lemma {:induction false} WedgedIffLeftEarly(r: seq<State>, ls: seq<Label>, n: nat)
    requires Run(r, ls) && n < |r|
    ensures Wedged(r[n]) <==> exists i :: 0 <= i < n && LeavesEarly(r[i], ls[i].t, ls[i].step)
  {
    hide Do, Wedged, LeavesEarly, RegionOk;
    if n == 0 {
      NotWedgedInitially(r[0]);
    } else {
      WedgedIffLeftEarly(r, ls, n - 1);
      Reachable(r, ls, n - 1);
      StepOf(r, ls, n);
      var l := ls[n - 1];
      if Wedged(r[n - 1]) {
        WedgedKept(r[n - 1], l.t, l.step, r[n]);
      } else {
        OnlyDisconnectionWedges(r[n - 1], l.t, l.step, r[n]);
      }
    }
  }

  lemma NotWedgedInitially(s: State)
    requires Init(s)
    ensures !Wedged(s)
  {
  }
}
