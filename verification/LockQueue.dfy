/** `LockQueue` over the step-level lock, and the atomic queue it refines.  Every operation takes the lock
    through a scoped guard; `Clear(popped)` calls `Pop` in a loop while it already holds the write lock. */
module LockQueue {
  import L = RWLock
  import SC = StackCount

  type Tid = nat

  /** Queue elements are pointers; `Null` is what `T()` is. */
  datatype Elem = Null | Ptr(id: nat)

  datatype Op = Enqueue(e: Elem) | Pop | TryPop | Front | Clear

  datatype Result = Unit | Got(e: Elem) | Tried(ok: bool, e: Elem) | Cleared(popped: seq<Elem>)

  // ---- The atomic queue ---------------------------------------------------------------------------------

  function Head(q: seq<Elem>): Elem {
    if q == [] then Null else q[0]
  }

  function Tail(q: seq<Elem>): seq<Elem> {
    if q == [] then [] else q[1..]
  }

  /** What each operation promises: from queue q it answers res and leaves q'.  `Clear` takes everything up to the first
      null element, which it drops. */
  ghost predicate Answers(op: Op, q: seq<Elem>, res: Result, q': seq<Elem>) {
    match op
    case Enqueue(e) => res == Unit && q' == q + [e]
    case Pop => res.Got? && if q == [] then res.e == Null && q' == [] else q == [res.e] + q'
    case TryPop => res.Tried? && (res.ok <==> q != []) && if res.ok then q == [res.e] + q' else q' == q
    case Front => res.Got? && q' == q && if q == [] then res.e == Null else res.e == q[0]
    case Clear =>
      && res.Cleared? && Null !in res.popped
      && ((q == res.popped && q' == []) || q == res.popped + [Null] + q')
  }

  datatype Status = Away | Called(op: Op) | Done(op: Op, res: Result)

  datatype Atomic = Atomic(queue: seq<Elem>, status: map<Tid, Status>)

  /** A step of thread t on the atomic queue: a call, its effect on the whole queue, or its return. */
  ghost predicate AtomicStep(a: Atomic, t: Tid, a': Atomic) {
    t in a.status &&
    match a.status[t]
    case Away => exists op :: a' == a.(status := a.status[t := Called(op)])
    case Called(op) =>
      exists res, q :: Answers(op, a.queue, res, q) && a' == Atomic(q, a.status[t := Done(op, res)])
    case Done(_, _) => a' == a.(status := a.status[t := Away])
  }

  ghost predicate AtomicInit(a: Atomic) {
    a.queue == [] && forall t :: t in a.status ==> a.status[t] == Away
  }

  ghost predicate AtomicNext(a: Atomic, a': Atomic) {
    exists t :: AtomicStep(a, t, a')
  }

  // ---- The queue under the lock ---------------------------------------------------------------------------

  datatype Call =
    | Outside
    | Acquiring(op: Op)                               // taking the operation's guard
    | Body(op: Op)                                    // inside the guard, before the effect
    | Releasing(op: Op, res: Result)                  // dropping the guard
    | ClearAcquire(popped: seq<Elem>)                 // Clear's loop: inner Pop takes its guard
    | ClearBody(popped: seq<Elem>)                    // Clear's loop: inner Pop's body
    | ClearRelease(popped: seq<Elem>, last: bool)     // Clear's loop: inner Pop drops its guard

  /** Histories: `pushed` are the elements pushed, and `taken` those taken out, in the order of the effects; a `Clear`
      takes effect with its last inner `Pop`. */
  datatype State = State(lock: L.State, calls: map<Tid, Call>, queue: seq<Elem>, pushed: seq<Elem>, taken: seq<Elem>)

  function ModeOf(op: Op): L.Mode {
    if op == Front then L.R else L.W
  }

  /** The lock operation a call is waiting for. */
  function LockOp(c: Call): L.Op
    requires !c.Outside? && !c.Body? && !c.ClearBody?
  {
    match c
    case Acquiring(op) => if ModeOf(op) == L.R then L.LockRead else L.LockWrite
    case ClearAcquire(_) => L.LockWrite
    case Releasing(_, _) => L.Unlock
    case ClearRelease(_, _) => L.Unlock
  }

  function AfterLock(c: Call): Call
    requires !c.Outside? && !c.Body? && !c.ClearBody?
  {
    match c
    case Acquiring(op) => if op == Clear then ClearAcquire([]) else Body(op)
    case ClearAcquire(popped) => ClearBody(popped)
    case Releasing(_, _) => Outside
    case ClearRelease(popped, last) => if last then Releasing(Clear, Cleared(popped)) else ClearAcquire(popped)
  }

  predicate InLock(s: State, t: Tid) {
    t in s.calls && !s.calls[t].Outside? && !s.calls[t].Body? && !s.calls[t].ClearBody?
  }

  function LockStep(s: State, t: Tid): State
    requires InLock(s, t) && L.Enabled(s.lock, t, LockOp(s.calls[t]))
  {
    var lock' := L.Exec(s.lock, t, LockOp(s.calls[t]));
    var done := t in lock'.pcs && lock'.pcs[t] == L.Idle && !lock'.crashed;
    s.(lock := lock', calls := if done then s.calls[t := AfterLock(s.calls[t])] else s.calls)
  }

  /** The body of an operation under its guard; `Clear` has only its loop. */
  function Apply(q: seq<Elem>, op: Op): (Result, seq<Elem>)
    requires op != Clear
  {
    match op
    case Enqueue(e) => (Unit, q + [e])
    case Pop => (Got(Head(q)), Tail(q))
    case TryPop => (Tried(q != [], Head(q)), Tail(q))
    case Front => (Got(Head(q)), q)
  }

  function PushedBy(op: Op): seq<Elem> {
    if op.Enqueue? then [op.e] else []
  }

  function TakenBy(op: Op, res: Result, empty: bool): seq<Elem> {
    if op == Pop && res.Got? && !empty then [res.e] else if op == TryPop && res.Tried? && res.ok then [res.e] else []
  }

  function BodyStep(s: State, t: Tid): State
    requires t in s.calls && s.calls[t].Body? && s.calls[t].op != Clear
  {
    var op := s.calls[t].op;
    var (res, q) := Apply(s.queue, op);
    s.(queue := q, calls := s.calls[t := Releasing(op, res)],
       pushed := s.pushed + PushedBy(op), taken := s.taken + TakenBy(op, res, s.queue == []))
  }

  /** The body of the `Pop` that `Clear` calls, and the test of what it returned. */
  function InnerPop(s: State, t: Tid): State
    requires t in s.calls && s.calls[t].ClearBody?
  {
    var e, popped := Head(s.queue), s.calls[t].popped;
    if e == Null then
      s.(queue := Tail(s.queue), calls := s.calls[t := ClearRelease(popped, true)],
         taken := s.taken + popped + if s.queue == [] then [] else [e])
    else
      s.(queue := Tail(s.queue), calls := s.calls[t := ClearRelease(popped + [e], false)])
  }

  datatype Step = Invoke(op: Op) | Advance

  ghost predicate Do(s: State, t: Tid, step: Step, s': State) {
    t in s.calls &&
    match step
    case Invoke(op) => s.calls[t] == Outside && s' == s.(calls := s.calls[t := Acquiring(op)])
    case Advance =>
      match s.calls[t] {
        case Outside => false
        case Body(op) => op != Clear && s' == BodyStep(s, t)
        case ClearBody(_) => s' == InnerPop(s, t)
        case _ => L.Enabled(s.lock, t, LockOp(s.calls[t])) && s' == LockStep(s, t)
      }
  }

  ghost predicate Next(s: State, s': State) {
    exists t, step :: Do(s, t, step, s')
  }

  ghost predicate Init(s: State) {
    && L.Init(s.lock) && s.calls.Keys == s.lock.pcs.Keys && s.queue == s.pushed == s.taken == []
    && forall t :: t in s.calls ==> s.calls[t] == Outside
  }

  ghost predicate Run(r: seq<State>) {
    && r != [] && Init(r[0])
    && forall i :: 0 <= i < |r| - 1 ==> Next(r[i], r[i + 1])
  }

  // ---- The invariant -----------------------------------------------------------------------------------------

  predicate Taking(pc: L.Pc) {
    pc.Idle? || pc.WriteCas? || pc.WriteIncRead? || pc.WriteIncWrite? || pc.ReadLoad? || pc.ReadCas?
  }

  predicate Dropping(pc: L.Pc) {
    pc.Idle? || pc.WriteDecRead? || pc.WriteDecWrite? || pc.WriteStore?
  }

  ghost predicate CallOk(c: Call, pc: L.Pc, holds: seq<L.Mode>) {
    match c
    case Outside => pc.Idle? && holds == []
    case Acquiring(op) =>
      && Taking(pc) && holds == []
      && (op == Front ==> !pc.WriteCas? && !pc.WriteIncRead? && !pc.WriteIncWrite?)
      && (op != Front ==> !pc.ReadLoad? && !pc.ReadCas?)
    case Body(op) => pc.Idle? && holds == [ModeOf(op)] && op != Clear
    case Releasing(op, _) => Dropping(pc) && holds == [ModeOf(op)]
    case ClearAcquire(popped) => Taking(pc) && !pc.ReadLoad? && !pc.ReadCas? && holds == [L.W] && Null !in popped
    case ClearBody(popped) => pc.Idle? && holds == [L.W, L.W] && Null !in popped
    case ClearRelease(popped, _) => Dropping(pc) && holds == [L.W, L.W] && Null !in popped
  }

  ghost predicate CallsOk(s: State) {
    && L.ValidIds(s.lock) && s.calls.Keys == s.lock.pcs.Keys
    && forall t :: t in s.calls ==> CallOk(s.calls[t], s.lock.pcs[t], s.lock.holds[t])
  }

  ghost predicate Inv(s: State) {
    L.Inv(s.lock) && !s.lock.crashed && CallsOk(s)
  }

  // ---- The lock never overflows here -----------------------------------------------------------------------

  lemma {:induction false} InRange(a: set<nat>, n: nat)
    requires forall t :: t in a ==> 1 <= t <= n
    ensures |a| <= n
  {
    if n == 0 {
      assert a == {};
    } else {
      InRange(a - {n}, n - 1);
      assert a <= (a - {n}) + {n};
    }
  }

  lemma {:induction false} FirstsOf(ps: set<(nat, int)>, ts: set<nat>)
    requires forall p :: p in ps ==> p.0 in ts && p.1 == 0
    ensures |ps| <= |ts|
    decreases ps
  {
    if ps != {} {
      var p :| p in ps;
      forall q | q in ps - {p} ensures q.0 in ts - {p.0} {
        assert q == (q.0, q.1) && p == (p.0, p.1);
      }
      FirstsOf(ps - {p}, ts - {p.0});
    }
  }

  /** At most two nested guards per thread, and one read guard per thread id: no counter overflows. */
  lemma AlwaysBounded(s: State)
    requires CallsOk(s)
    ensures L.Bounded(s.lock)
  {
    var holds := s.lock.holds;
    forall t | t in holds
      ensures |holds[t]| <= 2 && L.Depth(holds[t]) < L.HALF
      ensures forall i :: 0 < i < |holds[t]| ==> holds[t][i] == L.W
    {
      assert CallOk(s.calls[t], s.lock.pcs[t], holds[t]);
      L.DepthPositive(holds[t]);
    }
    var ps := SC.Places(holds, L.IsRead());
    FirstsOf(ps, holds.Keys);
    InRange(holds.Keys, L.HALF - 1);
  }

  // ---- Lock steps ---------------------------------------------------------------------------------------------

  lemma OthersUntouched(s: L.State, t: Tid, op: L.Op, u: Tid)
    requires L.Enabled(s, t, op) && u != t && L.IsThread(s, u)
    ensures var s' := L.Exec(s, t, op);
            && s'.pcs.Keys == s.pcs.Keys && s'.holds.Keys == s.holds.Keys
            && s'.pcs[u] == s.pcs[u] && s'.holds[u] == s.holds[u]
  {
    hide L.Writer, L.Readers;
  }

  /** The step that starts taking or dropping a guard. */
  lemma BeginEffect(s: State, t: Tid)
    requires Inv(s) && InLock(s, t) && s.lock.pcs[t] == L.Idle
    ensures L.Enabled(s.lock, t, LockOp(s.calls[t]))
    ensures var s' := LockStep(s, t); !s'.lock.crashed && CallOk(s'.calls[t], s'.lock.pcs[t], s'.lock.holds[t])
  {
    hide L.Inv, L.Writer, L.Readers, L.Depth;
    var c := s.calls[t];
    L.PcFacts(s.lock, t);
    AlwaysBounded(s);
    assert L.Enabled(s.lock, t, LockOp(c));
    L.BeginKeeps(s.lock, t, LockOp(c));
    if LockOp(c) == L.Unlock { assert s.lock.holds[t][..|s.lock.holds[t]| - 1] == if c.Releasing? then [] else [L.W]; }
  }

  /** A step in the middle of taking a guard. */
  lemma TakingEffect(s: State, t: Tid)
    requires Inv(s) && InLock(s, t) && s.lock.pcs[t] != L.Idle && (s.calls[t].Acquiring? || s.calls[t].ClearAcquire?)
    ensures L.Enabled(s.lock, t, LockOp(s.calls[t]))
    ensures var s' := LockStep(s, t); !s'.lock.crashed && CallOk(s'.calls[t], s'.lock.pcs[t], s'.lock.holds[t])
  {
    hide L.Inv, L.Writer, L.Readers, L.Depth;
    L.PcFacts(s.lock, t);
    assert CallOk(s.calls[t], s.lock.pcs[t], s.lock.holds[t]);
    hide CallsOk;
  }

  /** A step in the middle of dropping a guard. */
  lemma DroppingEffect(s: State, t: Tid)
    requires Inv(s) && InLock(s, t) && s.lock.pcs[t] != L.Idle && (s.calls[t].Releasing? || s.calls[t].ClearRelease?)
    ensures L.Enabled(s.lock, t, LockOp(s.calls[t]))
    ensures var s' := LockStep(s, t); !s'.lock.crashed && CallOk(s'.calls[t], s'.lock.pcs[t], s'.lock.holds[t])
  {
    hide L.Inv, L.Writer, L.Readers, L.Depth;
    var c := s.calls[t];
    L.PcFacts(s.lock, t);
    if s.lock.pcs[t].WriteDecWrite? {
      AlwaysBounded(s);
      L.DecFacts(s.lock, t, s.lock.pcs[t].v);
    }
    assert CallOk(c, s.lock.pcs[t], s.lock.holds[t]);
    hide CallsOk, L.Bounded;
    if s.lock.pcs[t].WriteDecWrite? {
      assert s.lock.holds[t][..|s.lock.holds[t]| - 1] == if c.Releasing? then [] else [L.W];
    }
    if s.lock.pcs[t].WriteStore? { assert s.lock.holds[t][..0] == []; }
  }

  lemma LockStepKeeps(s: State, t: Tid)
    requires Inv(s) && InLock(s, t)
    ensures L.Enabled(s.lock, t, LockOp(s.calls[t])) && Inv(LockStep(s, t))
  {
    hide L.Inv, L.Exec, L.Bounded;
    if s.lock.pcs[t] == L.Idle {
      BeginEffect(s, t);
    } else if s.calls[t].Acquiring? || s.calls[t].ClearAcquire? {
      TakingEffect(s, t);
    } else {
      DroppingEffect(s, t);
    }
    var s' := LockStep(s, t);
    KeysKept(s.lock, t, LockOp(s.calls[t]));
    forall u | u in s'.calls ensures CallOk(s'.calls[u], s'.lock.pcs[u], s'.lock.holds[u]) {
      if u != t { OthersUntouched(s.lock, t, LockOp(s.calls[t]), u); }
    }
    AlwaysBounded(s);
    AlwaysBounded(s');
    L.StepKeeps(s.lock, t, LockOp(s.calls[t]));
  }

  lemma KeysKept(s: L.State, t: Tid, op: L.Op)
    requires L.Enabled(s, t, op)
    ensures L.Exec(s, t, op).pcs.Keys == s.pcs.Keys && L.Exec(s, t, op).holds.Keys == s.holds.Keys
  {
    hide L.Writer, L.Readers;
  }

  lemma StepKeeps(s: State, t: Tid, step: Step, s': State)
    requires Inv(s) && Do(s, t, step, s')
    ensures Inv(s')
  {
    hide L.Inv, L.Exec;
    if InLock(s, t) {
      LockStepKeeps(s, t);
    } else if s.calls[t].ClearBody? {
      assert Null !in s.calls[t].popped + [Head(s.queue)] <==> Head(s.queue) != Null;
    }
  }

  lemma {:induction false} Reachable(r: seq<State>, n: nat)
    requires Run(r) && n < |r|
    ensures Inv(r[n])
  {
    hide Inv, Do;
    if n == 0 {
      Initially(r[0]);
    } else {
      Reachable(r, n - 1);
      assert Next(r[n - 1], r[n - 1 + 1]);
      var t, step :| Do(r[n - 1], t, step, r[n]);
      StepKeeps(r[n - 1], t, step, r[n]);
    }
  }

  lemma Initially(s: State)
    requires Init(s)
    ensures Inv(s)
  {
    hide L.Inv;
    L.Initially(s.lock);
  }

  // ---- Refinement ---------------------------------------------------------------------------------------------

  /** A `Clear` whose loop has not ended. */
  predicate Clearing(c: Call) {
    c.ClearAcquire? || c.ClearBody? || (c.ClearRelease? && !c.last)
  }

  function StatusOf(c: Call): Status {
    match c
    case Outside => Away
    case Acquiring(op) => Called(op)
    case Body(op) => Called(op)
    case Releasing(op, res) => Done(op, res)
    case ClearAcquire(_) => Called(Clear)
    case ClearBody(_) => Called(Clear)
    case ClearRelease(popped, last) => if last then Done(Clear, Cleared(popped)) else Called(Clear)
  }

  /** What a running `Clear` has popped so far still counts as queued; only the writer can be clearing. */
  function Pending(s: State): seq<Elem> {
    var o := L.Writer(s.lock.flag);
    if o in s.calls && Clearing(s.calls[o]) then s.calls[o].popped else []
  }

  function Abstract(s: State): Atomic {
    Atomic(Pending(s) + s.queue, map t | t in s.calls :: StatusOf(s.calls[t]))
  }

  lemma PendingIs(s: State, t: Tid)
    requires Inv(s) && t in s.calls && Clearing(s.calls[t])
    ensures Pending(s) == s.calls[t].popped
  {
    hide L.Inv, L.Writer;
    L.PcFacts(s.lock, t);
  }

  lemma NothingPending(s: State)
    requires Inv(s) && forall t :: t in s.calls ==> !Clearing(s.calls[t])
    ensures Pending(s) == []
  {
  }

  /** Inside a guard nobody else is clearing. */
  lemma NobodyElseClears(s: State, t: Tid, u: Tid)
    requires Inv(s) && t in s.calls && u in s.calls && t != u && s.lock.holds[t] != []
    ensures !Clearing(s.calls[u])
  {
    hide L.Readers, L.Depth, L.Writer;
    L.PcFacts(s.lock, u);
  }

  lemma LockStepPending(s: State, t: Tid)
    requires Inv(s) && InLock(s, t) && L.Enabled(s.lock, t, LockOp(s.calls[t])) && Inv(LockStep(s, t))
    ensures Pending(LockStep(s, t)) == Pending(s)
  {
    hide Inv, L.Exec, Pending;
    var s' := LockStep(s, t);
    if u :| u in s.calls && Clearing(s.calls[u]) {
      PendingIs(s, u);
      PendingIs(s', u);
    } else {
      NothingPending(s);
      if t in s'.calls && Clearing(s'.calls[t]) { PendingIs(s', t); } else { NothingPending(s'); }
    }
  }

  lemma LockStepRefines(s: State, t: Tid)
    requires Inv(s) && InLock(s, t) && L.Enabled(s.lock, t, LockOp(s.calls[t])) && Inv(LockStep(s, t))
    ensures Abstract(LockStep(s, t)) == Abstract(s) || AtomicNext(Abstract(s), Abstract(LockStep(s, t)))
  {
    hide Inv, L.Exec, Pending;
    var s' := LockStep(s, t);
    LockStepPending(s, t);
    var a, a' := Abstract(s), Abstract(s');
    assert a'.queue == a.queue;
    if s'.calls == s.calls || StatusOf(s'.calls[t]) == StatusOf(s.calls[t]) {
      assert a'.status == a.status;
    } else {
      assert a'.status == a.status[t := Away] && a.status[t].Done?;
      assert AtomicStep(a, t, a');
    }
  }

  lemma ApplyAnswers(q: seq<Elem>, op: Op)
    requires op != Clear
    ensures Answers(op, q, Apply(q, op).0, Apply(q, op).1)
  {
    if q != [] { assert q == [q[0]] + q[1..]; }
  }

  /** In its body, a thread is alone with the queue as far as `Clear` is concerned. */
  lemma NobodyClears(s: State, t: Tid)
    requires Inv(s) && t in s.calls && s.calls[t].Body?
    ensures Pending(s) == []
  {
    hide L.Inv, Pending;
    forall u | u in s.calls ensures !Clearing(s.calls[u]) {
      if u != t { NobodyElseClears(s, t, u); }
    }
    NothingPending(s);
  }

  lemma BodyStepPending(s: State, t: Tid)
    requires Inv(s) && t in s.calls && s.calls[t].Body? && s.calls[t].op != Clear && Inv(BodyStep(s, t))
    ensures Pending(s) == [] == Pending(BodyStep(s, t))
  {
    hide L.Inv, Pending, Apply;
    var s' := BodyStep(s, t);
    forall u | u in s.calls ensures !Clearing(s.calls[u]) {
      if u != t { NobodyElseClears(s, t, u); }
    }
    NothingPending(s);
    NothingPending(s');
  }

  lemma BodyStepRefines(s: State, t: Tid)
    requires Inv(s) && t in s.calls && s.calls[t].Body? && s.calls[t].op != Clear && Inv(BodyStep(s, t))
    ensures AtomicNext(Abstract(s), Abstract(BodyStep(s, t)))
  {
    hide Inv, Pending, Answers;
    var s', op := BodyStep(s, t), s.calls[t].op;
    BodyStepPending(s, t);
    ApplyAnswers(s.queue, op);
    hide Apply;
    var a, a' := Abstract(s), Abstract(s');
    assert [] + s.queue == s.queue && [] + s'.queue == s'.queue;
    assert a'.status == a.status[t := Done(op, Apply(a.queue, op).0)];
    assert AtomicStep(a, t, a');
  }

  lemma LastPopPending(s: State, t: Tid)
    requires Inv(s) && t in s.calls && s.calls[t].ClearBody? && Head(s.queue) == Null && Inv(InnerPop(s, t))
    ensures Pending(s) == s.calls[t].popped && Pending(InnerPop(s, t)) == [] && Null !in s.calls[t].popped
  {
    hide L.Inv, Pending;
    var s' := InnerPop(s, t);
    PendingIs(s, t);
    assert CallOk(s.calls[t], s.lock.pcs[t], s.lock.holds[t]);
    hide CallOk;
    forall u | u in s'.calls ensures !Clearing(s'.calls[u]) {
      if u != t { NobodyElseClears(s, t, u); }
    }
    NothingPending(s');
  }

  lemma ClearAnswers(popped: seq<Elem>, q: seq<Elem>)
    requires Null !in popped && Head(q) == Null
    ensures Answers(Clear, popped + q, Cleared(popped), Tail(q))
  {
    if q == [] { assert popped + q == popped; } else { assert q == [Null] + q[1..]; }
  }

  /** The last inner `Pop` is where `Clear` takes effect as a whole. */
  lemma LastPopRefines(s: State, t: Tid)
    requires Inv(s) && t in s.calls && s.calls[t].ClearBody? && Head(s.queue) == Null && Inv(InnerPop(s, t))
    ensures AtomicNext(Abstract(s), Abstract(InnerPop(s, t)))
  {
    hide Inv, Pending, Answers;
    var s', popped, q := InnerPop(s, t), s.calls[t].popped, s.queue;
    LastPopPending(s, t);
    ClearAnswers(popped, q);
    assert [] + Tail(q) == Tail(q);
    var a, a' := Abstract(s), Abstract(s');
    assert a' == Atomic(Tail(q), a.status[t := Done(Clear, Cleared(popped))]);
    assert AtomicStep(a, t, a');
  }

  /** The earlier inner `Pop`s change nothing. */
  lemma EarlierPopStutters(s: State, t: Tid)
    requires Inv(s) && t in s.calls && s.calls[t].ClearBody? && Head(s.queue) != Null && Inv(InnerPop(s, t))
    ensures Abstract(InnerPop(s, t)) == Abstract(s)
  {
    hide Inv, Pending;
    var s', popped, q := InnerPop(s, t), s.calls[t].popped, s.queue;
    PendingIs(s, t);
    PendingIs(s', t);
    assert (popped + [q[0]]) + q[1..] == popped + q;
    assert Abstract(s').status == Abstract(s).status;
  }

  /** Every step of the queue under the lock is one step of the atomic queue, or none. */
  lemma StepRefines(s: State, t: Tid, step: Step, s': State)
    requires Inv(s) && Do(s, t, step, s')
    ensures Abstract(s') == Abstract(s) || AtomicNext(Abstract(s), Abstract(s'))
  {
    hide Inv, Pending, LockStep, BodyStep, InnerPop, AtomicNext;
    StepKeeps(s, t, step, s');
    match step
    case Invoke(op) => InvokeRefines(s, t, op);
    case Advance =>
      match s.calls[t] {
        case Body(_) => BodyStepRefines(s, t);
        case ClearBody(_) => if Head(s.queue) == Null { LastPopRefines(s, t); } else { EarlierPopStutters(s, t); }
        case _ => LockStepRefines(s, t);
      }
  }

  lemma InvokeRefines(s: State, t: Tid, op: Op)
    requires Inv(s) && t in s.calls && s.calls[t] == Outside && Inv(s.(calls := s.calls[t := Acquiring(op)]))
    ensures AtomicNext(Abstract(s), Abstract(s.(calls := s.calls[t := Acquiring(op)])))
  {
    hide Inv;
    var s' := s.(calls := s.calls[t := Acquiring(op)]);
    var a, a' := Abstract(s), Abstract(s');
    assert a' == a.(status := a.status[t := Called(op)]);
    assert AtomicStep(a, t, a');
  }

  // ---- Main results ---------------------------------------------------------------------------------------------

  lemma AbstractInitially(s: State)
    requires Init(s)
    ensures AtomicInit(Abstract(s))
  {
  }

  /** Over every run, from the initial state on and at every step, the queue under the lock behaves as the atomic
      one, and no unlock assertion is reached.  In particular `Clear` takes effect in one step. */
  lemma RefinesAtomicQueue(r: seq<State>, n: nat)
    requires Run(r) && n < |r|
    ensures !r[n].lock.crashed
    ensures n == 0 ==> AtomicInit(Abstract(r[n]))
    ensures n + 1 < |r| ==>
              Abstract(r[n + 1]) == Abstract(r[n]) || AtomicNext(Abstract(r[n]), Abstract(r[n + 1]))
  {
    hide Do, L.Inv, CallsOk, Abstract, AtomicInit, Init;
    Reachable(r, n);
    if n == 0 { AbstractInitially(r[0]); }
    if n + 1 < |r| {
      assert Next(r[n], r[n + 1]);
      var t, step :| Do(r[n], t, step, r[n + 1]);
      StepRefines(r[n], t, step, r[n + 1]);
    }
  }

  /** `Clear` takes everything, in order, exactly when the queue holds no null element. */
  lemma ClearTakesEverythingIff(q: seq<Elem>, res: Result, q': seq<Elem>)
    requires Answers(Clear, q, res, q')
    ensures (q' == [] && res == Cleared(q)) <==> Null !in q
  {
    if q != res.popped { assert q[|res.popped|] == Null; }
  }

  lemma ClearUnique(q: seq<Elem>, res: Result, q': seq<Elem>, res2: Result, q2: seq<Elem>)
    requires Answers(Clear, q, res, q') && Answers(Clear, q, res2, q2)
    ensures |res.popped| <= |res2.popped|
  {
    assert forall i :: 0 <= i < |res.popped| ==> q[i] == res.popped[i] && q[i] != Null;
    assert q == res2.popped || q[|res2.popped|] == Null;
  }

  /** The promises leave no choice: an operation has at most one answer. */
  lemma AnswersUnique(op: Op, q: seq<Elem>, res: Result, q': seq<Elem>, res2: Result, q2: seq<Elem>)
    requires Answers(op, q, res, q') && Answers(op, q, res2, q2)
    ensures q' == q2 && (op != TryPop || q != [] ==> res == res2)
  {
    if op == Clear {
      ClearUnique(q, res, q', res2, q2);
      ClearUnique(q, res2, q2, res, q');
      assert res.popped == q[..|res.popped|] && res2.popped == q[..|res.popped|];
      assert q != res.popped ==> q' == q[|res.popped| + 1..] && q2 == q[|res.popped| + 1..];
    } else if q != [] && (op == Pop || op == TryPop) {
      assert q' == q[1..] && q2 == q[1..] && res.e == q[0] && res2.e == q[0];
    }
  }

  // ---- First in, first out --------------------------------------------------------------------------------------

  /** What was taken, then what counts as queued, is what was pushed. */
  ghost predicate Fifo(s: State) {
    s.taken + (Pending(s) + s.queue) == s.pushed
  }

  lemma BodyStepFifo(s: State, t: Tid)
    requires Inv(s) && Fifo(s) && t in s.calls && s.calls[t].Body? && s.calls[t].op != Clear && Inv(BodyStep(s, t))
    ensures Fifo(BodyStep(s, t))
  {
    hide Inv, Pending;
    BodyStepPending(s, t);
    var s', op := BodyStep(s, t), s.calls[t].op;
    assert [] + s.queue == s.queue && [] + s'.queue == s'.queue;
    ApplyFifo(s.taken, s.queue, op);
  }

  lemma ApplyFifo(taken: seq<Elem>, q: seq<Elem>, op: Op)
    requires op != Clear
    ensures var (res, q') := Apply(q, op);
            taken + TakenBy(op, res, q == []) + q' == taken + q + PushedBy(op)
  {
    if q != [] { assert q == [q[0]] + q[1..]; }
  }

  lemma InnerPopFifo(s: State, t: Tid)
    requires Inv(s) && Fifo(s) && t in s.calls && s.calls[t].ClearBody? && Inv(InnerPop(s, t))
    ensures Fifo(InnerPop(s, t))
  {
    hide Inv, Pending;
    var s', popped, q := InnerPop(s, t), s.calls[t].popped, s.queue;
    if q != [] { assert q == [q[0]] + q[1..]; }
    if Head(q) == Null {
      LastPopPending(s, t);
      assert s'.taken + ([] + Tail(q)) == s.taken + (popped + q);
    } else {
      PendingIs(s, t);
      PendingIs(s', t);
      assert (popped + [q[0]]) + q[1..] == popped + q;
    }
  }

  lemma StepFifo(s: State, t: Tid, step: Step, s': State)
    requires Inv(s) && Fifo(s) && Do(s, t, step, s') && Inv(s')
    ensures Fifo(s')
  {
    hide Inv, Pending, BodyStep, InnerPop, L.Exec, Fifo;
    match step
    case Invoke(op) => InvokeFifo(s, t, op);
    case Advance =>
      match s.calls[t] {
        case Body(_) => BodyStepFifo(s, t);
        case ClearBody(_) => InnerPopFifo(s, t);
        case _ => LockStepFifo(s, t);
      }
  }

  lemma InvokeFifo(s: State, t: Tid, op: Op)
    requires Fifo(s) && t in s.calls && s.calls[t] == Outside
    ensures Fifo(s.(calls := s.calls[t := Acquiring(op)]))
  {
  }

  lemma LockStepFifo(s: State, t: Tid)
    requires Inv(s) && Fifo(s) && InLock(s, t) && L.Enabled(s.lock, t, LockOp(s.calls[t])) && Inv(LockStep(s, t))
    ensures Fifo(LockStep(s, t))
  {
    hide Inv, Pending, L.Exec;
    LockStepPending(s, t);
  }

  /** Over every run: the elements taken out so far, then those in the queue, are exactly the elements pushed, in the
      order they were pushed. */
  lemma {:induction false} FirstInFirstOut(r: seq<State>, n: nat)
    requires Run(r) && n < |r|
    ensures r[n].taken + Abstract(r[n]).queue == r[n].pushed
  {
    hide Do, Inv, Pending;
    Reachable(r, n);
    if n > 0 {
      FirstInFirstOut(r, n - 1);
      Reachable(r, n - 1);
      assert Next(r[n - 1], r[n - 1 + 1]);
      var t, step :| Do(r[n - 1], t, step, r[n]);
      StepFifo(r[n - 1], t, step, r[n]);
    } else {
      NothingPending(r[0]);
    }
  }

  /** The next element to be taken out, if there is one. */
  function NextOut(s: State): Elem {
    if |s.taken| < |s.pushed| then s.pushed[|s.taken|] else Null
  }

  /** Over every run, when a call of t takes effect: `Push` adds its element behind all others; `Pop`, `TryPop` and
      `Front` answer with the oldest element that is not yet taken, and the first two take it; `TryPop` fails, and
      changes nothing, exactly when there is none. */
  lemma EffectsAreFifo(r: seq<State>, n: nat, t: Tid)
    requires Run(r) && n + 1 < |r| && t in r[n].calls && t in r[n + 1].calls
    requires r[n].calls[t].Body? && r[n + 1].calls[t] != r[n].calls[t]
    ensures var s, s', op, c := r[n], r[n + 1], r[n].calls[t].op, r[n + 1].calls[t];
            && c.Releasing? && c.op == op
            && s'.pushed == s.pushed + (if op.Enqueue? then [op.e] else [])
            && (op.Enqueue? || op == Front ==> s'.taken == s.taken)
            && (op == Pop || op == Front ==> c.res == Got(NextOut(s)))
            && (op == TryPop ==> c.res == Tried(|s.taken| < |s.pushed|, NextOut(s)))
            && (op == Pop || op == TryPop ==>
                  s'.taken == if |s.taken| < |s.pushed| then s.taken + [NextOut(s)] else s.taken)
  {
    hide Inv, Pending, L.Exec;
    var s, s' := r[n], r[n + 1];
    Reachable(r, n);
    FirstInFirstOut(r, n);
    NobodyClears(s, t);
    assert s.pushed == s.taken + s.queue by { assert [] + s.queue == s.queue; }
    assert Next(r[n], r[n + 1]);
    var u, step :| Do(s, u, step, s');
    assert u == t;
    assert s.queue != [] ==> s.pushed[|s.taken|] == s.queue[0];
  }

  /** Over every run, the step with which a `Clear` ends its loop takes out everything it has popped, all of it
      non-null, and then either nothing is left or it has dropped a null element. */
  lemma ClearEffectIsFifo(r: seq<State>, n: nat, t: Tid)
    requires Run(r) && n + 1 < |r| && t in r[n].calls && t in r[n + 1].calls
    requires r[n].calls[t].ClearBody? && r[n + 1].calls[t].ClearRelease? && r[n + 1].calls[t].last
    ensures var s, s', popped := r[n], r[n + 1], r[n + 1].calls[t].popped;
            && Null !in popped && s'.pushed == s.pushed
            && ((s'.taken == s.taken + popped && s'.taken == s'.pushed) || s'.taken == s.taken + popped + [Null])
            && s'.taken <= s'.pushed
  {
    hide Inv, L.Exec;
    var s, s' := r[n], r[n + 1];
    Reachable(r, n);
    Reachable(r, n + 1);
    FirstInFirstOut(r, n + 1);
    assert Next(r[n], r[n + 1]);
    var u, step :| Do(s, u, step, s');
    LastPopPending(s, t);
    hide Pending;
    assert s'.taken <= s'.taken + Abstract(s').queue;
    assert s.queue == [] ==> s.taken + s.calls[t].popped + [] == s.taken + s.calls[t].popped;
    assert s.queue == [] ==> s'.taken + ([] + s'.queue) == s'.taken;
  }

  /** At a point that reads or writes `_queue`. */
  predicate Touching(c: Call) {
    c.Body? || c.ClearBody?
  }

  /** The plain field `_queue` is never raced on: over every run, two threads are in the bodies of operations together
      only if both only read it. */
  lemma QueueNeverRaced(r: seq<State>, n: nat, t: Tid, u: Tid)
    requires Run(r) && n < |r| && t in r[n].calls && u in r[n].calls && t != u
    requires Touching(r[n].calls[t]) && Touching(r[n].calls[u])
    ensures r[n].calls[t] == Body(Front) && r[n].calls[u] == Body(Front)
  {
    hide L.Readers, L.Depth, L.Writer;
    Reachable(r, n);
    L.PcFacts(r[n].lock, t);
    L.PcFacts(r[n].lock, u);
    assert CallOk(r[n].calls[t], r[n].lock.pcs[t], r[n].lock.holds[t]);
    assert CallOk(r[n].calls[u], r[n].lock.pcs[u], r[n].lock.holds[u]);
  }
}
