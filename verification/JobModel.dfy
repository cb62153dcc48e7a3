/** The job serializer protocol as a transition system: `JobSerializer`, `GlobalJobWorker` and
    `ReservableJob`, with one transition per atomic operation or locked region.

    A thread is its call stack.  Job code may call back into the library, so frames nest to any
    depth: a running job may push to any serializer, enter `DoJobs`, or check the timer. */
module JobModel {
  import opened StackCount

  type Tid = nat // a thread
  type Sid = nat // a serializer
  type Rid = nat // a reserved job

  datatype Option<+T> = None | Some(value: T)

  /** Where a pushed job comes from: user code, or the timer queue. */
  datatype Source = Direct | Reserved(rid: Rid)

  /** The n-th job pushed by thread `pusher`. */
  datatype Job = Job(pusher: Tid, n: nat, src: Source)

  datatype Frame =
    | PushStart(k: Sid, job: Job)                        // Push: before fetch_add
    | PushAnnounced(k: Sid, job: Job, prev: int)         // Push: counted, not yet queued
    | PushQueued(k: Sid, prev: int)                      // Push: queued
    | ExecBegin(k: Sid)                                  // ExecuteJobs: entered
    | ExecTake(k: Sid)                                   // ExecuteJobs: before _jobs.Clear
    | ExecRun(k: Sid, batch: seq<Job>, i: nat)           // ExecuteJobs: between two jobs
    | ExecJob(k: Sid, batch: seq<Job>, i: nat)           // ExecuteJobs: batch[i] is running
    | ExecDecide(k: Sid)                                 // ExecuteJobs: subtracted, more was added
    | Worker                                             // DoJobs: loop head
    | CheckStart(now: nat)                               // CheckReservedJob: before the exchange
    | CheckLocked(now: nat)                              // flag taken, before the locked extraction
    | CheckTest(now: nat, due: seq<Rid>, i: nat)         // about to test due[i]
    | CheckFree(now: nat, due: seq<Rid>, i: nat)         // due[i] tested, its JobData not yet released

  /** A thread's `TLS_CurrentJobSerializer`, and how many pushes it has started. */
  datatype Local = Local(current: Option<Sid>, pushes: nat)

  /** `count` and `queue` are the serializer's fields; `enqueued` and `ran` are histories. */
  datatype Serializer = Serializer(count: int, queue: seq<Job>, enqueued: seq<Job>, ran: seq<Job>)

  datatype Reservation = Reservation(tick: nat, owner: Sid)

  /** One call of `PushJobToSerializer`, made by a check started at `now`. */
  datatype Test = Test(rid: Rid, now: nat, owner: Sid, pushed: bool)

  /** `waiting` is the priority queue and `busy` is `_executingReservables`; `table` gives the data
      of every reservation ever made.  Histories: `inHand` holds what the running check has taken out
      and not yet tested, `tests` and `freed` what was tested and released so far. */
  datatype Timer = Timer(table: seq<Reservation>, waiting: set<Rid>, inHand: seq<Rid>, busy: bool,
                         canceled: set<Rid>, tests: seq<Test>, freed: seq<Rid>)

  /** `stacks` holds each thread's call stack, innermost call last; `worker` is the global queue of
      serializers; `live` holds the serializers not yet destroyed.  `handed` and `picked` are histories: the
      serializers put into the worker queue, and those taken out of it. */
  datatype State = State(stacks: Stacks<Frame>, locals: map<Tid, Local>, sers: map<Sid, Serializer>, live: set<Sid>,
                         worker: seq<Sid>, timer: Timer, handed: seq<Sid>, picked: seq<Sid>)

  // ---- Stack and field updates -------------------------------------------------------------

  predicate IsThread(s: State, t: Tid) {
    t in s.stacks && t in s.locals
  }

  predicate Active(s: State, t: Tid) {
    IsThread(s, t) && Nonempty(s.stacks, t)
  }

  function Top(s: State, t: Tid): Frame
    requires Active(s, t)
  {
    TopOf(s.stacks, t)
  }

  function SetTop(s: State, t: Tid, f: Frame): State
    requires Active(s, t)
  {
    s.(stacks := Replace(s.stacks, t, f))
  }

  function Return(s: State, t: Tid): State
    requires Active(s, t)
  {
    s.(stacks := Pop(s.stacks, t))
  }

  function Call(s: State, t: Tid, f: Frame): State
    requires IsThread(s, t)
  {
    s.(stacks := Push(s.stacks, t, f))
  }

  /** Writes `TLS_CurrentJobSerializer` of thread t. */
  function SetCurrent(s: State, t: Tid, c: Option<Sid>): State
    requires IsThread(s, t)
  {
    s.(locals := s.locals[t := s.locals[t].(current := c)])
  }

  function SetSer(s: State, k: Sid, q: Serializer): State {
    s.(sers := s.sers[k := q])
  }

  /** A new call of `Push(job)` on serializer k by thread t. */
  function CallPush(s: State, t: Tid, k: Sid, src: Source): State
    requires IsThread(s, t)
  {
    var n := s.locals[t].pushes;
    Call(s, t, PushStart(k, Job(t, n, src))).(locals := s.locals[t := s.locals[t].(pushes := n + 1)])
  }

  // ---- JobSerializer::Push --------------------------------------------------------------------

  function FetchAdd(s: State, t: Tid, k: Sid, job: Job): State
    requires Active(s, t) && k in s.sers
  {
    var q := s.sers[k];
    SetSer(SetTop(s, t, PushAnnounced(k, job, q.count)), k, q.(count := q.count + 1))
  }

  function Enqueue(s: State, t: Tid, k: Sid, job: Job, prev: int): State
    requires Active(s, t) && k in s.sers
  {
    var q := s.sers[k];
    SetSer(SetTop(s, t, PushQueued(k, prev)), k, q.(queue := q.queue + [job], enqueued := q.enqueued + [job]))
  }

  function AfterEnqueue(s: State, t: Tid, k: Sid, prev: int): State
    requires Active(s, t)
  {
    if prev != 0 then Return(s, t)
    else if s.locals[t].current == None then SetTop(s, t, ExecBegin(k))
    else HandOff(s, t, k)
  }

  /** `GGlobalJobWorker->AddJobSerializer(k)`, then return. */
  function HandOff(s: State, t: Tid, k: Sid): State
    requires Active(s, t)
  {
    Return(s, t).(worker := s.worker + [k], handed := s.handed + [k])
  }

  // ---- JobSerializer::ExecuteJobs ---------------------------------------------------------------

  function Begin(s: State, t: Tid, k: Sid): State
    requires Active(s, t)
  {
    SetCurrent(SetTop(s, t, ExecTake(k)), t, Some(k))
  }

  function TakeAll(s: State, t: Tid, k: Sid): State
    requires Active(s, t) && k in s.sers
  {
    var q := s.sers[k];
    SetSer(SetTop(s, t, ExecRun(k, q.queue, 0)), k, q.(queue := []))
  }

  function StartJob(s: State, t: Tid, k: Sid, batch: seq<Job>, i: nat): State
    requires Active(s, t) && k in s.sers && i < |batch|
  {
    var q := s.sers[k];
    SetSer(SetTop(s, t, ExecJob(k, batch, i)), k, q.(ran := q.ran + [batch[i]]))
  }

  function FetchSub(s: State, t: Tid, k: Sid, batch: seq<Job>): State
    requires Active(s, t) && k in s.sers
  {
    var q := s.sers[k];
    var s1 := SetSer(s, k, q.(count := q.count - |batch|));
    if q.count == |batch| then Return(SetCurrent(s1, t, None), t) else SetTop(s1, t, ExecDecide(k))
  }

  // ---- GlobalJobWorker::DoJobs and CheckReservedJob ----------------------------------------------

  function WorkerPop(s: State, t: Tid): State
    requires Active(s, t) && s.worker != []
  {
    Call(s, t, ExecBegin(s.worker[0])).(worker := s.worker[1..], picked := s.picked + [s.worker[0]])
  }

  function Exchange(s: State, t: Tid, now: nat): State
    requires Active(s, t)
  {
    if s.timer.busy then Return(s, t)
    else SetTop(s, t, CheckLocked(now)).(timer := s.timer.(busy := true))
  }

  ghost predicate NoDup<T>(xs: seq<T>) {
    forall i, j :: 0 <= i < j < |xs| ==> xs[i] != xs[j]
  }

  ghost predicate TickOrdered(table: seq<Reservation>, due: seq<Rid>) {
    && (forall i :: 0 <= i < |due| ==> due[i] < |table|)
    && forall i, j :: 0 <= i < j < |due| ==> table[due[i]].tick <= table[due[j]].tick
  }

  /** `due` is what the locked loop of `CheckReservedJob` may take out of the priority queue. */
  ghost predicate Extraction(tm: Timer, now: nat, due: seq<Rid>) {
    && NoDup(due)
    && TickOrdered(tm.table, due)
    && forall r :: r in due <==> r in tm.waiting && r < |tm.table| && tm.table[r].tick <= now
  }

  function Extract(s: State, t: Tid, now: nat, due: seq<Rid>): State
    requires Active(s, t)
  {
    SetTop(s, t, CheckTest(now, due, 0)).(
      timer := s.timer.(waiting := s.timer.waiting - (set r | r in due), inHand := due))
  }

  /** The test in `PushJobToSerializer`: not cancelled, and the weak owner pointer can be locked. */
  predicate MayPush(s: State, r: Rid) {
    r < |s.timer.table| && r !in s.timer.canceled && s.timer.table[r].owner in s.live
  }

  function TestDue(s: State, t: Tid, now: nat, due: seq<Rid>, i: nat): State
    requires Active(s, t) && i < |due| && due[i] < |s.timer.table|
  {
    var r := due[i];
    var owner := s.timer.table[r].owner;
    var ok := MayPush(s, r);
    var s1 := SetTop(s, t, CheckFree(now, due, i)).(
      timer := s.timer.(inHand := due[i + 1..], tests := s.timer.tests + [Test(r, now, owner, ok)]));
    if ok then CallPush(s1, t, owner, Reserved(r)) else s1
  }

  function FreeData(s: State, t: Tid, now: nat, due: seq<Rid>, i: nat): State
    requires Active(s, t) && i < |due|
  {
    SetTop(s, t, CheckTest(now, due, i + 1)).(timer := s.timer.(freed := s.timer.freed + [due[i]]))
  }

  function CheckDone(s: State, t: Tid): State
    requires Active(s, t)
  {
    Return(s, t).(timer := s.timer.(busy := false))
  }

  // ---- Steps ---------------------------------------------------------------------------------------

  /** A thread may call into the library from its own code or from the code of a running job. */
  predicate InUserCode(s: State, t: Tid) {
    IsThread(s, t) && (s.stacks[t] == [] || Top(s, t).ExecJob?)
  }

  /** The serializer a frame works on, if any. */
  function Subject(f: Frame): Option<Sid> {
    match f
    case PushStart(k, _) => Some(k)
    case PushAnnounced(k, _, _) => Some(k)
    case PushQueued(k, _) => Some(k)
    case ExecBegin(k) => Some(k)
    case ExecTake(k) => Some(k)
    case ExecRun(k, _, _) => Some(k)
    case ExecJob(k, _, _) => Some(k)
    case ExecDecide(k) => Some(k)
    case _ => None
  }

  /** No shared pointer to k is left in a running call or in the worker queue. */
  ghost predicate Unreferenced(s: State, k: Sid) {
    && k !in s.worker
    && forall t, i :: At(s.stacks, t, i) ==> Subject(s.stacks[t][i]) != Some(k)
  }

  datatype Step =
    | StartPush(t: Tid, k: Sid)
    | StartDoJobs(t: Tid)
    | StartCheck(t: Tid, now: nat)
    | Reserve(t: Tid, k: Sid, tick: nat)
    | Cancel(r: Rid)
    | Destroy(k: Sid)
    | Advance(t: Tid, timeout: bool, due: seq<Rid>)

  /** The library's own next step on the top frame of thread t.  `timeout` is the outcome of the
      tick test, and `due` the order in which equal ticks leave the priority queue. */
  ghost predicate Advanced(s: State, t: Tid, timeout: bool, due: seq<Rid>, s': State)
    requires Active(s, t)
  {
    match Top(s, t)
    case PushStart(k, job) => k in s.sers && s' == FetchAdd(s, t, k, job)
    case PushAnnounced(k, job, prev) => k in s.sers && s' == Enqueue(s, t, k, job, prev)
    case PushQueued(k, prev) => s' == AfterEnqueue(s, t, k, prev)
    case ExecBegin(k) => s' == Begin(s, t, k)
    case ExecTake(k) => k in s.sers && s' == TakeAll(s, t, k)
    case ExecRun(k, batch, i) =>
      && k in s.sers
      && s' == if i < |batch| then StartJob(s, t, k, batch, i) else FetchSub(s, t, k, batch)
    case ExecJob(k, batch, i) => s' == SetTop(s, t, ExecRun(k, batch, i + 1))
    case ExecDecide(k) =>
      s' == if timeout then HandOff(SetCurrent(s, t, None), t, k) else SetTop(s, t, ExecTake(k))
    case Worker => s' == if timeout || s.worker == [] then Return(s, t) else WorkerPop(s, t)
    case CheckStart(now) => s' == Exchange(s, t, now)
    case CheckLocked(now) => Extraction(s.timer, now, due) && s' == Extract(s, t, now, due)
    case CheckTest(now, due', i) =>
      if i < |due'| then due'[i] < |s.timer.table| && s' == TestDue(s, t, now, due', i) else s' == CheckDone(s, t)
    case CheckFree(now, due', i) => i < |due'| && s' == FreeData(s, t, now, due', i)
  }

  ghost predicate Do(s: State, step: Step, s': State) {
    match step
    case StartPush(t, k) => InUserCode(s, t) && k in s.sers && k in s.live && s' == CallPush(s, t, k, Direct)
    case StartDoJobs(t) => InUserCode(s, t) && s' == Call(s, t, Worker)
    case StartCheck(t, now) => InUserCode(s, t) && s' == Call(s, t, CheckStart(now))
    case Reserve(t, k, tick) =>
      && InUserCode(s, t) && k in s.sers && k in s.live
      && s' == s.(timer := s.timer.(table := s.timer.table + [Reservation(tick, k)],
                                    waiting := s.timer.waiting + {|s.timer.table|}))
    case Cancel(r) => r < |s.timer.table| && s' == s.(timer := s.timer.(canceled := s.timer.canceled + {r}))
    case Destroy(k) => Unreferenced(s, k) && s' == s.(live := s.live - {k})
    case Advance(t, timeout, due) => Active(s, t) && Advanced(s, t, timeout, due, s')
  }

  ghost predicate Next(s: State, s': State) {
    exists step :: Do(s, step, s')
  }

  ghost predicate Init(s: State) {
    && s.stacks.Keys == s.locals.Keys
    && (forall t :: t in s.stacks ==> s.stacks[t] == [] && s.locals[t] == Local(None, 0))
    && (forall k :: k in s.sers ==> s.sers[k] == Serializer(0, [], [], []))
    && s.live == s.sers.Keys
    && s.worker == s.handed == s.picked == []
    && s.timer == Timer([], {}, [], false, {}, [], [])
  }

  /** A finite run from an initial state. */
  ghost predicate Run(r: seq<State>) {
    && r != [] && Init(r[0])
    && forall i :: 0 <= i < |r| - 1 ==> Next(r[i], r[i + 1])
  }
}
