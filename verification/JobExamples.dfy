/** Runs of the job system: a late cancellation, a hand-off, a nested execution, and a destroyed owner. */
module JobExamples {
  import opened JobModel
  import opened StackCount

  /** A run that ends in s. */
  ghost predicate Trace(r: seq<State>, s: State) {
    Run(r) && r[|r| - 1] == s
  }

  /** One run is the beginning of another. */
  ghost predicate Continues(r: seq<State>, r': seq<State>) {
    |r| < |r'| && r == r'[..|r|]
  }

  lemma Extend(r: seq<State>, s: State, step: Step, s': State) returns (r': seq<State>)
    requires Trace(r, s) && Do(s, step, s')
    ensures Trace(r', s') && Continues(r, r')
  {
    hide Do, Init;
    r' := r + [s'];
    assert Next(s, s');
    forall i | 0 <= i < |r'| - 1 ensures Next(r'[i], r'[i + 1]) {
      if i < |r| - 1 { assert Next(r[i], r[i + 1]); }
    }
  }

  lemma Further(a: seq<State>, b: seq<State>, c: seq<State>)
    requires Continues(a, b) && Continues(b, c)
    ensures Continues(a, c)
  {
    assert c[..|a|] == c[..|b|][..|a|];
  }

  /** Two threads and a serializer, 0: the call stacks, what thread 1 executes, the serializer and the timer. */
  ghost predicate Shape(s: State, first: seq<Frame>, second: seq<Frame>, current: Option<Sid>, q: Serializer,
                        tm: Timer) {
    && IsThread(s, 1) && IsThread(s, 2) && s.stacks[1] == first && s.stacks[2] == second
    && s.locals[1].current == current && s.locals[2].current == None
    && 0 in s.sers && s.sers[0] == q && 0 in s.live && s.timer == tm
  }

  /** A direct job of thread 1, and a job reserved for tick 5 and pushed by thread 2. */
  const D := Job(1, 0, Direct)
  const A := Job(2, 0, Reserved(0))

  const T0 := Timer([], {}, [], false, {}, [], [])
  const T1 := Timer([Reservation(5, 0)], {0}, [], false, {}, [], [])
  const T2 := T1.(busy := true)
  const T3 := T2.(waiting := {}, inHand := [0])
  const T4 := T3.(inHand := [], tests := [Test(0, 5, 0, true)])
  const T5 := T4.(freed := [0], busy := false)
  const T6 := T5.(canceled := {0})

  const Fresh := Serializer(0, [], [], [])

  function Start(): State {
    State(map[1 := [], 2 := []], map[1 := Local(None, 0), 2 := Local(None, 0)], map[0 := Fresh, 1 := Fresh], {0, 1}, [],
          T0, [], [])
  }

  lemma Starts()
    ensures Trace([Start()], Start())
  {
  }

  /** The second serializer is idle, and nothing was handed off; thread 1 has pushed once. */
  ghost predicate Spare(s: State) {
    1 in s.sers && s.sers[1] == Fresh && 1 in s.live && s.worker == [] && 1 in s.locals && s.locals[1].pushes == 1
  }

  /** Thread 1 pushes its job. */
  lemma PushDirect() returns (r: seq<State>, s: State)
    ensures Trace(r, s)
    ensures Shape(s, [PushQueued(0, 0)], [], None, Serializer(1, [D], [D], []), T0) && s.locals[2].pushes == 0
    ensures Spare(s)
  {
    hide Trace, Continues, Extraction;
    var s0 := Start();
    r := [s0];
    Starts();
    var s1 := CallPush(s0, 1, 0, Direct);
    r := Extend(r, s0, StartPush(1, 0), s1);
    var s2 := FetchAdd(s1, 1, 0, D);
    assert s1.stacks[1] == [PushStart(0, D)];
    r := Extend(r, s1, Advance(1, false, []), s2);
    assert s2.stacks[1] == [PushAnnounced(0, D, 0)];
    s := Enqueue(s2, 1, 0, D, 0);
    r := Extend(r, s2, Advance(1, false, []), s);
  }

  /** It becomes the owner and runs it. */
  lemma RunDirect() returns (r: seq<State>, s: State)
    ensures Trace(r, s)
    ensures Shape(s, [ExecJob(0, [D], 0)], [], Some(0), Serializer(1, [], [D], [D]), T0) && s.locals[2].pushes == 0
    ensures Spare(s)
  {
    hide Trace, Continues;
    var s0;
    r, s0 := PushDirect();
    var s1 := AfterEnqueue(s0, 1, 0, 0);
    r := Extend(r, s0, Advance(1, false, []), s1);
    assert s1.stacks[1] == [ExecBegin(0)];
    var s2 := Begin(s1, 1, 0);
    r := Extend(r, s1, Advance(1, false, []), s2);
    assert s2.stacks[1] == [ExecTake(0)];
    var s3 := TakeAll(s2, 1, 0);
    r := Extend(r, s2, Advance(1, false, []), s3);
    assert s3.stacks[1] == [ExecRun(0, [D], 0)];
    s := StartJob(s3, 1, 0, [D], 0);
    r := Extend(r, s3, Advance(1, false, []), s);
  }

  /** Meanwhile thread 2 reserves a job, and starts a check when it is due. */
  lemma StartReserved() returns (r: seq<State>, s: State)
    ensures Trace(r, s)
    ensures Shape(s, [ExecJob(0, [D], 0)], [CheckLocked(5)], Some(0), Serializer(1, [], [D], [D]), T2)
    ensures s.locals[2].pushes == 0
  {
    hide Trace, Continues, Extraction;
    var s0;
    r, s0 := RunDirect();
    var s1 := s0.(timer := T1);
    assert [] + [Reservation(5, 0)] == [Reservation(5, 0)] && {} + {0} == {0};
    r := Extend(r, s0, Reserve(2, 0, 5), s1);
    var s2 := Call(s1, 2, CheckStart(5));
    r := Extend(r, s1, StartCheck(2, 5), s2);
    assert s2.stacks[2] == [CheckStart(5)];
    s := Exchange(s2, 2, 5);
    r := Extend(r, s2, Advance(2, false, []), s);
  }

  lemma ExtractReserved() returns (r: seq<State>, s: State)
    ensures Trace(r, s)
    ensures Shape(s, [ExecJob(0, [D], 0)], [CheckTest(5, [0], 0)], Some(0), Serializer(1, [], [D], [D]), T3)
    ensures s.locals[2].pushes == 0
  {
    hide Trace, Continues;
    var s0;
    r, s0 := StartReserved();
    assert Extraction(T2, 5, [0]);
    s := Extract(s0, 2, 5, [0]);
    r := Extend(r, s0, Advance(2, false, [0]), s);
    assert T2.waiting - (set x | x in [0]) == {};
  }

  /** The test lets it through, and it is enqueued behind the running batch. */
  lemma EnqueueReserved() returns (r: seq<State>, s: State)
    ensures Trace(r, s)
    ensures Shape(s, [ExecJob(0, [D], 0)], [CheckFree(5, [0], 0), PushQueued(0, 1)], Some(0),
                  Serializer(2, [A], [D, A], [D]), T4)
  {
    hide Trace, Continues;
    var s0;
    r, s0 := ExtractReserved();
    var s1 := TestDue(s0, 2, 5, [0], 0);
    r := Extend(r, s0, Advance(2, false, []), s1);
    assert [0][1..] == [] && [] + [Test(0, 5, 0, true)] == [Test(0, 5, 0, true)];
    assert s1.stacks[2] == [CheckFree(5, [0], 0), PushStart(0, A)];
    var s2 := FetchAdd(s1, 2, 0, A);
    r := Extend(r, s1, Advance(2, false, []), s2);
    assert s2.stacks[2] == [CheckFree(5, [0], 0), PushAnnounced(0, A, 1)];
    s := Enqueue(s2, 2, 0, A, 1);
    r := Extend(r, s2, Advance(2, false, []), s);
  }

  /** The check is over. */
  lemma EndCheck() returns (r: seq<State>, s: State)
    ensures Trace(r, s)
    ensures Shape(s, [ExecJob(0, [D], 0)], [], Some(0), Serializer(2, [A], [D, A], [D]), T5)
  {
    hide Trace, Continues;
    var s0;
    r, s0 := EnqueueReserved();
    var s1 := AfterEnqueue(s0, 2, 0, 1);
    r := Extend(r, s0, Advance(2, false, []), s1);
    assert s1.stacks[2] == [CheckFree(5, [0], 0)];
    var s2 := FreeData(s1, 2, 5, [0], 0);
    r := Extend(r, s1, Advance(2, false, []), s2);
    assert [] + [0] == [0];
    assert s2.stacks[2] == [CheckTest(5, [0], 1)];
    s := CheckDone(s2, 2);
    r := Extend(r, s2, Advance(2, false, []), s);
  }

  /** Thread 1 ends its first batch and takes the next. */
  lemma TakeNext(r0: seq<State>, s0: State) returns (r: seq<State>, s: State)
    requires Trace(r0, s0)
    requires Shape(s0, [ExecJob(0, [D], 0)], [], Some(0), Serializer(2, [A], [D, A], [D]), T6)
    ensures Trace(r, s) && Continues(r0, r)
    ensures Shape(s, [ExecTake(0)], [], Some(0), Serializer(1, [A], [D, A], [D]), T6)
  {
    hide Trace, Continues;
    var s1 := SetTop(s0, 1, ExecRun(0, [D], 1));
    var r1 := Extend(r0, s0, Advance(1, false, []), s1);
    assert s1.stacks[1] == [ExecRun(0, [D], 1)];
    var s2 := FetchSub(s1, 1, 0, [D]);
    var r2 := Extend(r1, s1, Advance(1, false, []), s2);
    assert s2.stacks[1] == [ExecDecide(0)];
    s := SetTop(s2, 1, ExecTake(0));
    r := Extend(r2, s2, Advance(1, false, []), s);
    Further(r0, r1, r2);
    Further(r0, r2, r);
  }

  lemma RunNext(r0: seq<State>, s0: State) returns (r: seq<State>, s: State)
    requires Trace(r0, s0)
    requires Shape(s0, [ExecTake(0)], [], Some(0), Serializer(1, [A], [D, A], [D]), T6)
    ensures Trace(r, s) && Continues(r0, r)
    ensures Shape(s, [ExecJob(0, [A], 0)], [], Some(0), Serializer(1, [], [D, A], [D, A]), T6)
  {
    hide Trace, Continues;
    var s1 := TakeAll(s0, 1, 0);
    var r1 := Extend(r0, s0, Advance(1, false, []), s1);
    assert s1.stacks[1] == [ExecRun(0, [A], 0)];
    s := StartJob(s1, 1, 0, [A], 0);
    r := Extend(r1, s1, Advance(1, false, []), s);
    Further(r0, r1, r);
  }

  /** At m job 0 is cancelled, enqueued and not yet executed; at the end of the run it has been executed. */
  lemma CanceledJobRuns() returns (r: seq<State>, m: nat)
    ensures Run(r) && m < |r| && 0 in r[m].sers && 0 in r[|r| - 1].sers
    ensures 0 in r[m].timer.canceled && A.src == Reserved(0) && A in r[m].sers[0].queue && A !in r[m].sers[0].ran
    ensures A in r[|r| - 1].sers[0].ran
  {
    hide Run;
    var s0;
    r, s0 := EndCheck();
    var s1 := s0.(timer := T6);
    assert {} + {0} == {0};
    var r1 := Extend(r, s0, JobModel.Cancel(0), s1);
    var r2, s2 := TakeNext(r1, s1);
    var s3;
    r, s3 := RunNext(r2, s2);
    m := |r1| - 1;
    Further(r1, r2, r);
    assert r[m] == r1[m] == s1 && r[|r| - 1] == s3;
  }

  // ---- Hand-off and nesting ---------------------------------------------------------------------------------------

  const E := Job(1, 1, Direct)

  lemma PushFromJob() returns (r: seq<State>, s: State)
    ensures Trace(r, s) && IsThread(s, 1) && s.locals[1].current == Some(0) && s.worker == []
    ensures s.stacks[1] == [ExecJob(0, [D], 0), PushQueued(1, 0)]
    ensures 1 in s.sers && s.sers[1].queue == [E] && s.sers[1].ran == []
  {
    hide Trace, Continues, Extraction;
    var s0;
    r, s0 := RunDirect();
    var s1 := CallPush(s0, 1, 1, Direct);
    r := Extend(r, s0, StartPush(1, 1), s1);
    assert s1.stacks[1] == [ExecJob(0, [D], 0), PushStart(1, E)];
    var s2 := FetchAdd(s1, 1, 1, E);
    r := Extend(r, s1, Advance(1, false, []), s2);
    assert s2.stacks[1] == [ExecJob(0, [D], 0), PushAnnounced(1, E, 0)];
    s := Enqueue(s2, 1, 1, E, 0);
    r := Extend(r, s2, Advance(1, false, []), s);
  }

  /** A running job pushes to an idle serializer: it is not executed in place but left to the worker queue. */
  lemma PushFromJobHandsOff() returns (r: seq<State>, s: State)
    ensures Trace(r, s) && IsThread(s, 1) && s.stacks[1] == [ExecJob(0, [D], 0)] && s.worker == [1]
    ensures 1 in s.sers && s.sers[1].queue == [E] && s.sers[1].ran == []
  {
    hide Trace, Continues, Extraction;
    var s0;
    r, s0 := PushFromJob();
    s := AfterEnqueue(s0, 1, 1, 0);
    r := Extend(r, s0, Advance(1, false, []), s);
  }

  /** A job that enters `DoJobs` executes a second serializer inside the first: two calls of one stack execute. */
  lemma JobsCanNest() returns (r: seq<State>)
    ensures Run(r) && var s := r[|r| - 1]; 1 in s.stacks && s.stacks[1] == [ExecJob(0, [D], 0), Worker, ExecBegin(1)]
  {
    hide Run, Extraction;
    var s0;
    r, s0 := PushFromJobHandsOff();
    var s1 := Call(s0, 1, Worker);
    r := Extend(r, s0, StartDoJobs(1), s1);
    var s2 := WorkerPop(s1, 1);
    assert s1.stacks[1] == [ExecJob(0, [D], 0), Worker];
    r := Extend(r, s1, Advance(1, false, []), s2);
  }

  // ---- A destroyed owner ------------------------------------------------------------------------------------------

  lemma DestroyOwner() returns (r: seq<State>, s: State)
    ensures Trace(r, s) && IsThread(s, 2) && s.stacks[2] == [] && s.timer == T1
    ensures 0 in s.sers && s.sers[0] == Fresh && 0 !in s.live
  {
    hide Trace, Continues, Advanced;
    var s0 := Start();
    r := [s0];
    Starts();
    var s1 := s0.(timer := T1);
    assert [] + [Reservation(5, 0)] == [Reservation(5, 0)] && {} + {0} == {0};
    r := Extend(r, s0, Reserve(2, 0, 5), s1);
    s := s1.(live := s1.live - {0});
    r := Extend(r, s1, Destroy(0), s);
  }

  lemma CheckAfterwards() returns (r: seq<State>, s: State)
    ensures Trace(r, s) && IsThread(s, 2) && s.stacks[2] == [CheckLocked(5)] && s.timer == T2
    ensures 0 in s.sers && s.sers[0] == Fresh && 0 !in s.live
  {
    hide Trace, Continues, Extraction;
    var s0;
    r, s0 := DestroyOwner();
    var s1 := Call(s0, 2, CheckStart(5));
    r := Extend(r, s0, StartCheck(2, 5), s1);
    assert s1.stacks[2] == [CheckStart(5)];
    s := Exchange(s1, 2, 5);
    r := Extend(r, s1, Advance(2, false, []), s);
  }

  /** The owner is destroyed before its reserved job is due: the check takes the job out and drops it. */
  lemma DestroyedOwnerGetsNothing() returns (r: seq<State>)
    ensures Run(r)
    ensures var s := r[|r| - 1];
            && s.timer.tests == [Test(0, 5, 0, false)] && s.timer.waiting == {}
            && 0 in s.sers && s.sers[0] == Fresh && 2 in s.stacks && s.stacks[2] == [CheckFree(5, [0], 0)]
  {
    hide Run;
    var s0;
    r, s0 := CheckAfterwards();
    assert Extraction(T2, 5, [0]);
    hide Extraction;
    var s1 := Extract(s0, 2, 5, [0]);
    r := Extend(r, s0, Advance(2, false, [0]), s1);
    assert T2.waiting - (set x | x in [0]) == {};
    assert s1.stacks[2] == [CheckTest(5, [0], 0)];
    var s2 := TestDue(s1, 2, 5, [0], 0);
    r := Extend(r, s1, Advance(2, false, []), s2);
    assert [] + [Test(0, 5, 0, false)] == [Test(0, 5, 0, false)];
  }
}
