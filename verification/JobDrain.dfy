/** No work is stranded: from every reachable state, if jobs push nothing further, some finite schedule
    runs everything that was pushed. */
module JobDrain {
  import opened JobModel
  import opened StackCount
  import Own = JobOwnership
  import Res = ReservedJobs

  /** A step that starts no push, no reservation and no check: threads finish the calls they are in,
      and may enter `DoJobs`. */
  ghost predicate Quiet(s: State, s': State) {
    exists step: Step :: (step.Advance? || step.StartDoJobs?) && Do(s, step, s')
  }

  ghost predicate Path(p: seq<State>, s: State, s': State) {
    && p != [] && p[0] == s && p[|p| - 1] == s'
    && forall i :: 0 <= i < |p| - 1 ==> Quiet(p[i], p[i + 1])
  }

  ghost predicate Reaches(s: State, s': State) {
    exists p :: Path(p, s, s')
  }

  ghost predicate Inv(s: State) {
    Own.Inv(s) && Res.Inv(s)
  }

  lemma Stay(s: State)
    ensures Reaches(s, s)
  {
    assert Path([s], s, s);
  }

  lemma Join(s: State, m: State, s': State)
    requires Reaches(s, m) && Reaches(m, s')
    ensures Reaches(s, s')
  {
    hide Quiet;
    var p :| Path(p, s, m);
    var q :| Path(q, m, s');
    var pq := p + q[1..];
    forall i | 0 <= i < |pq| - 1 ensures Quiet(pq[i], pq[i + 1]) {
      if i < |p| - 1 {
        assert pq[i] == p[i] && pq[i + 1] == p[i + 1];
      } else {
        assert pq[i] == q[i - |p| + 1] && pq[i + 1] == q[i - |p| + 1 + 1];
      }
    }
    assert Path(pq, s, s');
  }

  lemma OneStep(s: State, step: Step, s': State)
    requires Inv(s) && Do(s, step, s') && (step.Advance? || step.StartDoJobs?)
    ensures Reaches(s, s') && Inv(s')
  {
    hide Own.Inv, Res.Inv, Do;
    Own.StepInv(s, step, s');
    Res.StepInv(s, step, s');
    assert Quiet(s, s');
    assert Path([s, s'], s, s');
  }

  /** The library's next step on the top frame of t. */
  lemma Go(s: State, t: Tid, timeout: bool, due: seq<Rid>, s': State)
    requires Inv(s) && Active(s, t) && Advanced(s, t, timeout, due, s')
    ensures Reaches(s, s') && Inv(s')
  {
    hide Own.Inv, Res.Inv, Advanced;
    OneStep(s, Advance(t, timeout, due), s');
  }

  lemma TopKnown(s: State, t: Tid)
    requires Inv(s) && Active(s, t)
    ensures Subject(Top(s, t)).Some? ==> Subject(Top(s, t)).value in s.sers
  {
    hide Own.AllSerOk, Res.Inv;
    Own.KnownTop(s, t);
  }

  lemma PopReplace(stacks: Stacks<Frame>, t: Tid, f: Frame)
    requires Nonempty(stacks, t)
    ensures Nonempty(Replace(stacks, t, f), t) && TopOf(Replace(stacks, t, f), t) == f
    ensures Pop(Replace(stacks, t, f), t) == Pop(stacks, t)
  {
    assert Replace(stacks, t, f)[t][..|stacks[t]| - 1] == stacks[t][..|stacks[t]| - 1];
  }

  lemma PopPush(stacks: Stacks<Frame>, t: Tid, f: Frame)
    requires t in stacks
    ensures Nonempty(Push(stacks, t, f), t) && TopOf(Push(stacks, t, f), t) == f
    ensures Pop(Push(stacks, t, f), t) == stacks
  {
    assert (stacks[t] + [f])[..|stacks[t]|] == stacks[t];
  }

  // ---- Every call can be finished -------------------------------------------------------------------

  lemma {:induction false} FinishRun(s: State, t: Tid, k: Sid, batch: seq<Job>, i: nat) returns (s': State)
    requires Inv(s) && Active(s, t) && Top(s, t) == ExecRun(k, batch, i)
    ensures Reaches(s, s') && Inv(s') && s'.stacks == Pop(s.stacks, t)
    decreases |batch| - i
  {
    hide Inv, Reaches, Replace, Pop;
    TopKnown(s, t);
    if i < |batch| {
      var s1 := StartJob(s, t, k, batch, i);
      Go(s, t, false, [], s1);
      PopReplace(s.stacks, t, ExecJob(k, batch, i));
      var s2 := SetTop(s1, t, ExecRun(k, batch, i + 1));
      Go(s1, t, false, [], s2);
      PopReplace(s1.stacks, t, ExecRun(k, batch, i + 1));
      s' := FinishRun(s2, t, k, batch, i + 1);
      Join(s, s1, s2);
      Join(s, s2, s');
    } else {
      var s1 := FetchSub(s, t, k, batch);
      Go(s, t, false, [], s1);
      if s.sers[k].count == |batch| {
        s' := s1;
      } else {
        PopReplace(s.stacks, t, ExecDecide(k));
        s' := HandOff(SetCurrent(s1, t, None), t, k);
        Go(s1, t, true, [], s');
        Join(s, s1, s');
      }
    }
  }

  lemma FinishExec(s: State, t: Tid) returns (s': State)
    requires Inv(s) && Active(s, t)
    requires var f := Top(s, t); f.ExecBegin? || f.ExecTake? || f.ExecRun? || f.ExecJob? || f.ExecDecide?
    ensures Reaches(s, s') && Inv(s') && s'.stacks == Pop(s.stacks, t)
    decreases if Top(s, t).ExecBegin? then 1 else 0
  {
    hide Inv, Reaches, Replace, Pop;
    TopKnown(s, t);
    match Top(s, t)
    case ExecBegin(k) =>
      var s1 := Begin(s, t, k);
      Go(s, t, false, [], s1);
      PopReplace(s.stacks, t, ExecTake(k));
      s' := FinishExec(s1, t);
      Join(s, s1, s');
    case ExecTake(k) =>
      var s1 := TakeAll(s, t, k);
      Go(s, t, false, [], s1);
      PopReplace(s.stacks, t, ExecRun(k, s.sers[k].queue, 0));
      s' := FinishRun(s1, t, k, s.sers[k].queue, 0);
      Join(s, s1, s');
    case ExecRun(k, batch, i) => s' := FinishRun(s, t, k, batch, i);
    case ExecJob(k, batch, i) =>
      var s1 := SetTop(s, t, ExecRun(k, batch, i + 1));
      Go(s, t, false, [], s1);
      PopReplace(s.stacks, t, ExecRun(k, batch, i + 1));
      s' := FinishRun(s1, t, k, batch, i + 1);
      Join(s, s1, s');
    case ExecDecide(k) =>
      s' := HandOff(SetCurrent(s, t, None), t, k);
      Go(s, t, true, [], s');
  }

  lemma FinishPush(s: State, t: Tid) returns (s': State)
    requires Inv(s) && Active(s, t) && (Top(s, t).PushStart? || Top(s, t).PushAnnounced? || Top(s, t).PushQueued?)
    ensures Reaches(s, s') && Inv(s') && s'.stacks == Pop(s.stacks, t)
    decreases if Top(s, t).PushStart? then 2 else if Top(s, t).PushAnnounced? then 1 else 0
  {
    hide Inv, Reaches, Replace, Pop;
    TopKnown(s, t);
    match Top(s, t)
    case PushStart(k, job) =>
      var s1 := FetchAdd(s, t, k, job);
      Go(s, t, false, [], s1);
      PopReplace(s.stacks, t, PushAnnounced(k, job, s.sers[k].count));
      s' := FinishPush(s1, t);
      Join(s, s1, s');
    case PushAnnounced(k, job, prev) =>
      var s1 := Enqueue(s, t, k, job, prev);
      Go(s, t, false, [], s1);
      PopReplace(s.stacks, t, PushQueued(k, prev));
      s' := FinishPush(s1, t);
      Join(s, s1, s');
    case PushQueued(k, prev) =>
      var s1 := AfterEnqueue(s, t, k, prev);
      Go(s, t, false, [], s1);
      if prev == 0 && s.locals[t].current == None {
        PopReplace(s.stacks, t, ExecBegin(k));
        s' := FinishExec(s1, t);
        Join(s, s1, s');
      } else {
        s' := s1;
      }
  }

  lemma DueInTable(s: State, t: Tid, now: nat, due: seq<Rid>, i: nat)
    requires Inv(s) && Active(s, t) && Top(s, t) == CheckTest(now, due, i) && i < |due|
    ensures due[i] < |s.timer.table|
  {
    hide Own.Inv, Res.LinksOk;
    Res.TopCheckOk(s, t);
    assert s.timer.inHand[0] == due[i];
  }

  lemma FreeInRange(s: State, t: Tid, now: nat, due: seq<Rid>, i: nat)
    requires Inv(s) && Active(s, t) && Top(s, t) == CheckFree(now, due, i)
    ensures i < |due|
  {
    hide Own.Inv, Res.LinksOk, Res.TestsOk;
    Res.TopCheckOk(s, t);
  }

  lemma {:induction false} FinishTests(s: State, t: Tid, now: nat, due: seq<Rid>, i: nat) returns (s': State)
    requires Inv(s) && Active(s, t) && Top(s, t) == CheckTest(now, due, i)
    ensures Reaches(s, s') && Inv(s') && s'.stacks == Pop(s.stacks, t)
    decreases |due| - i
  {
    hide Inv, Reaches, Replace, Pop, Push;
    if i < |due| {
      DueInTable(s, t, now, due, i);
      var s1 := TestDue(s, t, now, due, i);
      Go(s, t, false, [], s1);
      PopReplace(s.stacks, t, CheckFree(now, due, i));
      var s2 := s1;
      if MayPush(s, due[i]) {
        var owner := s.timer.table[due[i]].owner;
        var job := Job(t, s.locals[t].pushes, Reserved(due[i]));
        PopPush(Replace(s.stacks, t, CheckFree(now, due, i)), t, PushStart(owner, job));
        s2 := FinishPush(s1, t);
        Join(s, s1, s2);
      }
      SameThreads(s2, t);
      var s3 := FreeData(s2, t, now, due, i);
      Go(s2, t, false, [], s3);
      PopReplace(s2.stacks, t, CheckTest(now, due, i + 1));
      s' := FinishTests(s3, t, now, due, i + 1);
      Join(s, s2, s3);
      Join(s, s3, s');
    } else {
      s' := CheckDone(s, t);
      Go(s, t, false, [], s');
    }
  }

  lemma SameThreads(s: State, t: Tid)
    requires Inv(s) && Nonempty(s.stacks, t)
    ensures Active(s, t)
  {
  }

  lemma FinishCheck(s: State, t: Tid) returns (s': State)
    requires Inv(s) && Active(s, t)
    requires Top(s, t).CheckStart? || Top(s, t).CheckLocked? || Top(s, t).CheckTest? || Top(s, t).CheckFree?
    ensures Reaches(s, s') && Inv(s') && s'.stacks == Pop(s.stacks, t)
    decreases if Top(s, t).CheckStart? then 1 else 0
  {
    hide Inv, Reaches, Replace, Pop, Extraction;
    match Top(s, t)
    case CheckStart(now) =>
      var s1 := Exchange(s, t, now);
      Go(s, t, false, [], s1);
      if s.timer.busy {
        s' := s1;
      } else {
        PopReplace(s.stacks, t, CheckLocked(now));
        s' := FinishCheck(s1, t);
        Join(s, s1, s');
      }
    case CheckLocked(now) =>
      WaitingInTable(s);
      var due := Res.ExtractionExists(s.timer, now);
      var s1 := Extract(s, t, now, due);
      Go(s, t, false, due, s1);
      PopReplace(s.stacks, t, CheckTest(now, due, 0));
      s' := FinishTests(s1, t, now, due, 0);
      Join(s, s1, s');
    case CheckTest(now, due, i) => s' := FinishTests(s, t, now, due, i);
    case CheckFree(now, due, i) =>
      FreeInRange(s, t, now, due, i);
      var s1 := FreeData(s, t, now, due, i);
      Go(s, t, false, [], s1);
      PopReplace(s.stacks, t, CheckTest(now, due, i + 1));
      s' := FinishTests(s1, t, now, due, i + 1);
      Join(s, s1, s');
  }

  lemma WaitingInTable(s: State)
    requires Inv(s)
    ensures forall r :: r in s.timer.waiting ==> r < |s.timer.table|
  {
    hide Own.Inv, Res.LinksOk;
  }

  lemma FinishTop(s: State, t: Tid) returns (s': State)
    requires Inv(s) && Active(s, t)
    ensures Reaches(s, s') && Inv(s') && s'.stacks == Pop(s.stacks, t)
  {
    hide Inv, Reaches, Replace, Pop;
    var f := Top(s, t);
    if f.PushStart? || f.PushAnnounced? || f.PushQueued? {
      s' := FinishPush(s, t);
    } else if f.ExecBegin? || f.ExecTake? || f.ExecRun? || f.ExecJob? || f.ExecDecide? {
      s' := FinishExec(s, t);
    } else if f.Worker? {
      s' := Return(s, t);
      Go(s, t, true, [], s');
    } else {
      s' := FinishCheck(s, t);
    }
  }

  lemma {:induction false} Unwind(s: State, t: Tid) returns (s': State)
    requires Inv(s) && IsThread(s, t)
    ensures Reaches(s, s') && Inv(s') && s'.stacks == s.stacks[t := []]
    decreases |s.stacks[t]|
  {
    hide Inv, Reaches;
    if s.stacks[t] == [] {
      s' := s;
      Stay(s);
      assert s.stacks == s.stacks[t := []];
    } else {
      var s1 := FinishTop(s, t);
      ThreadsKnown(s1);
      s' := Unwind(s1, t);
      Join(s, s1, s');
    }
  }

  lemma ThreadsKnown(s: State)
    requires Inv(s)
    ensures s.stacks.Keys == s.locals.Keys
  {
    hide Own.AllSerOk, Res.Inv;
  }

  lemma {:induction false} UnwindAll(s: State, busy: set<Tid>) returns (s': State)
    requires Inv(s) && busy <= s.stacks.Keys
    requires forall t :: t in s.stacks && t !in busy ==> s.stacks[t] == []
    ensures Reaches(s, s') && Inv(s') && s'.stacks.Keys == s.stacks.Keys
    ensures forall t :: t in s'.stacks ==> s'.stacks[t] == []
    decreases busy
  {
    hide Inv, Reaches;
    ThreadsKnown(s);
    if busy == {} {
      s' := s;
      Stay(s);
    } else {
      var t :| t in busy;
      var s1 := Unwind(s, t);
      s' := UnwindAll(s1, busy - {t});
      Join(s, s1, s');
    }
  }

  // ---- An idle thread can empty the worker queue ------------------------------------------------------

  /** Only thread t is inside calls, and it is in the named ones. */
  ghost predicate Alone(s: State, t: Tid, calls: seq<Frame>) {
    && t in s.stacks && s.stacks[t] == calls
    && forall u :: u in s.stacks && u != t ==> s.stacks[u] == []
  }

  lemma AloneCounts(s: State, t: Tid, k: Sid, batch: seq<Job>, i: nat)
    requires Inv(s) && Alone(s, t, [Worker, ExecRun(k, batch, i)]) && k in s.sers && s.sers[k].queue == []
    ensures s.sers[k].count == |batch|
  {
    hide Res.Inv, Own.WellFormed, Own.SerOk;
    assert Own.SerOk(s.stacks, s.sers[k], multiset(s.worker)[k], k);
    Own.BatchIs(s.stacks, s.sers[k], multiset(s.worker)[k], k, t);
    Unoccupied(s.stacks, Own.Announced(k));
  }

  lemma {:induction false} RunOut(s: State, t: Tid, k: Sid, batch: seq<Job>, i: nat) returns (s': State)
    requires Inv(s) && Alone(s, t, [Worker, ExecRun(k, batch, i)]) && k in s.sers && s.sers[k].queue == []
    ensures Reaches(s, s') && Inv(s') && Alone(s', t, [Worker])
    ensures s'.worker == s.worker && s'.stacks.Keys == s.stacks.Keys
    decreases |batch| - i
  {
    hide Inv, Reaches;
    SameThreads(s, t);
    if i < |batch| {
      var s1 := StartJob(s, t, k, batch, i);
      Go(s, t, false, [], s1);
      var s2 := SetTop(s1, t, ExecRun(k, batch, i + 1));
      Go(s1, t, false, [], s2);
      s' := RunOut(s2, t, k, batch, i + 1);
      Join(s, s1, s2);
      Join(s, s2, s');
    } else {
      AloneCounts(s, t, k, batch, i);
      s' := FetchSub(s, t, k, batch);
      Go(s, t, false, [], s');
    }
  }

  lemma {:induction false} EmptyWorker(s: State, t: Tid) returns (s': State)
    requires Inv(s) && Alone(s, t, [Worker])
    ensures Reaches(s, s') && Inv(s') && Alone(s', t, []) && s'.worker == [] && s'.stacks.Keys == s.stacks.Keys
    decreases |s.worker|
  {
    hide Inv, Reaches;
    SameThreads(s, t);
    if s.worker == [] {
      s' := Return(s, t);
      Go(s, t, false, [], s');
    } else {
      var k := s.worker[0];
      var s1 := WorkerPop(s, t);
      Go(s, t, false, [], s1);
      assert Top(s1, t) == ExecBegin(k);
      TopKnown(s1, t);
      var s2 := Begin(s1, t, k);
      Go(s1, t, false, [], s2);
      var s3 := TakeAll(s2, t, k);
      Go(s2, t, false, [], s3);
      assert s3.stacks[t] == [Worker, ExecRun(k, s2.sers[k].queue, 0)];
      var s4 := RunOut(s3, t, k, s2.sers[k].queue, 0);
      s' := EmptyWorker(s4, t);
      Join(s, s1, s2);
      Join(s, s2, s3);
      Join(s, s3, s4);
      Join(s, s4, s');
    }
  }

  lemma IdleMeansDone(s: State, k: Sid)
    requires Inv(s) && k in s.sers && s.worker == [] && forall t :: t in s.stacks ==> s.stacks[t] == []
    ensures s.sers[k].count == 0 && s.sers[k].queue == [] && s.sers[k].ran == s.sers[k].enqueued
  {
    hide Res.Inv;
    Unoccupied(s.stacks, Own.Token(k));
    Own.Settled(s, k);
  }

  // ---- Nothing enqueued is forgotten on the way -------------------------------------------------------

  ghost predicate Extends(s: State, s': State) {
    s'.sers.Keys == s.sers.Keys && forall k :: k in s.sers ==> s.sers[k].enqueued <= s'.sers[k].enqueued
  }

  lemma StepExtends(s: State, step: Step, s': State)
    requires Do(s, step, s') && (step.Advance? || step.StartDoJobs?)
    ensures Extends(s, s')
  {
    hide Advanced, Push;
    if step.Advance? { AdvanceExtends(s, step.t, step.timeout, step.due, s'); }
  }

  lemma AdvanceExtends(s: State, t: Tid, timeout: bool, due: seq<Rid>, s': State)
    requires Active(s, t) && Advanced(s, t, timeout, due, s')
    ensures Extends(s, s')
  {
    hide Replace, Pop, Push, Extraction, Extends;
    match Top(s, t)
    case PushStart(k, _) => SerExtends(s, s', k);
    case PushAnnounced(k, _, _) => SerExtends(s, s', k);
    case ExecTake(k) => SerExtends(s, s', k);
    case ExecRun(k, _, _) => SerExtends(s, s', k);
    case _ => SameSersExtend(s, s');
  }

  lemma SerExtends(s: State, s': State, k: Sid)
    requires k in s.sers && k in s'.sers && s'.sers == s.sers[k := s'.sers[k]]
    requires s.sers[k].enqueued <= s'.sers[k].enqueued
    ensures Extends(s, s')
  {
  }

  lemma SameSersExtend(s: State, s': State)
    requires s'.sers == s.sers
    ensures Extends(s, s')
  {
  }

  lemma {:induction false} PathExtends(p: seq<State>, s: State, s': State)
    requires Path(p, s, s')
    ensures Extends(s, s')
    decreases |p|
  {
    hide Do, Extends;
    if |p| == 1 {
      SameSersExtend(s, s');
    } else {
      var m := p[|p| - 2];
      assert Path(p[..|p| - 1], s, m);
      PathExtends(p[..|p| - 1], s, m);
      assert Quiet(p[|p| - 2], p[|p| - 2 + 1]);
      var step: Step :| (step.Advance? || step.StartDoJobs?) && Do(m, step, s');
      StepExtends(m, step, s');
      BothExtend(s, m, s');
    }
  }

  lemma BothExtend(s: State, m: State, s': State)
    requires Extends(s, m) && Extends(m, s')
    ensures Extends(s, s')
  {
  }

  /** From every state of every run with at least one thread, a finite schedule without new pushes runs
      every job that was enqueued, and leaves all counters and queues empty. */
  lemma EverythingCanDrain(r: seq<State>, n: nat) returns (s': State)
    requires Run(r) && n < |r| && r[n].stacks.Keys != {}
    ensures Reaches(r[n], s') && s'.sers.Keys == r[n].sers.Keys && s'.worker == []
    ensures forall t :: t in s'.stacks ==> s'.stacks[t] == []
    ensures forall k :: k in s'.sers ==>
              && s'.sers[k].count == 0 && s'.sers[k].queue == []
              && r[n].sers[k].enqueued <= s'.sers[k].enqueued && s'.sers[k].ran == s'.sers[k].enqueued
  {
    hide Inv, Own.Inv, Res.Inv, Do;
    var s := r[n];
    assert Inv(s) by { BothReachable(r, n); }
    var s1 := UnwindAll(s, s.stacks.Keys);
    ThreadsKnown(s1);
    var t :| t in s1.stacks;
    var s2 := Call(s1, t, Worker);
    OneStep(s1, StartDoJobs(t), s2) by { IdleMayCall(s1, t); }
    s' := EmptyWorker(s2, t);
    Join(s, s1, s2);
    Join(s, s2, s');
    var p :| Path(p, s, s');
    PathExtends(p, s, s');
    forall k | k in s'.sers
      ensures s'.sers[k].count == 0 && s'.sers[k].queue == [] && s'.sers[k].ran == s'.sers[k].enqueued
    {
      IdleMeansDone(s', k);
    }
  }

  lemma IdleMayCall(s: State, t: Tid)
    requires IsThread(s, t) && s.stacks[t] == []
    ensures Do(s, StartDoJobs(t), Call(s, t, Worker))
  {
  }

  lemma BothReachable(r: seq<State>, n: nat)
    requires Run(r) && n < |r|
    ensures Inv(r[n])
  {
    hide Own.Inv, Res.Inv;
    Own.Reachable(r, n);
    Res.Reachable(r, n);
  }
}
