/** What a thread executes, what the worker queue hands on, and what becomes of destroyed serializers. */
module JobThreads {
  import opened JobModel
  import opened StackCount

  // ---- One serializer at a time per thread ------------------------------------------------------------------------

  /** A call of `ExecuteJobs`. */
  predicate IsExec(f: Frame) {
    f.ExecBegin? || f.ExecTake? || f.ExecRun? || f.ExecJob? || f.ExecDecide?
  }

  /** Past the write of `TLS_CurrentJobSerializer`. */
  predicate Past(f: Frame) {
    IsExec(f) && !f.ExecBegin?
  }

  /** A step that enters `DoJobs`, if at all, from outside of all calls. */
  ghost predicate Polite(s: State, s': State) {
    exists step: Step :: Do(s, step, s') && (step.StartDoJobs? ==> step.t in s.stacks && s.stacks[step.t] == [])
  }

  /** A run in which no job enters `DoJobs`. */
  ghost predicate PoliteRun(r: seq<State>) {
    Run(r) && forall i :: 0 <= i < |r| - 1 ==> Polite(r[i], r[i + 1])
  }

  ghost predicate ThreadOk(st: seq<Frame>, current: Option<Sid>) {
    && (forall i, j :: 0 <= i < j < |st| ==> !(IsExec(st[i]) && IsExec(st[j])))
    && (forall i :: 0 <= i < |st| - 1 ==> !st[i].ExecBegin?)
    && (forall i :: 0 < i < |st| ==> !st[i].Worker?)
    && (forall i :: 0 <= i < |st| && Past(st[i]) ==> current == Some(st[i].k))
    && (current.Some? ==> exists i :: 0 <= i < |st| && Past(st[i]))
  }

  ghost predicate ThreadsOk(s: State) {
    forall t :: IsThread(s, t) ==> ThreadOk(s.stacks[t], s.locals[t].current)
  }

  /** The innermost call, and the calls below it. */
  function Last(st: seq<Frame>): Frame
    requires st != []
  {
    st[|st| - 1]
  }

  function Below(st: seq<Frame>): seq<Frame>
    requires st != []
  {
    st[..|st| - 1]
  }

  lemma Drops(st: seq<Frame>, c: Option<Sid>)
    requires ThreadOk(st, c) && st != [] && !IsExec(Last(st))
    ensures ThreadOk(Below(st), c)
  {
    if c.Some? {
      var i :| 0 <= i < |st| && Past(st[i]);
      assert Below(st)[i] == st[i];
    }
  }

  lemma Leaves(st: seq<Frame>, c: Option<Sid>)
    requires ThreadOk(st, c) && st != [] && IsExec(Last(st))
    ensures ThreadOk(Below(st), None)
  {
  }

  lemma Calls(st: seq<Frame>, c: Option<Sid>, g: Frame)
    requires ThreadOk(st, c) && !IsExec(g) && (st != [] ==> !Last(st).ExecBegin? && !g.Worker?)
    ensures ThreadOk(st + [g], c)
  {
    if c.Some? {
      var i :| 0 <= i < |st| && Past(st[i]);
      assert (st + [g])[i] == st[i];
    }
  }

  lemma Enters(st: seq<Frame>, k: Sid)
    requires ThreadOk(st, None) && (st != [] ==> !Last(st).ExecBegin?)
    ensures ThreadOk(st + [ExecBegin(k)], None)
  {
  }

  lemma Works(st: seq<Frame>, c: Option<Sid>, k: Sid, g: Frame)
    requires ThreadOk(st, c) && st != [] && IsExec(Last(st)) && Last(st).k == k && Past(g) && g.k == k
    ensures ThreadOk(Below(st) + [g], Some(k))
  {
    var st' := Below(st) + [g];
    assert Past(st'[|st| - 1]);
  }

  /** A step of t: the other threads stay where they are. */
  ghost predicate OnlyMoves(s: State, t: Tid, s': State) {
    && s'.stacks.Keys == s.stacks.Keys && s'.locals.Keys == s.locals.Keys && IsThread(s, t)
    && (forall u :: u in s.stacks && u != t ==> s'.stacks[u] == s.stacks[u])
    && forall u :: u in s.locals && u != t ==> s'.locals[u] == s.locals[u]
  }

  lemma ThreadMoves(s: State, t: Tid, s': State)
    requires ThreadsOk(s) && OnlyMoves(s, t, s') && ThreadOk(s'.stacks[t], s'.locals[t].current)
    ensures ThreadsOk(s')
  {
    hide ThreadOk;
  }

  predicate IsPush(f: Frame) {
    f.PushStart? || f.PushAnnounced? || f.PushQueued?
  }

  predicate IsCheck(f: Frame) {
    f.CheckStart? || f.CheckLocked? || f.CheckTest? || f.CheckFree?
  }

  lemma PushMovesOne(s: State, t: Tid, timeout: bool, due: seq<Rid>, s': State)
    requires Active(s, t) && Advanced(s, t, timeout, due, s') && IsPush(Top(s, t))
    ensures OnlyMoves(s, t, s')
  {
  }

  lemma ExecMovesOne(s: State, t: Tid, timeout: bool, due: seq<Rid>, s': State)
    requires Active(s, t) && Advanced(s, t, timeout, due, s') && IsExec(Top(s, t))
    ensures OnlyMoves(s, t, s')
  {
  }

  lemma CheckMovesOne(s: State, t: Tid, timeout: bool, due: seq<Rid>, s': State)
    requires Active(s, t) && Advanced(s, t, timeout, due, s') && (Top(s, t) == Worker || IsCheck(Top(s, t)))
    ensures OnlyMoves(s, t, s')
  {
    hide Extraction;
  }

  lemma AdvanceMovesOne(s: State, t: Tid, timeout: bool, due: seq<Rid>, s': State)
    requires Active(s, t) && Advanced(s, t, timeout, due, s')
    ensures OnlyMoves(s, t, s')
  {
    hide Advanced, OnlyMoves;
    if IsPush(Top(s, t)) {
      PushMovesOne(s, t, timeout, due, s');
    } else if IsExec(Top(s, t)) {
      ExecMovesOne(s, t, timeout, due, s');
    } else {
      CheckMovesOne(s, t, timeout, due, s');
    }
  }

  lemma PushThread(s: State, t: Tid, timeout: bool, due: seq<Rid>, s': State)
    requires ThreadsOk(s) && Active(s, t) && Advanced(s, t, timeout, due, s')
    requires IsPush(Top(s, t))
    ensures ThreadOk(s'.stacks[t], s'.locals[t].current)
  {
    hide ThreadOk;
    var st, c := s.stacks[t], s.locals[t].current;
    var rest := Below(st);
    Drops(st, c);
    assert s'.locals[t] == s.locals[t];
    if rest != [] { NotBegin(st, c); }
    match Top(s, t)
    case PushStart(k, job) =>
      Calls(rest, c, PushAnnounced(k, job, s.sers[k].count));
      assert s'.stacks[t] == rest + [PushAnnounced(k, job, s.sers[k].count)];
    case PushAnnounced(k, job, prev) =>
      Calls(rest, c, PushQueued(k, prev));
      assert s'.stacks[t] == rest + [PushQueued(k, prev)];
    case PushQueued(k, prev) =>
      if prev == 0 && c == None {
        Enters(rest, k);
        assert s'.stacks[t] == rest + [ExecBegin(k)];
      }
  }

  lemma NotBegin(st: seq<Frame>, c: Option<Sid>)
    requires ThreadOk(st, c) && |st| > 1
    ensures Below(st) != [] && !Last(Below(st)).ExecBegin? && !Last(st).Worker?
  {
  }

  lemma ExecThread(s: State, t: Tid, timeout: bool, due: seq<Rid>, s': State)
    requires ThreadsOk(s) && Active(s, t) && Advanced(s, t, timeout, due, s') && IsExec(Top(s, t))
    ensures ThreadOk(s'.stacks[t], s'.locals[t].current)
  {
    var st, c := s.stacks[t], s.locals[t].current;
    assert ThreadOk(st, c);
    assert Past(Top(s, t)) ==> c == Some(Top(s, t).k);
    hide ThreadOk;
    var rest, k := Below(st), Top(s, t).k;
    Leaves(st, c);
    if s'.stacks[t] != rest {
      var g := Top(s', t);
      Works(st, c, k, g);
      assert s'.stacks[t] == rest + [g];
    }
  }

  lemma WorkerThread(s: State, t: Tid, timeout: bool, due: seq<Rid>, s': State)
    requires ThreadsOk(s) && Active(s, t) && Advanced(s, t, timeout, due, s') && Top(s, t) == Worker
    ensures ThreadOk(s'.stacks[t], s'.locals[t].current)
  {
    var st, c := s.stacks[t], s.locals[t].current;
    assert ThreadOk(st, c);
    assert |st| == 1 && c == None;
    hide ThreadOk;
    Drops(st, c);
    if !timeout && s.worker != [] { Enters(st, s.worker[0]); }
  }

  lemma CheckThread(s: State, t: Tid, timeout: bool, due: seq<Rid>, s': State)
    requires ThreadsOk(s) && Active(s, t) && Advanced(s, t, timeout, due, s')
    requires IsCheck(Top(s, t))
    ensures ThreadOk(s'.stacks[t], s'.locals[t].current)
  {
    hide ThreadOk, Extraction, MayPush;
    var st, c := s.stacks[t], s.locals[t].current;
    var rest := Below(st);
    assert ThreadOk(st, c);
    hide ThreadsOk;
    Drops(st, c);
    if rest != [] { NotBegin(st, c); }
    assert s'.locals[t].current == c;
    if s'.stacks[t] != rest {
      var g := s'.stacks[t][|rest|];
      Calls(rest, c, g);
      if |s'.stacks[t]| == |rest| + 1 {
        assert s'.stacks[t] == rest + [g];
      } else {
        var h := s'.stacks[t][|rest| + 1];
        assert s'.stacks[t] == rest + [g] + [h];
        Calls(rest + [g], c, h);
      }
    }
  }

  lemma StepThreads(s: State, step: Step, s': State)
    requires ThreadsOk(s) && Do(s, step, s') && (step.StartDoJobs? ==> s.stacks[step.t] == [])
    ensures ThreadsOk(s')
  {
    hide Advanced, ThreadOk;
    match step
    case Advance(t, timeout, due) =>
      AdvanceMovesOne(s, t, timeout, due, s');
      var f := Top(s, t);
      if IsExec(f) {
        ExecThread(s, t, timeout, due, s');
      } else if f == Worker {
        WorkerThread(s, t, timeout, due, s');
      } else if IsPush(f) {
        PushThread(s, t, timeout, due, s');
      } else {
        CheckThread(s, t, timeout, due, s');
      }
      ThreadMoves(s, t, s');
    case StartPush(t, k) => CallThread(s, t, Top(s', t), s');
    case StartDoJobs(t) => CallThread(s, t, Worker, s');
    case StartCheck(t, now) => CallThread(s, t, CheckStart(now), s');
    case _ =>
  }

  lemma CallThread(s: State, t: Tid, g: Frame, s': State)
    requires ThreadsOk(s) && InUserCode(s, t) && OnlyMoves(s, t, s') && s'.stacks[t] == s.stacks[t] + [g]
    requires s'.locals[t].current == s.locals[t].current && !IsExec(g) && (g == Worker ==> s.stacks[t] == [])
    ensures ThreadsOk(s')
  {
    hide ThreadOk;
    Calls(s.stacks[t], s.locals[t].current, g);
    ThreadMoves(s, t, s');
  }

  lemma {:induction false} ThreadsReachable(r: seq<State>, n: nat)
    requires PoliteRun(r) && n < |r|
    ensures ThreadsOk(r[n])
  {
    hide Do;
    if n > 0 {
      ThreadsReachable(r, n - 1);
      assert Polite(r[n - 1], r[n - 1 + 1]);
      var step: Step :| Do(r[n - 1], step, r[n])
                        && (step.StartDoJobs? ==> step.t in r[n - 1].stacks && r[n - 1].stacks[step.t] == []);
      StepThreads(r[n - 1], step, r[n]);
    }
  }

  /** If no job enters `DoJobs`, no thread ever executes two serializers, one inside the other: a push from a running
      job leaves the other serializer to the worker queue. */
  lemma NoNestedExecution(r: seq<State>, n: nat, t: Tid, i: int, j: int)
    requires PoliteRun(r) && n < |r| && IsThread(r[n], t)
    requires 0 <= i < |r[n].stacks[t]| && 0 <= j < |r[n].stacks[t]|
    requires IsExec(r[n].stacks[t][i]) && IsExec(r[n].stacks[t][j])
    ensures i == j
  {
    ThreadsReachable(r, n);
  }

  /** And `TLS_CurrentJobSerializer` names exactly the serializer that the thread executes. */
  lemma CurrentIffExecuting(r: seq<State>, n: nat, t: Tid, k: Sid)
    requires PoliteRun(r) && n < |r| && IsThread(r[n], t)
    ensures r[n].locals[t].current == Some(k) <==>
              exists i :: 0 <= i < |r[n].stacks[t]| && Past(r[n].stacks[t][i]) && r[n].stacks[t][i].k == k
  {
    ThreadsReachable(r, n);
    assert ThreadOk(r[n].stacks[t], r[n].locals[t].current);
  }

  // ---- The worker queue ---------------------------------------------------------------------------------------------

  lemma WorkerStep(s: State, step: Step, s': State)
    requires Do(s, step, s') && s.picked + s.worker == s.handed
    ensures s'.picked + s'.worker == s'.handed
  {
    hide Advanced;
    if step.Advance? {
      WorkerAdvance(s, step.t, step.timeout, step.due, s');
      if s'.handed != s.handed {
        assert s.picked + (s.worker + [s'.handed[|s.handed|]]) == s.handed + [s'.handed[|s.handed|]];
      }
    }
  }

  /** What a step does to the worker queue: nothing, or a hand-off at the end, or a pick at the front. */
  lemma WorkerAdvance(s: State, t: Tid, timeout: bool, due: seq<Rid>, s': State)
    requires Active(s, t) && Advanced(s, t, timeout, due, s')
    ensures || (s'.worker == s.worker && s'.handed == s.handed && s'.picked == s.picked)
            || (exists k :: s'.worker == s.worker + [k] && s'.handed == s.handed + [k] && s'.picked == s.picked)
            || (exists k :: s.worker == [k] + s'.worker && s'.handed == s.handed && s'.picked == s.picked + [k])
  {
    hide Extraction, Replace, Pop, Push;
    if Top(s, t) == Worker && s.worker != [] { assert s.worker == [s.worker[0]] + s.worker[1..]; }
  }

  /** Serializers are picked up in the order in which they were handed to the worker queue, each as often as it was. */
  lemma {:induction false} PickedInOrder(r: seq<State>, n: nat)
    requires Run(r) && n < |r|
    ensures r[n].picked + r[n].worker == r[n].handed
  {
    hide Do;
    if n > 0 {
      PickedInOrder(r, n - 1);
      assert Next(r[n - 1], r[n - 1 + 1]);
      var step :| Do(r[n - 1], step, r[n]);
      WorkerStep(r[n - 1], step, r[n]);
    }
  }

  /** The innermost call of t has returned. */
  ghost predicate Returned(s: State, t: Tid, s': State) {
    Active(s, t) && t in s'.stacks && s'.stacks[t] == s.stacks[t][..|s.stacks[t]| - 1]
  }

  /** The end of an executor's time slice: with more to do, it goes on with the same serializer if there is time, and
      otherwise hands it on and returns. */
  lemma ExecutorSlice(s: State, t: Tid, timeout: bool, due: seq<Rid>, s': State)
    requires Do(s, Advance(t, timeout, due), s') && Top(s, t).ExecDecide?
    ensures timeout ==> s'.handed == s.handed + [Top(s, t).k] && Returned(s, t, s')
    ensures !timeout ==> s'.handed == s.handed && Active(s', t) && Top(s', t) == ExecTake(Top(s, t).k)
  {
  }

  /** A worker executes the front of the queue if there is time and something in it, and otherwise returns. */
  lemma WorkerSlice(s: State, t: Tid, timeout: bool, due: seq<Rid>, s': State)
    requires Do(s, Advance(t, timeout, due), s') && Top(s, t) == Worker
    ensures timeout || s.worker == [] ==> s'.picked == s.picked && Returned(s, t, s')
    ensures !timeout && s.worker != [] ==>
              s'.picked == s.picked + [s.worker[0]] && Active(s', t) && Top(s', t) == ExecBegin(s.worker[0])
  {
  }

  // ---- Destroyed serializers --------------------------------------------------------------------------------------

  /** Whatever a call or the worker queue refers to is alive. */
  ghost predicate AliveOk(s: State) {
    && (forall k :: k in s.worker ==> k in s.live)
    && forall t, i :: At(s.stacks, t, i) && Subject(s.stacks[t][i]).Some? ==> Subject(s.stacks[t][i]).value in s.live
  }

  ghost predicate StackAlive(st: seq<Frame>, live: set<Sid>) {
    forall i :: 0 <= i < |st| && Subject(st[i]).Some? ==> Subject(st[i]).value in live
  }

  lemma AliveStacks(s: State)
    ensures AliveOk(s) <==>
              && (forall k :: k in s.worker ==> k in s.live)
              && forall t :: t in s.stacks ==> StackAlive(s.stacks[t], s.live)
  {
    if AliveOk(s) {
      forall t, i | t in s.stacks && 0 <= i < |s.stacks[t]| && Subject(s.stacks[t][i]).Some?
        ensures Subject(s.stacks[t][i]).value in s.live
      {
        assert At(s.stacks, t, i);
      }
    }
  }

  lemma AliveAdvance(s: State, t: Tid, timeout: bool, due: seq<Rid>, s': State)
    requires AliveOk(s) && Active(s, t) && Advanced(s, t, timeout, due, s')
    ensures s'.live == s.live && StackAlive(s'.stacks[t], s.live) && forall k :: k in s'.worker ==> k in s.live
  {
    AliveStacks(s);
    var st, live := s.stacks[t], s.live;
    assert StackAlive(st, live);
    assert Subject(Top(s, t)).Some? ==> Subject(Top(s, t)).value in live;
    hide AliveOk, StackAlive, Advanced;
    AliveBelow(st, live);
    if IsPush(Top(s, t)) || IsExec(Top(s, t)) {
      AliveExec(s, t, timeout, due, s');
    } else {
      AliveCheck(s, t, timeout, due, s');
    }
  }

  lemma AliveBelow(st: seq<Frame>, live: set<Sid>)
    requires StackAlive(st, live) && st != []
    ensures StackAlive(Below(st), live)
  {
  }

  lemma AlivePush(st: seq<Frame>, live: set<Sid>, f: Frame)
    requires StackAlive(st, live) && (Subject(f).Some? ==> Subject(f).value in live)
    ensures StackAlive(st + [f], live)
  {
  }

  lemma AliveExec(s: State, t: Tid, timeout: bool, due: seq<Rid>, s': State)
    requires Active(s, t) && Advanced(s, t, timeout, due, s') && (IsPush(Top(s, t)) || IsExec(Top(s, t)))
    requires StackAlive(Below(s.stacks[t]), s.live) && Subject(Top(s, t)).value in s.live
    requires forall k :: k in s.worker ==> k in s.live
    ensures s'.live == s.live && StackAlive(s'.stacks[t], s.live) && forall k :: k in s'.worker ==> k in s.live
  {
    hide StackAlive;
    var rest := Below(s.stacks[t]);
    if s'.stacks[t] != rest {
      var g := Top(s', t);
      assert Subject(g) == Subject(Top(s, t));
      AlivePush(rest, s.live, g);
      assert s'.stacks[t] == rest + [g];
    }
  }

  lemma AliveCheck(s: State, t: Tid, timeout: bool, due: seq<Rid>, s': State)
    requires Active(s, t) && Advanced(s, t, timeout, due, s') && (Top(s, t) == Worker || IsCheck(Top(s, t)))
    requires StackAlive(Below(s.stacks[t]), s.live)
    requires forall k :: k in s.worker ==> k in s.live
    ensures s'.live == s.live && StackAlive(s'.stacks[t], s.live) && forall k :: k in s'.worker ==> k in s.live
  {
    hide StackAlive, Extraction;
    var rest := Below(s.stacks[t]);
    if s'.stacks[t] != rest {
      var g := s'.stacks[t][|rest|];
      AlivePush(rest, s.live, g);
      if |s'.stacks[t]| == |rest| + 1 {
        assert s'.stacks[t] == rest + [g];
      } else {
        var h := s'.stacks[t][|rest| + 1];
        AlivePush(rest + [g], s.live, h);
        assert s'.stacks[t] == rest + [g] + [h];
      }
    }
  }

  lemma AliveStep(s: State, step: Step, s': State)
    requires AliveOk(s) && Do(s, step, s')
    ensures AliveOk(s')
  {
    hide Advanced;
    match step
    case Advance(t, timeout, due) =>
      AliveStacks(s);
      AliveStacks(s');
      hide AliveOk;
      AliveAdvance(s, t, timeout, due, s');
      AdvanceMovesOne(s, t, timeout, due, s');
    case StartPush(t, k) => AliveCall(s, t, Top(s', t), s');
    case StartDoJobs(t) => AliveCall(s, t, Worker, s');
    case StartCheck(t, now) => AliveCall(s, t, CheckStart(now), s');
    case _ =>
  }

  lemma AliveCall(s: State, t: Tid, g: Frame, s': State)
    requires AliveOk(s) && OnlyMoves(s, t, s') && s'.stacks[t] == s.stacks[t] + [g]
    requires s'.live == s.live && s'.worker == s.worker && (Subject(g).Some? ==> Subject(g).value in s.live)
    ensures AliveOk(s')
  {
    AliveStacks(s);
    AliveStacks(s');
  }

  lemma {:induction false} AliveReachable(r: seq<State>, n: nat)
    requires Run(r) && n < |r|
    ensures AliveOk(r[n])
  {
    hide Do;
    if n > 0 {
      AliveReachable(r, n - 1);
      assert Next(r[n - 1], r[n - 1 + 1]);
      var step :| Do(r[n - 1], step, r[n]);
      AliveStep(r[n - 1], step, r[n]);
    }
  }

  /** Only a call that works on k changes k. */
  lemma UntouchedStep(s: State, step: Step, s': State, k: Sid)
    requires AliveOk(s) && Do(s, step, s') && k in s.sers && k !in s.live
    ensures k in s'.sers && k !in s'.live && s'.sers[k] == s.sers[k]
  {
    hide Advanced;
    if step.Advance? { UntouchedAdvance(s, step.t, step.timeout, step.due, s', k); }
  }

  lemma UntouchedAdvance(s: State, t: Tid, timeout: bool, due: seq<Rid>, s': State, k: Sid)
    requires AliveOk(s) && Active(s, t) && Advanced(s, t, timeout, due, s') && k in s.sers && k !in s.live
    ensures k in s'.sers && k !in s'.live && s'.sers[k] == s.sers[k]
  {
    hide Extraction, Replace, Pop, Push;
    assert At(s.stacks, t, |s.stacks[t]| - 1);
    assert Subject(Top(s, t)) != Some(k);
    hide AliveOk;
  }

  /** A destroyed serializer is never touched again: nothing is counted, enqueued or executed on it. */
  lemma {:induction false} DestroyedStaysUntouched(r: seq<State>, m: nat, n: nat, k: Sid)
    requires Run(r) && m <= n < |r| && k in r[m].sers && k !in r[m].live
    ensures k in r[n].sers && k !in r[n].live && r[n].sers[k] == r[m].sers[k]
    decreases n
  {
    hide Do, AliveOk;
    if m < n {
      DestroyedStaysUntouched(r, m, n - 1, k);
      AliveReachable(r, n - 1);
      assert Next(r[n - 1], r[n - 1 + 1]);
      var step :| Do(r[n - 1], step, r[n]);
      UntouchedStep(r[n - 1], step, r[n], k);
    }
  }

  // ---- The push test ------------------------------------------------------------------------------------------------

  lemma TestStep(s: State, step: Step, s': State)
    requires Do(s, step, s') && s'.timer.tests != s.timer.tests
    ensures step.Advance? && Active(s, step.t) && Top(s, step.t).CheckTest?
    ensures var f := Top(s, step.t);
            && f.i < |f.due| && f.due[f.i] < |s.timer.table|
            && exists pushed :: TestIs(s, step.t, f.now, f.due[f.i], pushed, s')
  {
    hide Advanced;
    if step.Advance? { TestAdvance(s, step.t, step.timeout, step.due, s'); }
  }

  /** The test of job a in state s: it is recorded, and a push of a to its owner is under way if it was let through. */
  ghost predicate TestIs(s: State, t: Tid, now: nat, a: Rid, pushed: bool, s': State)
    requires a < |s.timer.table| && Active(s, t)
  {
    var owner := s.timer.table[a].owner;
    && s'.timer.tests == s.timer.tests + [Test(a, now, owner, pushed)]
    && (pushed <==> a !in s.timer.canceled && owner in s.live)
    && Active(s', t)
    && |s'.stacks[t]| == |s.stacks[t]| + Bit(pushed)
    && (pushed ==> Top(s', t).PushStart? && Top(s', t).k == owner && Top(s', t).job.src == Reserved(a))
  }

  lemma TestAdvance(s: State, t: Tid, timeout: bool, due: seq<Rid>, s': State)
    requires Active(s, t) && Advanced(s, t, timeout, due, s') && s'.timer.tests != s.timer.tests
    ensures Top(s, t).CheckTest?
    ensures var f := Top(s, t);
            && f.i < |f.due| && f.due[f.i] < |s.timer.table|
            && exists pushed :: TestIs(s, t, f.now, f.due[f.i], pushed, s')
  {
    hide Extraction;
    if Top(s, t).CheckTest? {
      var f := Top(s, t);
      if f.i < |f.due| { assert TestIs(s, t, f.now, f.due[f.i], MayPush(s, f.due[f.i]), s'); }
    }
  }

  /** Over every run, a test lets a reserved job through exactly if, in the state of the test, the job is not cancelled
      and its owner is alive; and then, and only then, a push to the owner begins. */
  lemma LetThroughIff(r: seq<State>, n: nat) returns (t: Tid, now: nat, a: Rid, pushed: bool)
    requires Run(r) && n + 1 < |r| && r[n + 1].timer.tests != r[n].timer.tests
    ensures Active(r[n], t) && a < |r[n].timer.table| && TestIs(r[n], t, now, a, pushed, r[n + 1])
  {
    hide Do, TestIs;
    assert Next(r[n], r[n + 1]);
    var step :| Do(r[n], step, r[n + 1]);
    TestStep(r[n], step, r[n + 1]);
    t := step.t;
    now, a := Top(r[n], t).now, Top(r[n], t).due[Top(r[n], t).i];
    pushed :| TestIs(r[n], t, now, a, pushed, r[n + 1]);
  }
}
