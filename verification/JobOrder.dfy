/** Program order: the jobs one thread pushes are enqueued, and so run, in the order it pushed them,
    and no job is enqueued twice. */
module JobOrder {
  import opened JobModel
  import opened StackCount
  import JobOwnership

  /** A push whose job is not yet queued. */
  predicate Pending(f: Frame) {
    f.PushStart? || f.PushAnnounced?
  }

  ghost function Enqueued(s: State): map<Sid, seq<Job>> {
    map k | k in s.sers :: s.sers[k].enqueued
  }

  ghost function Pushes(s: State): map<Tid, nat> {
    map t | t in s.locals :: s.locals[t].pushes
  }

  /** How many pushes of thread t have reached a queue. */
  ghost function Settled(stacks: Stacks<Frame>, pushes: map<Tid, nat>, t: Tid): int
    requires t in pushes
  {
    pushes[t] - Bit(Nonempty(stacks, t) && Pending(TopOf(stacks, t)))
  }

  /** A pending push is the innermost call of its thread, and carries the thread's latest job. */
  ghost predicate PendingOk(stacks: Stacks<Frame>, pushes: map<Tid, nat>) {
    forall t, i :: At(stacks, t, i) && Pending(stacks[t][i]) ==>
      t in pushes && i == |stacks[t]| - 1 && stacks[t][i].job.pusher == t && stacks[t][i].job.n + 1 == pushes[t]
  }

  ghost predicate Issued(stacks: Stacks<Frame>, pushes: map<Tid, nat>, jobs: seq<Job>) {
    forall x :: 0 <= x < |jobs| ==> jobs[x].pusher in pushes && jobs[x].n < Settled(stacks, pushes, jobs[x].pusher)
  }

  ghost predicate InProgramOrder(jobs: seq<Job>) {
    forall x, y :: 0 <= x < y < |jobs| && jobs[x].pusher == jobs[y].pusher ==> jobs[x].n < jobs[y].n
  }

  ghost predicate Distinct(a: seq<Job>, b: seq<Job>) {
    forall x, y :: 0 <= x < |a| && 0 <= y < |b| ==> a[x].pusher != b[y].pusher || a[x].n != b[y].n
  }

  ghost predicate OrderOk(stacks: Stacks<Frame>, pushes: map<Tid, nat>, enq: map<Sid, seq<Job>>) {
    && PendingOk(stacks, pushes)
    && (forall k :: k in enq ==> Issued(stacks, pushes, enq[k]) && InProgramOrder(enq[k]))
    && forall k, k' :: k in enq && k' in enq && k != k' ==> Distinct(enq[k], enq[k'])
  }

  ghost predicate Inv(s: State) {
    OrderOk(s.stacks, Pushes(s), Enqueued(s))
  }

  // ---- Preservation ----------------------------------------------------------------------------------

  /** Stack changes that neither start nor settle a push. */
  lemma Steady(stacks: Stacks<Frame>, pushes: map<Tid, nat>, enq: map<Sid, seq<Job>>, t: Tid, f: Frame)
    requires OrderOk(stacks, pushes, enq) && t in stacks && !Pending(f)
    requires Nonempty(stacks, t) ==> !Pending(TopOf(stacks, t))
    ensures OrderOk(Push(stacks, t, f), pushes, enq)
    ensures Nonempty(stacks, t) ==> OrderOk(Replace(stacks, t, f), pushes, enq)
    ensures Nonempty(stacks, t) ==> OrderOk(Pop(stacks, t), pushes, enq)
  {
    SameSettled(stacks, Push(stacks, t, f), pushes, enq);
    if Nonempty(stacks, t) {
      SameSettled(stacks, Replace(stacks, t, f), pushes, enq);
      forall i | At(stacks, t, i) ensures !Pending(stacks[t][i]) {}
      SameSettled(stacks, Pop(stacks, t), pushes, enq);
    }
  }

  lemma SameSettled(stacks: Stacks<Frame>, stacks': Stacks<Frame>, pushes: map<Tid, nat>, enq: map<Sid, seq<Job>>)
    requires OrderOk(stacks, pushes, enq) && PendingOk(stacks', pushes)
    requires forall u :: u in pushes ==> Settled(stacks', pushes, u) == Settled(stacks, pushes, u)
    ensures OrderOk(stacks', pushes, enq)
  {
  }

  lemma Announce(stacks: Stacks<Frame>, pushes: map<Tid, nat>, enq: map<Sid, seq<Job>>, t: Tid, f: Frame)
    requires OrderOk(stacks, pushes, enq) && Nonempty(stacks, t)
    requires Pending(TopOf(stacks, t)) && Pending(f) && f.job == TopOf(stacks, t).job
    ensures OrderOk(Replace(stacks, t, f), pushes, enq)
  {
    SameSettled(stacks, Replace(stacks, t, f), pushes, enq);
  }

  lemma NewPush(stacks: Stacks<Frame>, pushes: map<Tid, nat>, enq: map<Sid, seq<Job>>, t: Tid, f: Frame)
    requires OrderOk(stacks, pushes, enq) && t in stacks && t in pushes
    requires Nonempty(stacks, t) ==> !Pending(TopOf(stacks, t))
    requires Pending(f) && f.job.pusher == t && f.job.n == pushes[t]
    ensures OrderOk(Push(stacks, t, f), pushes[t := pushes[t] + 1], enq)
  {
    var stacks', pushes' := Push(stacks, t, f), pushes[t := pushes[t] + 1];
    assert forall u :: u in pushes ==> Settled(stacks', pushes', u) == Settled(stacks, pushes, u);
    forall i | At(stacks, t, i) ensures !Pending(stacks[t][i]) {}
    assert PendingOk(stacks', pushes');
  }

  lemma Settle(stacks: Stacks<Frame>, pushes: map<Tid, nat>, enq: map<Sid, seq<Job>>, t: Tid, k: Sid, f: Frame)
    requires OrderOk(stacks, pushes, enq) && Nonempty(stacks, t) && k in enq
    requires Pending(TopOf(stacks, t)) && !Pending(f)
    ensures OrderOk(Replace(stacks, t, f), pushes, enq[k := enq[k] + [TopOf(stacks, t).job]])
  {
    var stacks' := Replace(stacks, t, f);
    var job := TopOf(stacks, t).job;
    assert At(stacks, t, |stacks[t]| - 1);
    assert job.pusher == t && job.n == Settled(stacks, pushes, t) && Settled(stacks', pushes, t) == job.n + 1;
    assert forall u :: u in pushes && u != t ==> Settled(stacks', pushes, u) == Settled(stacks, pushes, u);
    assert PendingOk(stacks', pushes);
    forall k' | k' in enq ensures Issued(stacks', pushes, enq[k']) && Issued(stacks', pushes, enq[k'] + [job]) {}
    forall k' | k' in enq && k' != k
      ensures Distinct(enq[k] + [job], enq[k']) && Distinct(enq[k'], enq[k] + [job])
    {
      assert Distinct(enq[k], enq[k']) && Distinct(enq[k'], enq[k]) && Issued(stacks, pushes, enq[k']);
    }
    assert InProgramOrder(enq[k] + [job]) by {
      assert Issued(stacks, pushes, enq[k]);
    }
  }

  /** A step on the top frame of t that neither starts nor settles a push. */
  lemma Moves(s: State, t: Tid, f: Frame, s': State)
    requires Inv(s) && Active(s, t) && !Pending(Top(s, t)) && !Pending(f)
    requires s'.stacks == Replace(s.stacks, t, f) || s'.stacks == Pop(s.stacks, t) || s'.stacks == Push(s.stacks, t, f)
    requires s'.sers.Keys == s.sers.Keys && forall k :: k in s.sers ==> s'.sers[k].enqueued == s.sers[k].enqueued
    requires s'.locals.Keys == s.locals.Keys && forall u :: u in s.locals ==> s'.locals[u].pushes == s.locals[u].pushes
    ensures Inv(s')
  {
    hide OrderOk, Replace, Pop, Push;
    Steady(s.stacks, Pushes(s), Enqueued(s), t, f);
    assert Enqueued(s') == Enqueued(s) && Pushes(s') == Pushes(s);
  }

  lemma AdvanceOrder(s: State, t: Tid, timeout: bool, due: seq<Rid>, s': State)
    requires Inv(s) && Active(s, t) && Advanced(s, t, timeout, due, s')
    ensures Inv(s')
  {
    hide Inv, Extraction, Replace, Pop, Push, FetchAdd, Enqueue, TestDue, CheckDone, TakeAll, StartJob, FetchSub;
    match Top(s, t)
    case PushStart(k, job) => FetchAddOrder(s, t, k, job);
    case PushAnnounced(k, job, prev) => EnqueueOrder(s, t, k, job, prev);
    case PushQueued(k, prev) => Moves(s, t, ExecBegin(k), s');
    case Worker => Moves(s, t, if s.worker == [] then Worker else ExecBegin(s.worker[0]), s');
    case CheckStart(now) => Moves(s, t, CheckLocked(now), s');
    case CheckLocked(now) => Moves(s, t, CheckTest(now, due, 0), s');
    case CheckTest(now, due', i) => TestOrder(s, t, now, due', i);
    case CheckFree(now, due', i) => Moves(s, t, CheckTest(now, due', i + 1), s');
    case _ => ExecOrder(s, t, timeout, due, s');
  }

  lemma FetchAddOrder(s: State, t: Tid, k: Sid, job: Job)
    requires Inv(s) && Active(s, t) && Top(s, t) == PushStart(k, job) && k in s.sers
    ensures Inv(FetchAdd(s, t, k, job))
  {
    hide OrderOk;
    Announce(s.stacks, Pushes(s), Enqueued(s), t, PushAnnounced(k, job, s.sers[k].count));
    assert Enqueued(FetchAdd(s, t, k, job)) == Enqueued(s);
  }

  lemma EnqueueOrder(s: State, t: Tid, k: Sid, job: Job, prev: int)
    requires Inv(s) && Active(s, t) && Top(s, t) == PushAnnounced(k, job, prev) && k in s.sers
    ensures Inv(Enqueue(s, t, k, job, prev))
  {
    hide OrderOk;
    var enq := Enqueued(s);
    Settle(s.stacks, Pushes(s), enq, t, k, PushQueued(k, prev));
    assert Enqueued(Enqueue(s, t, k, job, prev)) == enq[k := enq[k] + [job]];
  }

  lemma TestOrder(s: State, t: Tid, now: nat, due: seq<Rid>, i: nat)
    requires Inv(s) && Active(s, t) && Top(s, t) == CheckTest(now, due, i)
    requires i < |due| ==> due[i] < |s.timer.table|
    ensures Inv(if i < |due| then TestDue(s, t, now, due, i) else CheckDone(s, t))
  {
    hide OrderOk;
    var st, ps, enq, f := s.stacks, Pushes(s), Enqueued(s), CheckFree(now, due, i);
    Steady(st, ps, enq, t, f);
    if i < |due| && MayPush(s, due[i]) {
      var s' := TestDue(s, t, now, due, i);
      NewPush(Replace(st, t, f), ps, enq, t, Top(s', t));
      assert Pushes(s') == ps[t := ps[t] + 1];
    }
  }

  lemma ExecOrder(s: State, t: Tid, timeout: bool, due: seq<Rid>, s': State)
    requires Inv(s) && Active(s, t) && Advanced(s, t, timeout, due, s')
    requires var f := Top(s, t); f.ExecBegin? || f.ExecTake? || f.ExecRun? || f.ExecJob? || f.ExecDecide?
    ensures Inv(s')
  {
    hide Inv, Replace, Pop, Push;
    match Top(s, t)
    case ExecBegin(k) => Moves(s, t, ExecTake(k), s');
    case ExecTake(k) => Moves(s, t, ExecRun(k, s.sers[k].queue, 0), s');
    case ExecRun(k, batch, i) =>
      if i < |batch| { Moves(s, t, ExecJob(k, batch, i), s'); } else { Moves(s, t, ExecDecide(k), s'); }
    case ExecJob(k, batch, i) => Moves(s, t, ExecRun(k, batch, i + 1), s');
    case ExecDecide(k) => Moves(s, t, ExecTake(k), s');
  }

  lemma StepInv(s: State, step: Step, s': State)
    requires Inv(s) && Do(s, step, s')
    ensures Inv(s')
  {
    hide OrderOk, Advanced;
    var st, ps, enq := s.stacks, Pushes(s), Enqueued(s);
    match step
    case Advance(t, timeout, due) => AdvanceOrder(s, t, timeout, due, s');
    case StartPush(t, k) =>
      NewPush(st, ps, enq, t, PushStart(k, Job(t, ps[t], Direct)));
      assert Pushes(s') == ps[t := ps[t] + 1];
    case StartDoJobs(t) => Steady(st, ps, enq, t, Worker);
    case StartCheck(t, now) => Steady(st, ps, enq, t, CheckStart(now));
    case _ =>
  }

  lemma {:induction false} Reachable(r: seq<State>, n: nat)
    requires Run(r) && n < |r|
    ensures Inv(r[n])
  {
    if n > 0 {
      Reachable(r, n - 1);
      assert Next(r[n - 1], r[n - 1 + 1]);
      var step :| Do(r[n - 1], step, r[n]);
      StepInv(r[n - 1], step, r[n]);
    }
  }

  // ---- Main results -----------------------------------------------------------------------------------

  /** Two jobs of one thread on one serializer run in the order the thread pushed them. */
  lemma RunInProgramOrder(r: seq<State>, n: nat, k: Sid, x: nat, y: nat)
    requires Run(r) && n < |r| && k in r[n].sers
    requires x < y < |r[n].sers[k].ran| && r[n].sers[k].ran[x].pusher == r[n].sers[k].ran[y].pusher
    ensures r[n].sers[k].ran[x].n < r[n].sers[k].ran[y].n
  {
    hide JobOwnership.SerOk;
    Reachable(r, n);
    JobOwnership.Reachable(r, n);
    JobOwnership.RanIsPrefix(r[n], k);
    assert Enqueued(r[n])[k] == r[n].sers[k].enqueued;
  }

  /** Exactly once: no job is in two places of the sequences of executed jobs. */
  lemma NoJobRunsTwice(r: seq<State>, n: nat, k: Sid, x: nat, k': Sid, y: nat)
    requires Run(r) && n < |r| && k in r[n].sers && k' in r[n].sers
    requires x < |r[n].sers[k].ran| && y < |r[n].sers[k'].ran| && (k != k' || x != y)
    ensures r[n].sers[k].ran[x] != r[n].sers[k'].ran[y]
  {
    hide JobOwnership.SerOk;
    Reachable(r, n);
    JobOwnership.Reachable(r, n);
    JobOwnership.RanIsPrefix(r[n], k);
    JobOwnership.RanIsPrefix(r[n], k');
    var enq := Enqueued(r[n]);
    assert enq[k] == r[n].sers[k].enqueued && enq[k'] == r[n].sers[k'].enqueued;
    if k != k' {
      assert Distinct(enq[k], enq[k']);
    } else {
      assert InProgramOrder(enq[k]);
    }
  }
}
