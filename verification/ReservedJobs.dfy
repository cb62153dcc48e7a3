/** The timer queue on top of the serializers: `CheckReservedJob`, `PushJobToSerializer`, `Cancel`. */
module ReservedJobs {
  import opened JobModel
  import opened StackCount

  // ---- What a check takes out of the queue ------------------------------------------------------

  /** The loop of `CheckReservedJob` under the queue lock.  The priority queue is a set from which
      `top` gives some element of least tick. */
  method ExtractDue(table: seq<Reservation>, waiting: set<Rid>, now: nat) returns (due: seq<Rid>, rest: set<Rid>)
    requires forall r :: r in waiting ==> r < |table|
    ensures NoDup(due) && TickOrdered(table, due)
    ensures forall r :: r in due <==> r in waiting && table[r].tick <= now
    ensures rest == waiting - (set r | r in due)
  {
    due, rest := [], waiting;
    while rest != {}
      invariant rest <= waiting && NoDup(due) && TickOrdered(table, due)
      invariant forall r :: r in due <==> r in waiting && r !in rest
      invariant forall i :: 0 <= i < |due| ==> table[due[i]].tick <= now
      invariant forall i, r :: 0 <= i < |due| && r in rest ==> table[due[i]].tick <= table[r].tick
      decreases rest
    {
      ghost var least := LeastTick(table, rest);
      var top :| top in rest && forall r :: r in rest ==> table[top].tick <= table[r].tick;
      if table[top].tick > now { break; }
      assert forall i :: 0 <= i < |due| ==> due[i] in due;
      due := due + [top];
      rest := rest - {top};
    }
  }

  /** A nonempty priority queue has a top. */
  lemma LeastTick(table: seq<Reservation>, rs: set<Rid>) returns (m: Rid)
    requires rs != {} && forall r :: r in rs ==> r < |table|
    ensures m in rs && forall r :: r in rs ==> table[m].tick <= table[r].tick
    decreases rs
  {
    m :| m in rs;
    if rs != {m} {
      var m' := LeastTick(table, rs - {m});
      if table[m'].tick < table[m].tick { m := m'; }
    }
  }

  /** Every check can be given its due jobs in tick order. */
  lemma ExtractionExists(tm: Timer, now: nat) returns (due: seq<Rid>)
    requires forall r :: r in tm.waiting ==> r < |tm.table|
    ensures Extraction(tm, now, due)
    decreases tm.waiting
  {
    if tm.waiting == {} {
      due := [];
    } else {
      var m := LeastTick(tm.table, tm.waiting);
      if tm.table[m].tick > now {
        due := [];
      } else {
        var later := ExtractionExists(tm.(waiting := tm.waiting - {m}), now);
        assert forall i :: 0 <= i < |later| ==> later[i] in later;
        due := [m] + later;
      }
    }
  }

  // ---- The invariant of the timer -------------------------------------------------------------------

  /** A check that holds the `_executingReservables` flag. */
  function Checker(): Frame -> bool {
    (f: Frame) => f.CheckLocked? || f.CheckTest? || f.CheckFree?
  }

  function Ids(tests: seq<Test>): (ids: seq<Rid>)
    ensures |ids| == |tests| && forall i :: 0 <= i < |ids| ==> ids[i] == tests[i].rid
  {
    seq(|tests|, i requires 0 <= i < |tests| => tests[i].rid)
  }

  /** Every reservation is in exactly one place: waiting, in the hands of a check, or tested. */
  ghost predicate TestsOk(tm: Timer, live: set<Sid>) {
    && (forall r :: r in tm.waiting ==> r < |tm.table| && r !in tm.inHand && r !in Ids(tm.tests))
    && (forall r :: r in tm.inHand ==> r !in Ids(tm.tests))
    && (forall r :: 0 <= r < |tm.table| ==> r in tm.waiting || r in tm.inHand || r in Ids(tm.tests))
    && NoDup(tm.inHand) && TickOrdered(tm.table, tm.inHand)
    && NoDup(Ids(tm.tests))
    && forall i :: 0 <= i < |tm.tests| ==> TestOk(tm, live, tm.tests[i])
  }

  ghost predicate TestOk(tm: Timer, live: set<Sid>, x: Test) {
    && x.rid < |tm.table| && x.owner == tm.table[x.rid].owner && tm.table[x.rid].tick <= x.now
    && (!x.pushed ==> x.rid in tm.canceled || x.owner !in live)
  }

  ghost predicate Due(tm: Timer, now: nat) {
    forall i :: 0 <= i < |tm.inHand| ==> tm.inHand[i] < |tm.table| && tm.table[tm.inHand[i]].tick <= now
  }

  ghost predicate CheckOk(f: Frame, tm: Timer) {
    match f
    case CheckLocked(now) => tm.freed == Ids(tm.tests) && tm.inHand == []
    case CheckTest(now, due, i) =>
      tm.freed == Ids(tm.tests) && i <= |due| && tm.inHand == due[i..] && Due(tm, now)
    case CheckFree(now, due, i) =>
      i < |due| && tm.freed + [due[i]] == Ids(tm.tests) && tm.inHand == due[i + 1..] && Due(tm, now)
    case _ => true
  }

  ghost predicate TimerOk(stacks: Stacks<Frame>, tm: Timer, live: set<Sid>) {
    && TestsOk(tm, live)
    && Count(stacks, Checker()) == Bit(tm.busy)
    && (!tm.busy ==> tm.freed == Ids(tm.tests) && tm.inHand == [])
    && forall t, i :: At(stacks, t, i) && Checker()(stacks[t][i]) ==> CheckOk(stacks[t][i], tm)
  }

  // ---- Preservation -----------------------------------------------------------------------------------

  lemma SoleChecker(stacks: Stacks<Frame>, tm: Timer, live: set<Sid>, t: Tid, i: int)
    requires TimerOk(stacks, tm, live) && At(stacks, t, i) && Checker()(stacks[t][i])
    ensures tm.busy
    ensures forall u, j :: At(stacks, u, j) && Checker()(stacks[u][j]) ==> u == t && j == i
  {
    Occupied(stacks, t, i, Checker());
    forall u, j | At(stacks, u, j) && Checker()(stacks[u][j]) ensures u == t && j == i {
      Unique(stacks, Checker(), t, i, u, j);
    }
  }

  lemma Steady(stacks: Stacks<Frame>, tm: Timer, live: set<Sid>, t: Tid, f: Frame)
    requires TimerOk(stacks, tm, live) && t in stacks && !Checker()(f)
    ensures TimerOk(Push(stacks, t, f), tm, live)
    ensures Nonempty(stacks, t) && !Checker()(TopOf(stacks, t)) ==>
              TimerOk(Replace(stacks, t, f), tm, live) && TimerOk(Pop(stacks, t), tm, live)
  {
    hide CheckOk, TestsOk;
    Pushed(stacks, t, f, Checker());
    if Nonempty(stacks, t) {
      Replaced(stacks, t, f, Checker());
      Popped(stacks, t, Checker());
    }
  }

  /** The running check moves on: the timer may change with it, since no other check reads it. */
  lemma CheckMoves(stacks: Stacks<Frame>, tm: Timer, live: set<Sid>, t: Tid, f: Frame, tm': Timer)
    requires TimerOk(stacks, tm, live) && Nonempty(stacks, t) && Checker()(TopOf(stacks, t)) && Checker()(f)
    requires TestsOk(tm', live) && tm'.busy && CheckOk(f, tm')
    ensures TimerOk(Replace(stacks, t, f), tm', live)
  {
    hide CheckOk, TestsOk;
    var n := |stacks[t]| - 1;
    var stacks' := Replace(stacks, t, f);
    SoleChecker(stacks, tm, live, t, n);
    Replaced(stacks, t, f, Checker());
    assert forall u, j :: At(stacks', u, j) && (u != t || j != n) ==> At(stacks, u, j) && stacks[u][j] == stacks'[u][j];
  }

  lemma CheckEnters(stacks: Stacks<Frame>, tm: Timer, live: set<Sid>, t: Tid, now: nat)
    requires TimerOk(stacks, tm, live) && Nonempty(stacks, t) && TopOf(stacks, t) == CheckStart(now) && !tm.busy
    ensures TimerOk(Replace(stacks, t, CheckLocked(now)), tm.(busy := true), live)
  {
    var stacks' := Replace(stacks, t, CheckLocked(now));
    Replaced(stacks, t, CheckLocked(now), Checker());
    forall u, j | At(stacks', u, j) && Checker()(stacks'[u][j]) ensures CheckOk(stacks'[u][j], tm.(busy := true)) {
      if u != t || j != |stacks[t]| - 1 { Occupied(stacks, u, j, Checker()); }
    }
  }

  lemma CheckLeaves(stacks: Stacks<Frame>, tm: Timer, live: set<Sid>, t: Tid, now: nat, due: seq<Rid>, i: nat)
    requires TimerOk(stacks, tm, live) && Nonempty(stacks, t)
    requires TopOf(stacks, t) == CheckTest(now, due, i) && i >= |due|
    ensures TimerOk(Pop(stacks, t), tm.(busy := false), live)
  {
    var n := |stacks[t]| - 1;
    var stacks' := Pop(stacks, t);
    assert At(stacks, t, n) && Checker()(stacks[t][n]);
    SoleChecker(stacks, tm, live, t, n);
    Popped(stacks, t, Checker());
    assert CheckOk(TopOf(stacks, t), tm);
    assert forall u, j :: At(stacks', u, j) ==> At(stacks, u, j) && stacks[u][j] == stacks'[u][j];
  }

  lemma ExtractOk(tm: Timer, live: set<Sid>, now: nat, due: seq<Rid>)
    requires TestsOk(tm, live) && CheckOk(CheckLocked(now), tm) && Extraction(tm, now, due)
    ensures var tm' := tm.(waiting := tm.waiting - (set r | r in due), inHand := due);
            TestsOk(tm', live) && CheckOk(CheckTest(now, due, 0), tm')
  {
    var tm' := tm.(waiting := tm.waiting - (set r | r in due), inHand := due);
    assert due[0..] == due;
    assert forall x :: 0 <= x < |due| ==> due[x] in due;
    forall y | 0 <= y < |tm'.tests| ensures TestOk(tm', live, tm'.tests[y]) {
      assert TestOk(tm, live, tm.tests[y]);
    }
  }

  lemma TestOkStep(tm: Timer, live: set<Sid>, now: nat, due: seq<Rid>, i: nat, ok: bool)
    requires TestsOk(tm, live) && CheckOk(CheckTest(now, due, i), tm) && i < |due| && due[i] < |tm.table|
    requires !ok ==> due[i] in tm.canceled || tm.table[due[i]].owner !in live
    ensures var tm' := tm.(inHand := due[i + 1..], tests := tm.tests + [Test(due[i], now, tm.table[due[i]].owner, ok)]);
            TestsOk(tm', live) && CheckOk(CheckFree(now, due, i), tm')
  {
    hide TestsOk;
    var x := Test(due[i], now, tm.table[due[i]].owner, ok);
    var rest := due[i + 1..];
    assert tm.inHand == [x.rid] + rest;
    assert Ids(tm.tests + [x]) == Ids(tm.tests) + [x.rid];
    HeadTested(tm, live, x, rest);
    assert forall j :: 0 <= j < |rest| ==> rest[j] == tm.inHand[j + 1];
  }

  lemma HeadTested(tm: Timer, live: set<Sid>, x: Test, rest: seq<Rid>)
    requires TestsOk(tm, live) && tm.inHand == [x.rid] + rest && TestOk(tm, live, x)
    ensures TestsOk(tm.(inHand := rest, tests := tm.tests + [x]), live)
  {
    var tm' := tm.(inHand := rest, tests := tm.tests + [x]);
    var ids, ids' := Ids(tm.tests), Ids(tm'.tests);
    assert ids' == ids + [x.rid];
    assert x.rid !in rest by {
      assert forall j :: 0 <= j < |rest| ==> rest[j] == tm.inHand[j + 1] && tm.inHand[0] != tm.inHand[j + 1];
    }
    assert forall r :: r in tm.inHand <==> r == x.rid || r in rest;
    assert forall r :: r in ids' <==> r == x.rid || r in ids;
    assert NoDup(rest) && TickOrdered(tm.table, rest) by {
      assert forall j :: 0 <= j < |rest| ==> rest[j] == tm.inHand[j + 1];
    }
    assert NoDup(ids') by {
      assert x.rid in tm.inHand;
      assert forall j :: 0 <= j < |ids| ==> ids[j] in ids;
    }
    forall y | 0 <= y < |tm'.tests| ensures TestOk(tm', live, tm'.tests[y]) {
      assert y < |tm.tests| ==> TestOk(tm, live, tm.tests[y]);
    }
  }

  lemma FreeOk(tm: Timer, live: set<Sid>, now: nat, due: seq<Rid>, i: nat)
    requires TestsOk(tm, live) && CheckOk(CheckFree(now, due, i), tm)
    ensures var tm' := tm.(freed := tm.freed + [due[i]]);
            TestsOk(tm', live) && CheckOk(CheckTest(now, due, i + 1), tm')
  {
    var tm' := tm.(freed := tm.freed + [due[i]]);
    forall y | 0 <= y < |tm'.tests| ensures TestOk(tm', live, tm'.tests[y]) {
      assert TestOk(tm, live, tm.tests[y]);
    }
  }

  // ---- Reserved jobs that reach a queue ----------------------------------------------------------------

  /** A push of a reserved job to k that is not yet queued. */
  function TimerPush(k: Sid): Frame -> bool {
    (f: Frame) => (f.PushStart? || f.PushAnnounced?) && f.k == k && f.job.src.Reserved?
  }

  /** The reservations that f finds in xs, in order. */
  function Collect<A>(xs: seq<A>, f: A -> Option<Rid>): seq<Rid> {
    if xs == [] then []
    else
      var x := f(xs[|xs| - 1]);
      Collect(xs[..|xs| - 1], f) + if x.Some? then [x.value] else []
  }

  function ReservationOf(job: Job): Option<Rid> {
    match job.src
    case Direct => None
    case Reserved(r) => Some(r)
  }

  /** The reserved jobs among `jobs`, in order. */
  function ReservedOf(jobs: seq<Job>): seq<Rid> {
    Collect(jobs, ReservationOf)
  }

  function PushTo(k: Sid): Test -> Option<Rid> {
    (x: Test) => if x.pushed && x.owner == k then Some(x.rid) else None
  }

  /** The reservations whose test ended in a push to k, in test order. */
  function PushedTo(tests: seq<Test>, k: Sid): seq<Rid> {
    Collect(tests, PushTo(k))
  }

  /** A reserved job on its way to k: its check waits just below it on the same stack. */
  ghost predicate OnItsWay(stacks: Stacks<Frame>, t: Tid, i: int)
    requires At(stacks, t, i) && (stacks[t][i].PushStart? || stacks[t][i].PushAnnounced?)
  {
    && stacks[t][i].job.src.Reserved?
    && i > 0 && stacks[t][i - 1].CheckFree? && stacks[t][i - 1].i < |stacks[t][i - 1].due|
    && stacks[t][i - 1].due[stacks[t][i - 1].i] == stacks[t][i].job.src.rid
  }

  /** The reserved jobs enqueued on k, then the one on its way, are those the tests let through. */
  ghost predicate LinkOk(stacks: Stacks<Frame>, tests: seq<Test>, jobs: seq<Job>, k: Sid) {
    && (forall t, i :: At(stacks, t, i) && TimerPush(k)(stacks[t][i]) ==>
          OnItsWay(stacks, t, i) && ReservedOf(jobs) + [stacks[t][i].job.src.rid] == PushedTo(tests, k))
    && ((forall t, i :: At(stacks, t, i) ==> !TimerPush(k)(stacks[t][i])) ==> ReservedOf(jobs) == PushedTo(tests, k))
  }

  ghost predicate LinksOk(s: State) {
    forall k :: k in s.sers ==> LinkOk(s.stacks, s.timer.tests, s.sers[k].enqueued, k)
  }

  /** Stack changes that involve no push of a reserved job to k. */
  lemma LinkSteady(stacks: Stacks<Frame>, tests: seq<Test>, jobs: seq<Job>, k: Sid, t: Tid, f: Frame)
    requires LinkOk(stacks, tests, jobs, k) && Nonempty(stacks, t) && !TimerPush(k)(f)
    requires !TimerPush(k)(TopOf(stacks, t))
    ensures LinkOk(Replace(stacks, t, f), tests, jobs, k) && LinkOk(Pop(stacks, t), tests, jobs, k)
  {
    hide LinkOk, TimerPush;
    LinkFrame(stacks, Replace(stacks, t, f), tests, jobs, k);
    LinkFrame(stacks, Pop(stacks, t), tests, jobs, k);
  }

  lemma LinkCall(stacks: Stacks<Frame>, tests: seq<Test>, jobs: seq<Job>, k: Sid, t: Tid, f: Frame)
    requires LinkOk(stacks, tests, jobs, k) && t in stacks && !TimerPush(k)(f)
    ensures LinkOk(Push(stacks, t, f), tests, jobs, k)
  {
    hide LinkOk, TimerPush;
    LinkFrame(stacks, Push(stacks, t, f), tests, jobs, k);
  }

  lemma LinkFrame(stacks: Stacks<Frame>, stacks': Stacks<Frame>, tests: seq<Test>, jobs: seq<Job>, k: Sid)
    requires LinkOk(stacks, tests, jobs, k)
    requires forall t, i :: At(stacks', t, i) && TimerPush(k)(stacks'[t][i]) ==>
               At(stacks, t, i) && stacks[t][i] == stacks'[t][i] && (i > 0 ==> stacks[t][i - 1] == stacks'[t][i - 1])
    requires forall t, i :: At(stacks, t, i) && TimerPush(k)(stacks[t][i]) ==>
               At(stacks', t, i) && stacks[t][i] == stacks'[t][i]
    ensures LinkOk(stacks', tests, jobs, k)
  {
    hide ReservedOf, PushedTo;
  }

  lemma LinkAnnounce(stacks: Stacks<Frame>, tests: seq<Test>, jobs: seq<Job>, k: Sid, t: Tid, f: Frame)
    requires LinkOk(stacks, tests, jobs, k) && Nonempty(stacks, t)
    requires TopOf(stacks, t).PushStart? && f.PushAnnounced?
    requires f.k == TopOf(stacks, t).k && f.job == TopOf(stacks, t).job
    ensures LinkOk(Replace(stacks, t, f), tests, jobs, k)
  {
    hide ReservedOf, PushedTo;
    var stacks' := Replace(stacks, t, f);
    var n := |stacks[t]| - 1;
    if TimerPush(k)(f) { assert At(stacks', t, n) && At(stacks, t, n); }
    forall u, i | At(stacks', u, i) && TimerPush(k)(stacks'[u][i])
      ensures OnItsWay(stacks', u, i) && ReservedOf(jobs) + [stacks'[u][i].job.src.rid] == PushedTo(tests, k)
    {
      assert At(stacks, u, i) && TimerPush(k)(stacks[u][i]);
    }
    if forall u, i :: At(stacks', u, i) ==> !TimerPush(k)(stacks'[u][i]) {
      forall u, i | At(stacks, u, i) ensures !TimerPush(k)(stacks[u][i]) {
        assert At(stacks', u, i);
      }
    }
  }

  /** At most one reserved job is on its way, in the thread of the only running check. */
  lemma SoleTimerPush(stacks: Stacks<Frame>, tm: Timer, live: set<Sid>, t: Tid, i: int, u: Tid, j: int)
    requires TimerOk(stacks, tm, live) && At(stacks, t, i) && At(stacks, u, j)
    requires (stacks[t][i].PushStart? || stacks[t][i].PushAnnounced?) && OnItsWay(stacks, t, i)
    requires (stacks[u][j].PushStart? || stacks[u][j].PushAnnounced?) && OnItsWay(stacks, u, j)
    ensures t == u && i == j
  {
    SoleChecker(stacks, tm, live, t, i - 1);
    assert At(stacks, u, j - 1) && Checker()(stacks[u][j - 1]);
  }

  lemma LinkEnqueue(stacks: Stacks<Frame>, tm: Timer, live: set<Sid>, jobs: seq<Job>, k: Sid, t: Tid, job: Job,
                    prev: int)
    requires LinkOk(stacks, tm.tests, jobs, k) && TimerOk(stacks, tm, live)
    requires Nonempty(stacks, t) && TopOf(stacks, t) == PushAnnounced(k, job, prev)
    ensures LinkOk(Replace(stacks, t, PushQueued(k, prev)), tm.tests, jobs + [job], k)
  {
    hide TimerOk, PushedTo;
    var stacks' := Replace(stacks, t, PushQueued(k, prev));
    var n := |stacks[t]| - 1;
    assert (jobs + [job])[..|jobs|] == jobs;
    if job.src == Direct {
      LinkSteady(stacks, tm.tests, jobs, k, t, PushQueued(k, prev));
    } else {
      assert At(stacks, t, n) && TimerPush(k)(stacks[t][n]) && OnItsWay(stacks, t, n);
      forall u, j | At(stacks', u, j) ensures !TimerPush(k)(stacks'[u][j]) {
        if (u != t || j != n) && TimerPush(k)(stacks'[u][j]) {
          assert At(stacks, u, j) && TimerPush(k)(stacks[u][j]);
          SoleTimerPush(stacks, tm, live, t, n, u, j);
        }
      }
    }
  }

  /** While the only running check is at its test, no reserved job is on its way. */
  lemma NoneOnItsWay(stacks: Stacks<Frame>, tm: Timer, live: set<Sid>, jobs: seq<Job>, k: Sid, t: Tid)
    requires LinkOk(stacks, tm.tests, jobs, k) && TimerOk(stacks, tm, live)
    requires Nonempty(stacks, t) && TopOf(stacks, t).CheckTest?
    ensures forall u, j :: At(stacks, u, j) ==> !TimerPush(k)(stacks[u][j])
    ensures ReservedOf(jobs) == PushedTo(tm.tests, k)
  {
    hide TimerOk, PushedTo, ReservedOf;
    forall u, j | At(stacks, u, j) ensures !TimerPush(k)(stacks[u][j]) {
      if TimerPush(k)(stacks[u][j]) {
        assert At(stacks, u, j - 1) && Checker()(stacks[u][j - 1]);
        SoleChecker(stacks, tm, live, t, |stacks[t]| - 1);
      }
    }
  }

  lemma LinkTest(stacks: Stacks<Frame>, tm: Timer, live: set<Sid>, jobs: seq<Job>, k: Sid, t: Tid, f: Frame, x: Test)
    requires LinkOk(stacks, tm.tests, jobs, k) && TimerOk(stacks, tm, live)
    requires Nonempty(stacks, t) && TopOf(stacks, t).CheckTest? && f.CheckFree? && (x.pushed ==> x.owner != k)
    ensures LinkOk(Replace(stacks, t, f), tm.tests + [x], jobs, k)
  {
    hide TimerOk, ReservedOf;
    assert (tm.tests + [x])[..|tm.tests|] == tm.tests;
    assert PushedTo(tm.tests + [x], k) == PushedTo(tm.tests, k);
    NoneOnItsWay(stacks, tm, live, jobs, k, t);
    LinkSteady(stacks, tm.tests, jobs, k, t, f);
  }

  lemma LinkPush(stacks: Stacks<Frame>, tm: Timer, live: set<Sid>, jobs: seq<Job>, k: Sid, t: Tid, f: Frame, x: Test,
                 p: Frame)
    requires LinkOk(stacks, tm.tests, jobs, k) && TimerOk(stacks, tm, live)
    requires Nonempty(stacks, t) && TopOf(stacks, t).CheckTest?
    requires f.CheckFree? && f.i < |f.due| && f.due[f.i] == x.rid && x.pushed && x.owner == k
    requires p.PushStart? && p.k == k && p.job.src == Reserved(x.rid)
    ensures LinkOk(Push(Replace(stacks, t, f), t, p), tm.tests + [x], jobs, k)
  {
    hide TimerOk, ReservedOf;
    var n := |stacks[t]|;
    var stacks' := Push(Replace(stacks, t, f), t, p);
    assert (tm.tests + [x])[..|tm.tests|] == tm.tests;
    assert PushedTo(tm.tests + [x], k) == PushedTo(tm.tests, k) + [x.rid];
    NoneOnItsWay(stacks, tm, live, jobs, k, t);
    assert forall u: Tid, j :: At(stacks', u, j) && TimerPush(k)(stacks'[u][j]) ==> u == t && j == n;
    assert At(stacks', t, n) && TimerPush(k)(stacks'[t][n]);
  }

  // ---- Steps ------------------------------------------------------------------------------------------

  ghost predicate Inv(s: State) {
    TimerOk(s.stacks, s.timer, s.live) && LinksOk(s)
  }

  /** A step that leaves the timer and the enqueued jobs alone and moves no frame of interest. */
  predicate Plain(f: Frame) {
    || f.PushQueued? || f.ExecBegin? || f.ExecTake? || f.ExecRun? || f.ExecJob? || f.ExecDecide?
    || f.Worker? || f.CheckStart?
  }

  ghost predicate SameEnqueued(s: State, s': State) {
    s'.sers.Keys == s.sers.Keys && forall k :: k in s.sers ==> s'.sers[k].enqueued == s.sers[k].enqueued
  }

  lemma PlainStep(s: State, t: Tid, f: Frame, s': State)
    requires Inv(s) && Active(s, t) && Plain(Top(s, t)) && Plain(f)
    requires s'.stacks == Replace(s.stacks, t, f) || s'.stacks == Pop(s.stacks, t)
    requires s'.timer == s.timer && s'.live == s.live && SameEnqueued(s, s')
    ensures Inv(s')
  {
    hide TimerOk, LinkOk;
    Steady(s.stacks, s.timer, s.live, t, f);
    forall k | k in s'.sers ensures LinkOk(s'.stacks, s'.timer.tests, s'.sers[k].enqueued, k) {
      LinkSteady(s.stacks, s.timer.tests, s.sers[k].enqueued, k, t, f);
    }
  }

  lemma PlainCall(s: State, t: Tid, f: Frame, s': State)
    requires Inv(s) && IsThread(s, t) && (Plain(f) || (f.PushStart? && f.job.src == Direct))
    requires s'.stacks == Push(s.stacks, t, f) && s'.timer == s.timer && s'.live == s.live && s'.sers == s.sers
    ensures Inv(s')
  {
    hide TimerOk, LinkOk;
    Steady(s.stacks, s.timer, s.live, t, f);
    forall k | k in s'.sers ensures LinkOk(s'.stacks, s'.timer.tests, s'.sers[k].enqueued, k) {
      LinkCall(s.stacks, s.timer.tests, s.sers[k].enqueued, k, t, f);
    }
  }

  lemma FetchAddStep(s: State, t: Tid, k: Sid, job: Job)
    requires Inv(s) && Active(s, t) && Top(s, t) == PushStart(k, job) && k in s.sers
    ensures Inv(FetchAdd(s, t, k, job))
  {
    hide TimerOk, LinkOk;
    var f := PushAnnounced(k, job, s.sers[k].count);
    var s' := FetchAdd(s, t, k, job);
    Steady(s.stacks, s.timer, s.live, t, f);
    forall k' | k' in s'.sers ensures LinkOk(s'.stacks, s'.timer.tests, s'.sers[k'].enqueued, k') {
      LinkAnnounce(s.stacks, s.timer.tests, s.sers[k'].enqueued, k', t, f);
    }
  }

  lemma EnqueueStep(s: State, t: Tid, k: Sid, job: Job, prev: int)
    requires Inv(s) && Active(s, t) && Top(s, t) == PushAnnounced(k, job, prev) && k in s.sers
    ensures Inv(Enqueue(s, t, k, job, prev))
  {
    hide TimerOk, LinkOk;
    var s' := Enqueue(s, t, k, job, prev);
    Steady(s.stacks, s.timer, s.live, t, PushQueued(k, prev));
    forall k' | k' in s'.sers ensures LinkOk(s'.stacks, s'.timer.tests, s'.sers[k'].enqueued, k') {
      if k' == k { LinkEnqueue(s.stacks, s.timer, s.live, s.sers[k].enqueued, k, t, job, prev); }
      else { LinkSteady(s.stacks, s.timer.tests, s.sers[k'].enqueued, k', t, PushQueued(k, prev)); }
    }
  }

  /** A check moves on without pushing anything. */
  lemma CheckStep(s: State, t: Tid, f: Frame, tm': Timer)
    requires Inv(s) && Active(s, t) && Checker()(Top(s, t)) && Checker()(f)
    requires TestsOk(tm', s.live) && tm'.busy && CheckOk(f, tm') && tm'.tests == s.timer.tests
    ensures Inv(SetTop(s, t, f).(timer := tm'))
  {
    hide TimerOk, LinkOk, TestsOk, CheckOk;
    CheckMoves(s.stacks, s.timer, s.live, t, f, tm');
    forall k | k in s.sers ensures LinkOk(Replace(s.stacks, t, f), tm'.tests, s.sers[k].enqueued, k) {
      LinkSteady(s.stacks, s.timer.tests, s.sers[k].enqueued, k, t, f);
    }
  }

  lemma EnterStep(s: State, t: Tid, now: nat)
    requires Inv(s) && Active(s, t) && Top(s, t) == CheckStart(now)
    ensures Inv(Exchange(s, t, now))
  {
    hide TimerOk, LinkOk;
    var s' := Exchange(s, t, now);
    if s.timer.busy { Steady(s.stacks, s.timer, s.live, t, Worker); }
    else { CheckEnters(s.stacks, s.timer, s.live, t, now); }
    forall k | k in s.sers ensures LinkOk(s'.stacks, s.timer.tests, s.sers[k].enqueued, k) {
      LinkSteady(s.stacks, s.timer.tests, s.sers[k].enqueued, k, t, CheckLocked(now));
    }
  }

  lemma LeaveStep(s: State, t: Tid, now: nat, due: seq<Rid>, i: nat)
    requires Inv(s) && Active(s, t) && Top(s, t) == CheckTest(now, due, i) && i >= |due|
    ensures Inv(CheckDone(s, t))
  {
    hide TimerOk, LinkOk;
    CheckLeaves(s.stacks, s.timer, s.live, t, now, due, i);
    forall k | k in s.sers ensures LinkOk(Pop(s.stacks, t), s.timer.tests, s.sers[k].enqueued, k) {
      LinkSteady(s.stacks, s.timer.tests, s.sers[k].enqueued, k, t, Worker);
    }
  }

  lemma TopCheckOk(s: State, t: Tid)
    requires Inv(s) && Active(s, t) && Checker()(Top(s, t))
    ensures CheckOk(Top(s, t), s.timer) && TestsOk(s.timer, s.live) && s.timer.busy
  {
    hide CheckOk, TestsOk, LinkOk;
    SoleChecker(s.stacks, s.timer, s.live, t, |s.stacks[t]| - 1);
    assert At(s.stacks, t, |s.stacks[t]| - 1);
  }

  lemma TestStep(s: State, t: Tid, now: nat, due: seq<Rid>, i: nat)
    requires Inv(s) && Active(s, t) && Top(s, t) == CheckTest(now, due, i) && i < |due| && due[i] < |s.timer.table|
    ensures Inv(TestDue(s, t, now, due, i))
  {
    hide TimerOk, LinkOk, TestsOk, CheckOk;
    TopCheckOk(s, t);
    var ok := MayPush(s, due[i]);
    var x := Test(due[i], now, s.timer.table[due[i]].owner, ok);
    var tm' := s.timer.(inHand := due[i + 1..], tests := s.timer.tests + [x]);
    var f := CheckFree(now, due, i);
    TestOkStep(s.timer, s.live, now, due, i, ok);
    CheckMoves(s.stacks, s.timer, s.live, t, f, tm');
    if ok {
      var p := PushStart(x.owner, Job(t, s.locals[t].pushes, Reserved(x.rid)));
      Steady(Replace(s.stacks, t, f), tm', s.live, t, p);
      forall k | k in s.sers ensures LinkOk(Push(Replace(s.stacks, t, f), t, p), tm'.tests, s.sers[k].enqueued, k) {
        if k == x.owner {
          LinkPush(s.stacks, s.timer, s.live, s.sers[k].enqueued, k, t, f, x, p);
        } else {
          LinkTest(s.stacks, s.timer, s.live, s.sers[k].enqueued, k, t, f, x);
          LinkCall(Replace(s.stacks, t, f), tm'.tests, s.sers[k].enqueued, k, t, p);
        }
      }
    } else {
      forall k | k in s.sers ensures LinkOk(Replace(s.stacks, t, f), tm'.tests, s.sers[k].enqueued, k) {
        LinkTest(s.stacks, s.timer, s.live, s.sers[k].enqueued, k, t, f, x);
      }
    }
  }

  lemma AdvanceStep(s: State, t: Tid, timeout: bool, due: seq<Rid>, s': State)
    requires Inv(s) && Active(s, t) && Advanced(s, t, timeout, due, s')
    ensures Inv(s')
  {
    hide TimerOk, LinkOk, TestsOk, CheckOk, Replace, Pop, Push, Extraction,
      FetchAdd, Enqueue, TestDue, CheckDone, Exchange;
    match Top(s, t)
    case PushStart(k, job) => FetchAddStep(s, t, k, job);
    case PushAnnounced(k, job, prev) => EnqueueStep(s, t, k, job, prev);
    case CheckStart(now) => EnterStep(s, t, now);
    case CheckLocked(now) =>
      TopCheckOk(s, t);
      ExtractOk(s.timer, s.live, now, due);
      CheckStep(s, t, CheckTest(now, due, 0), s'.timer);
    case CheckTest(now, due', i) =>
      if i < |due'| { TestStep(s, t, now, due', i); } else { LeaveStep(s, t, now, due', i); }
    case CheckFree(now, due', i) =>
      TopCheckOk(s, t);
      FreeOk(s.timer, s.live, now, due', i);
      CheckStep(s, t, CheckTest(now, due', i + 1), s'.timer);
    case Worker =>
      if timeout || s.worker == [] {
        PlainStep(s, t, Worker, s');
      } else {
        PlainCall(s, t, ExecBegin(s.worker[0]), s');
      }
    case _ => ExecStep(s, t, timeout, due, s');
  }

  lemma ExecStep(s: State, t: Tid, timeout: bool, due: seq<Rid>, s': State)
    requires Inv(s) && Active(s, t) && Advanced(s, t, timeout, due, s')
    requires Plain(Top(s, t)) && !Top(s, t).Worker? && !Top(s, t).CheckStart?
    ensures Inv(s')
  {
    hide TimerOk, LinkOk, Replace, Pop, Push;
    match Top(s, t)
    case PushQueued(k, prev) => PlainStep(s, t, ExecBegin(k), s');
    case ExecBegin(k) => PlainStep(s, t, ExecTake(k), s');
    case ExecTake(k) => PlainStep(s, t, ExecRun(k, s.sers[k].queue, 0), s');
    case ExecRun(k, batch, i) =>
      if i < |batch| { PlainStep(s, t, ExecJob(k, batch, i), s'); } else { PlainStep(s, t, ExecDecide(k), s'); }
    case ExecJob(k, batch, i) => PlainStep(s, t, ExecRun(k, batch, i + 1), s');
    case ExecDecide(k) => PlainStep(s, t, ExecTake(k), s');
  }

  /** A new reservation, a cancellation and a destruction keep what the timer promises. */
  lemma EnvironmentStep(s: State, tm': Timer, live': set<Sid>)
    requires Inv(s) && live' <= s.live
    requires tm' == s.timer.(canceled := tm'.canceled) && s.timer.canceled <= tm'.canceled
    ensures Inv(s.(timer := tm', live := live'))
  {
    hide LinkOk;
    forall i | 0 <= i < |tm'.tests| ensures TestOk(tm', live', tm'.tests[i]) {
      assert TestOk(s.timer, s.live, s.timer.tests[i]);
    }
    forall t, i | At(s.stacks, t, i) && Checker()(s.stacks[t][i]) ensures CheckOk(s.stacks[t][i], tm') {
      assert CheckOk(s.stacks[t][i], s.timer);
    }
  }

  lemma ReserveStep(s: State, x: Reservation)
    requires Inv(s)
    ensures Inv(s.(timer := s.timer.(table := s.timer.table + [x], waiting := s.timer.waiting + {|s.timer.table|})))
  {
    hide LinkOk, TimerOk;
    ReserveOk(s.stacks, s.timer, s.live, x);
  }

  lemma ReserveOk(stacks: Stacks<Frame>, tm: Timer, live: set<Sid>, x: Reservation)
    requires TimerOk(stacks, tm, live)
    ensures TimerOk(stacks, tm.(table := tm.table + [x], waiting := tm.waiting + {|tm.table|}), live)
  {
    var tm' := tm.(table := tm.table + [x], waiting := tm.waiting + {|tm.table|});
    forall i | 0 <= i < |tm.tests| ensures TestOk(tm', live, tm.tests[i]) {
      assert TestOk(tm, live, tm.tests[i]);
    }
    assert Due(tm, 0) ==> Due(tm', 0);
    forall t, i | At(stacks, t, i) && Checker()(stacks[t][i]) ensures CheckOk(stacks[t][i], tm') {
      assert CheckOk(stacks[t][i], tm);
    }
  }

  lemma StepInv(s: State, step: Step, s': State)
    requires Inv(s) && Do(s, step, s')
    ensures Inv(s')
  {
    hide TimerOk, LinkOk, Advanced, Push;
    match step
    case Advance(t, timeout, due) => AdvanceStep(s, t, timeout, due, s');
    case StartPush(t, k) => PlainCall(s, t, PushStart(k, Job(t, s.locals[t].pushes, Direct)), s');
    case StartDoJobs(t) => PlainCall(s, t, Worker, s');
    case StartCheck(t, now) => PlainCall(s, t, CheckStart(now), s');
    case Reserve(t, k, tick) => ReserveStep(s, Reservation(tick, k));
    case Cancel(r) => EnvironmentStep(s, s'.timer, s.live);
    case Destroy(k) => EnvironmentStep(s, s.timer, s'.live);
  }

  lemma Initially(s: State)
    requires Init(s)
    ensures Inv(s)
  {
    hide TimerOk, LinkOk;
    assert forall t, i :: !At(s.stacks, t, i);
    IdleTimer(s.stacks, s.live);
    forall k | k in s.sers ensures LinkOk(s.stacks, s.timer.tests, s.sers[k].enqueued, k) {
      IdleLink(s.stacks, k);
    }
  }

  lemma IdleTimer(stacks: Stacks<Frame>, live: set<Sid>)
    requires forall t, i :: !At(stacks, t, i)
    ensures TimerOk(stacks, Timer([], {}, [], false, {}, [], []), live)
  {
    hide CheckOk;
    Unoccupied(stacks, Checker());
    assert Ids([]) == [];
  }

  lemma IdleLink(stacks: Stacks<Frame>, k: Sid)
    requires forall t, i :: !At(stacks, t, i)
    ensures LinkOk(stacks, [], [], k)
  {
  }

  lemma {:induction false} Reachable(r: seq<State>, n: nat)
    requires Run(r) && n < |r|
    ensures Inv(r[n])
  {
    hide Inv, Init, Do;
    if n == 0 {
      Initially(r[0]);
    } else {
      Reachable(r, n - 1);
      assert Next(r[n - 1], r[n - 1 + 1]);
      var step :| Do(r[n - 1], step, r[n]);
      StepInv(r[n - 1], step, r[n]);
    }
  }
}
