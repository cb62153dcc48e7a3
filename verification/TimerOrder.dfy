/** What the timer promises over whole runs: reserved jobs are pushed at most once, never early, never
    after an effective cancellation, and in tick order. */
module TimerOrder {
  import opened JobModel
  import opened StackCount
  import opened ReservedJobs
  import JobOwnership

  // ---- Collecting keeps order -----------------------------------------------------------------------

  lemma {:induction false} Collected<A>(xs: seq<A>, f: A -> Option<Rid>, x: nat, y: nat) returns (i: nat, j: nat)
    requires x < y < |xs| && f(xs[x]).Some? && f(xs[y]).Some?
    ensures i < j < |Collect(xs, f)| && Collect(xs, f)[i] == f(xs[x]).value && Collect(xs, f)[j] == f(xs[y]).value
    decreases |xs|
  {
    var init := xs[..|xs| - 1];
    if y == |xs| - 1 {
      i := CollectedAt(init, f, x);
      j := |Collect(init, f)|;
    } else {
      i, j := Collected(init, f, x, y);
    }
  }

  lemma {:induction false} CollectedAt<A>(xs: seq<A>, f: A -> Option<Rid>, x: nat) returns (i: nat)
    requires x < |xs| && f(xs[x]).Some?
    ensures i < |Collect(xs, f)| && Collect(xs, f)[i] == f(xs[x]).value
    decreases |xs|
  {
    var init := xs[..|xs| - 1];
    if x == |xs| - 1 {
      i := |Collect(init, f)|;
    } else {
      i := CollectedAt(init, f, x);
    }
  }

  lemma {:induction false} Origin<A>(xs: seq<A>, f: A -> Option<Rid>, i: nat) returns (x: nat)
    requires i < |Collect(xs, f)|
    ensures x < |xs| && f(xs[x]) == Some(Collect(xs, f)[i])
    decreases |xs|
  {
    var init := xs[..|xs| - 1];
    if i < |Collect(init, f)| {
      x := Origin(init, f, i);
    } else {
      x := |xs| - 1;
    }
  }

  lemma {:induction false} Origins<A>(xs: seq<A>, f: A -> Option<Rid>, i: nat, j: nat) returns (x: nat, y: nat)
    requires i < j < |Collect(xs, f)|
    ensures x < y < |xs| && f(xs[x]) == Some(Collect(xs, f)[i]) && f(xs[y]) == Some(Collect(xs, f)[j])
    decreases |xs|
  {
    var init := xs[..|xs| - 1];
    if j < |Collect(init, f)| {
      x, y := Origins(init, f, i, j);
    } else {
      x := Origin(init, f, i);
      y := |xs| - 1;
    }
  }

  // ---- The link between tests and queues, at one state ----------------------------------------------

  lemma EnqueuedArePushed(s: State, k: Sid)
    requires ReservedJobs.Inv(s) && k in s.sers
    ensures ReservedOf(s.sers[k].enqueued) <= PushedTo(s.timer.tests, k)
  {
    hide TimerOk, ReservedOf, PushedTo;
    assert LinkOk(s.stacks, s.timer.tests, s.sers[k].enqueued, k);
    if !forall t, i :: At(s.stacks, t, i) ==> !TimerPush(k)(s.stacks[t][i]) {
      var t, i :| At(s.stacks, t, i) && TimerPush(k)(s.stacks[t][i]);
    }
  }

  /** A reserved job that was enqueued on k had a test that let it through to k. */
  lemma TestBehind(s: State, k: Sid, x: nat) returns (a: nat)
    requires ReservedJobs.Inv(s) && k in s.sers && x < |s.sers[k].enqueued| && s.sers[k].enqueued[x].src.Reserved?
    ensures a < |s.timer.tests| && s.timer.tests[a].pushed && s.timer.tests[a].owner == k
    ensures s.timer.tests[a].rid == s.sers[k].enqueued[x].src.rid
  {
    hide ReservedJobs.Inv, Collect;
    EnqueuedArePushed(s, k);
    var i := CollectedAt(s.sers[k].enqueued, ReservationOf, x);
    a := Origin(s.timer.tests, PushTo(k), i);
  }

  /** Two places of one reserved job among the enqueued jobs are the same place. */
  lemma OnePlace(s: State, k: Sid, x: nat, k': Sid, y: nat)
    requires ReservedJobs.Inv(s) && k in s.sers && k' in s.sers
    requires x < |s.sers[k].enqueued| && y < |s.sers[k'].enqueued|
    requires s.sers[k].enqueued[x].src.Reserved? && s.sers[k'].enqueued[y].src == s.sers[k].enqueued[x].src
    ensures k == k' && x == y
  {
    hide LinksOk, Collect;
    var a := TestBehind(s, k, x);
    var b := TestBehind(s, k', y);
    var ids := Ids(s.timer.tests);
    assert ids[a] == ids[b];
    assert a == b;
    if x != y {
      DistinctPlaces(s, k, if x < y then x else y, if x < y then y else x);
    }
  }

  lemma DistinctPlaces(s: State, k: Sid, x: nat, y: nat)
    requires ReservedJobs.Inv(s) && k in s.sers && x < y < |s.sers[k].enqueued|
    requires s.sers[k].enqueued[x].src.Reserved? && s.sers[k].enqueued[y].src.Reserved?
    ensures s.sers[k].enqueued[x].src != s.sers[k].enqueued[y].src
  {
    hide LinksOk, Collect;
    EnqueuedArePushed(s, k);
    var i, j := Collected(s.sers[k].enqueued, ReservationOf, x, y);
    var a, b := Origins(s.timer.tests, PushTo(k), i, j);
    var ids := Ids(s.timer.tests);
    assert ids[a] != ids[b];
  }

  // ---- Main results: once, not early, released once ----------------------------------------------------

  /** Over a whole run a reserved job is enqueued at most once, on one serializer. */
  lemma ReservedEnqueuedOnce(r: seq<State>, n: nat, k: Sid, x: nat, k': Sid, y: nat)
    requires Run(r) && n < |r| && k in r[n].sers && k' in r[n].sers
    requires x < |r[n].sers[k].enqueued| && y < |r[n].sers[k'].enqueued|
    requires r[n].sers[k].enqueued[x].src.Reserved?
    requires r[n].sers[k'].enqueued[y].src == r[n].sers[k].enqueued[x].src
    ensures k == k' && x == y
  {
    hide ReservedJobs.Inv;
    ReservedJobs.Reachable(r, n);
    OnePlace(r[n], k, x, k', y);
  }

  /** A reserved job reaches only its owner's queue, through a check whose tick had reached its own. */
  lemma ReservedNotEarly(r: seq<State>, n: nat, k: Sid, x: nat)
    requires Run(r) && n < |r| && k in r[n].sers && x < |r[n].sers[k].enqueued|
    requires r[n].sers[k].enqueued[x].src.Reserved?
    ensures var tm, rid := r[n].timer, r[n].sers[k].enqueued[x].src.rid;
            && rid < |tm.table| && tm.table[rid].owner == k
            && exists a :: && 0 <= a < |tm.tests| && tm.tests[a].rid == rid && tm.tests[a].pushed
                           && tm.table[rid].tick <= tm.tests[a].now
  {
    hide LinksOk;
    ReservedJobs.Reachable(r, n);
    var a := TestBehind(r[n], k, x);
    assert TestOk(r[n].timer, r[n].live, r[n].timer.tests[a]);
  }

  /** `JobData` is released at most once per reservation, never before its test, and the test never
      meets data that is already released. */
  lemma DataReleasedOnce(r: seq<State>, n: nat)
    requires Run(r) && n < |r|
    ensures var tm := r[n].timer;
            && NoDup(tm.freed)
            && (forall i :: 0 <= i < |tm.freed| ==> i < |tm.tests| && tm.freed[i] == tm.tests[i].rid)
            && (forall x :: x in tm.inHand || x in tm.waiting ==> x !in tm.freed)
  {
    hide LinksOk;
    ReservedJobs.Reachable(r, n);
    FreedAreTested(r[n]);
    var tm := r[n].timer;
    assert tm.freed <= Ids(tm.tests);
    forall i, j | 0 <= i < j < |tm.freed| ensures tm.freed[i] != tm.freed[j] {
      assert tm.freed[i] == Ids(tm.tests)[i] && tm.freed[j] == Ids(tm.tests)[j];
    }
    assert forall x :: x in tm.freed ==> x in Ids(tm.tests);
  }

  lemma FreedAreTested(s: State)
    requires ReservedJobs.Inv(s)
    ensures s.timer.freed <= Ids(s.timer.tests)
  {
    hide LinksOk, TestsOk;
    if s.timer.busy {
      var t, i := Witness(s.stacks, Checker());
      assert CheckOk(s.stacks[t][i], s.timer);
    }
  }

  // ---- Main result: tick order ---------------------------------------------------------------------------

  /** The order in which reservations leave the timer queue: tested ones, then those in hand. */
  function Line(tm: Timer): seq<Rid> {
    Ids(tm.tests) + tm.inHand
  }

  ghost predicate Before(xs: seq<Rid>, a: Rid, b: Rid) {
    forall y :: 0 <= y < |xs| && xs[y] == b ==> exists x :: 0 <= x < y && xs[x] == a
  }

  ghost predicate Ahead(tm: Timer, a: Rid, b: Rid) {
    && a < |tm.table| && b < |tm.table| && tm.table[a].tick < tm.table[b].tick
    && Before(Line(tm), a, b)
  }

  lemma TogetherThenAhead(s: State, a: Rid, b: Rid)
    requires ReservedJobs.Inv(s) && a in s.timer.waiting && b in s.timer.waiting
    requires a < |s.timer.table| && b < |s.timer.table| && s.timer.table[a].tick < s.timer.table[b].tick
    ensures Ahead(s.timer, a, b)
  {
    hide LinksOk;
    forall y | 0 <= y < |Line(s.timer)| ensures Line(s.timer)[y] != b {
      assert Line(s.timer)[y] in Ids(s.timer.tests) || Line(s.timer)[y] in s.timer.inHand;
    }
  }

  lemma ExtractionKeepsAhead(tm: Timer, live: set<Sid>, now: nat, due: seq<Rid>, a: Rid, b: Rid)
    requires TestsOk(tm, live) && tm.inHand == [] && Extraction(tm, now, due) && Ahead(tm, a, b)
    ensures Before(Ids(tm.tests) + due, a, b)
  {
    var ids := Ids(tm.tests);
    var line := ids + due;
    assert Line(tm) == ids;
    forall y | 0 <= y < |line| && line[y] == b ensures exists x :: 0 <= x < y && line[x] == a {
      if y < |ids| {
        assert Line(tm)[y] == b;
        var x :| 0 <= x < y && Line(tm)[x] == a;
        assert line[x] == a;
      } else if a in ids {
        var x :| 0 <= x < |ids| && ids[x] == a;
        assert line[x] == a;
      } else {
        assert due[y - |ids|] == b && b in due;
        assert a in due;
        var q :| 0 <= q < |due| && due[q] == a;
        assert q < y - |ids|;
        assert line[|ids| + q] == a;
      }
    }
  }

  /** Every step keeps the line, except the locked extraction, which appends to it. */
  lemma AheadKept(s: State, step: Step, s': State, a: Rid, b: Rid)
    requires ReservedJobs.Inv(s) && Do(s, step, s') && Ahead(s.timer, a, b)
    ensures Ahead(s'.timer, a, b)
  {
    hide TimerOk, LinksOk, TestsOk, CheckOk, Advanced, Before;
    match step
    case Advance(t, timeout, due) => AdvanceAhead(s, t, timeout, due, s', a, b);
    case _ => assert Line(s'.timer) == Line(s.timer);
  }

  lemma AdvanceAhead(s: State, t: Tid, timeout: bool, due: seq<Rid>, s': State, a: Rid, b: Rid)
    requires ReservedJobs.Inv(s) && Active(s, t) && Advanced(s, t, timeout, due, s') && Ahead(s.timer, a, b)
    ensures Ahead(s'.timer, a, b)
  {
    hide TimerOk, LinksOk, TestsOk, Extraction, Replace, Push, Pop, Before;
    match Top(s, t)
    case CheckLocked(now) =>
      TopCheckOk(s, t);
      ExtractionKeepsAhead(s.timer, s.live, now, due, a, b);
    case CheckTest(now, due', i) =>
      if i < |due'| { TestKeepsLine(s, t, now, due', i); }
    case _ => LineUntouched(s, t, timeout, due, s');
  }

  lemma TestKeepsLine(s: State, t: Tid, now: nat, due: seq<Rid>, i: nat)
    requires ReservedJobs.Inv(s) && Active(s, t)
    requires Top(s, t) == CheckTest(now, due, i) && i < |due| && due[i] < |s.timer.table|
    ensures Line(TestDue(s, t, now, due, i).timer) == Line(s.timer)
  {
    hide TimerOk, LinksOk, TestsOk, Replace, Push, Pop;
    TopCheckOk(s, t);
    var s' := TestDue(s, t, now, due, i);
    assert Ids(s'.timer.tests) == Ids(s.timer.tests) + [due[i]];
    assert due[i..] == [due[i]] + due[i + 1..];
  }

  lemma LineUntouched(s: State, t: Tid, timeout: bool, due: seq<Rid>, s': State)
    requires Active(s, t) && Advanced(s, t, timeout, due, s')
    requires !Top(s, t).CheckLocked? && !Top(s, t).CheckTest?
    ensures s'.timer == s.timer.(busy := s'.timer.busy, freed := s'.timer.freed)
  {
    hide Replace, Pop, Push;
  }

  lemma {:induction false} StaysAhead(r: seq<State>, m: nat, n: nat, a: Rid, b: Rid)
    requires Run(r) && m <= n < |r| && a in r[m].timer.waiting && b in r[m].timer.waiting
    requires a < |r[m].timer.table| && b < |r[m].timer.table| && r[m].timer.table[a].tick < r[m].timer.table[b].tick
    ensures Ahead(r[n].timer, a, b)
    decreases n
  {
    hide ReservedJobs.Inv, Ahead, Do;
    if n == m {
      ReservedJobs.Reachable(r, m);
      TogetherThenAhead(r[m], a, b);
    } else {
      StaysAhead(r, m, n - 1, a, b);
      ReservedJobs.Reachable(r, n - 1);
      assert Next(r[n - 1], r[n - 1 + 1]);
      var step :| Do(r[n - 1], step, r[n]);
      AheadKept(r[n - 1], step, r[n], a, b);
    }
  }

  /** If two reservations of one owner wait together and the first has the smaller tick, then the first
      is enqueued before the second in every run, whichever checks extract them, unless it is cancelled. */
  lemma SmallerTickEnqueuedFirst(r: seq<State>, m: nat, n: nat, a: Rid, b: Rid, k: Sid, y: nat) returns (x: nat)
    requires Run(r) && m <= n < |r| && a in r[m].timer.waiting && b in r[m].timer.waiting
    requires a < |r[m].timer.table| && b < |r[m].timer.table|
    requires r[m].timer.table[a].tick < r[m].timer.table[b].tick && r[m].timer.table[a].owner == k
    requires a !in r[n].timer.canceled && k in r[n].live
    requires k in r[n].sers && y < |r[n].sers[k].enqueued| && r[n].sers[k].enqueued[y].src == Reserved(b)
    ensures x < y && r[n].sers[k].enqueued[x].src == Reserved(a)
  {
    hide ReservedJobs.Inv, Ahead, Collect;
    StaysAhead(r, m, n, a, b);
    ReservedJobs.Reachable(r, n);
    OwnerKept(r, m, n, a);
    x := AheadMeansEarlier(r[n], a, b, k, y);
  }

  lemma {:induction false} OwnerKept(r: seq<State>, m: nat, n: nat, a: Rid)
    requires Run(r) && m <= n < |r| && a < |r[m].timer.table|
    ensures a < |r[n].timer.table| && r[n].timer.table[a] == r[m].timer.table[a]
    decreases n
  {
    hide Do;
    if m < n {
      OwnerKept(r, m, n - 1, a);
      assert Next(r[n - 1], r[n - 1 + 1]);
      var step :| Do(r[n - 1], step, r[n]);
      TableGrows(r[n - 1], step, r[n]);
    }
  }

  lemma TableGrows(s: State, step: Step, s': State)
    requires Do(s, step, s')
    ensures s.timer.table <= s'.timer.table
  {
    hide Advanced;
    if step.Advance? { AdvanceTable(s, step.t, step.timeout, step.due, s'); }
  }

  lemma AdvanceTable(s: State, t: Tid, timeout: bool, due: seq<Rid>, s': State)
    requires Active(s, t) && Advanced(s, t, timeout, due, s')
    ensures s'.timer.table == s.timer.table
  {
    hide Replace, Pop, Push, Extraction;
  }

  lemma AheadMeansEarlier(s: State, a: Rid, b: Rid, k: Sid, y: nat) returns (x: nat)
    requires ReservedJobs.Inv(s) && Ahead(s.timer, a, b) && k in s.sers
    requires s.timer.table[a].owner == k && a !in s.timer.canceled && k in s.live
    requires y < |s.sers[k].enqueued| && s.sers[k].enqueued[y].src == Reserved(b)
    ensures x < y && s.sers[k].enqueued[x].src == Reserved(a)
  {
    hide LinksOk, Collect;
    var tests, jobs := s.timer.tests, s.sers[k].enqueued;
    var tb := TestBehind(s, k, y);
    assert Line(s.timer)[tb] == b;
    var ta :| 0 <= ta < tb && Line(s.timer)[ta] == a;
    assert tests[ta].rid == a && TestOk(s.timer, s.live, tests[ta]);
    var i, j := Collected(tests, PushTo(k), ta, tb);
    EnqueuedArePushed(s, k);
    j := SamePush(s, k, y, j);
    var x', y' := Origins(jobs, ReservationOf, i, j);
    OnePlace(s, k, y, k, y');
    x := x';
  }

  /** The place of an enqueued reservation among the pushes to k lies among those already enqueued. */
  lemma SamePush(s: State, k: Sid, y: nat, j: nat) returns (j': nat)
    requires ReservedJobs.Inv(s) && k in s.sers && y < |s.sers[k].enqueued| && s.sers[k].enqueued[y].src.Reserved?
    requires j < |PushedTo(s.timer.tests, k)| && PushedTo(s.timer.tests, k)[j] == s.sers[k].enqueued[y].src.rid
    ensures j' == j && j < |ReservedOf(s.sers[k].enqueued)|
  {
    hide LinksOk, Collect;
    EnqueuedArePushed(s, k);
    j' := CollectedAt(s.sers[k].enqueued, ReservationOf, y);
    assert NoDup(Ids(s.timer.tests));
    if j' < j {
      var a, b := Origins(s.timer.tests, PushTo(k), j', j);
    } else if j < j' {
      var a, b := Origins(s.timer.tests, PushTo(k), j, j');
    }
  }

  /** And so it runs first. */
  lemma SmallerTickRunsFirst(r: seq<State>, m: nat, n: nat, a: Rid, b: Rid, k: Sid, y: nat) returns (x: nat)
    requires Run(r) && m <= n < |r| && a in r[m].timer.waiting && b in r[m].timer.waiting
    requires a < |r[m].timer.table| && b < |r[m].timer.table|
    requires r[m].timer.table[a].tick < r[m].timer.table[b].tick && r[m].timer.table[a].owner == k
    requires a !in r[n].timer.canceled && k in r[n].live
    requires k in r[n].sers && y < |r[n].sers[k].ran| && r[n].sers[k].ran[y].src == Reserved(b)
    ensures x < y && r[n].sers[k].ran[x].src == Reserved(a)
  {
    hide JobOwnership.SerOk;
    JobOwnership.Reachable(r, n);
    JobOwnership.RanIsPrefix(r[n], k);
    x := SmallerTickEnqueuedFirst(r, m, n, a, b, k, y);
  }

  // ---- Main result: when a cancellation takes effect -------------------------------------------------------

  ghost predicate LetThrough(tm: Timer, a: Rid) {
    exists i :: 0 <= i < |tm.tests| && tm.tests[i].rid == a && tm.tests[i].pushed
  }

  /** A step lets through only reservations that are not cancelled when it tests them. */
  lemma LetThroughStep(s: State, step: Step, s': State, a: Rid)
    requires Do(s, step, s') && a in s.timer.canceled
    ensures LetThrough(s'.timer, a) <==> LetThrough(s.timer, a)
    ensures a in s'.timer.canceled
  {
    hide Advanced;
    if step.Advance? { AdvanceLetThrough(s, step.t, step.timeout, step.due, s', a); }
  }

  lemma AdvanceLetThrough(s: State, t: Tid, timeout: bool, due: seq<Rid>, s': State, a: Rid)
    requires Active(s, t) && Advanced(s, t, timeout, due, s') && a in s.timer.canceled
    ensures LetThrough(s'.timer, a) <==> LetThrough(s.timer, a)
    ensures a in s'.timer.canceled
  {
    hide Replace, Pop, Push, Extraction;
    match Top(s, t)
    case CheckTest(now, due', i) =>
      if LetThrough(s.timer, a) {
        var x :| 0 <= x < |s.timer.tests| && s.timer.tests[x].rid == a && s.timer.tests[x].pushed;
        assert s'.timer.tests[x] == s.timer.tests[x];
      }
    case CheckLocked(now) =>
    case _ => LineUntouched(s, t, timeout, due, s');
  }

  lemma {:induction false} LetThroughFrozen(r: seq<State>, m: nat, n: nat, a: Rid)
    requires Run(r) && m <= n < |r| && a in r[m].timer.canceled
    ensures a in r[n].timer.canceled && (LetThrough(r[n].timer, a) <==> LetThrough(r[m].timer, a))
    decreases n
  {
    hide Do, LetThrough;
    if m < n {
      LetThroughFrozen(r, m, n - 1, a);
      assert Next(r[n - 1], r[n - 1 + 1]);
      var step :| Do(r[n - 1], step, r[n]);
      LetThroughStep(r[n - 1], step, r[n], a);
    }
  }

  /** Job a is among the jobs enqueued on its owner. */
  ghost predicate IsEnqueued(s: State, a: Rid) {
    exists k, x :: k in s.sers && 0 <= x < |s.sers[k].enqueued| && s.sers[k].enqueued[x].src == Reserved(a)
  }

  predicate Carries(f: Frame, a: Rid) {
    (f.PushStart? || f.PushAnnounced?) && f.job.src == Reserved(a)
  }

  /** A push that will enqueue job a is under way. */
  ghost predicate IsCarried(s: State, a: Rid) {
    exists t, i :: At(s.stacks, t, i) && Carries(s.stacks[t][i], a)
  }

  /** A cancellation is effective exactly when it comes before the push test: in every later state, a job cancelled
      at m is enqueued or on the way to it if and only if its test had already let it through by then. */
  lemma CancelWorksIffBeforeTest(r: seq<State>, m: nat, n: nat, a: Rid)
    requires Run(r) && m <= n < |r| && a in r[m].timer.canceled
    ensures IsEnqueued(r[n], a) || IsCarried(r[n], a) <==> LetThrough(r[m].timer, a)
    ensures (forall t :: t in r[n].stacks ==> r[n].stacks[t] == []) ==>
              (IsEnqueued(r[n], a) <==> LetThrough(r[m].timer, a))
  {
    hide ReservedJobs.Inv, Do, Collect, LetThrough, IsEnqueued;
    ReservedJobs.Reachable(r, n);
    JobOwnership.Reachable(r, n);
    LetThroughFrozen(r, m, n, a);
    EnqueuedIffLetThrough(r[n], a);
  }

  lemma TimerTests(s: State)
    requires ReservedJobs.Inv(s)
    ensures TestsOk(s.timer, s.live)
  {
  }

  lemma EnqueuedIffLetThrough(s: State, a: Rid)
    requires ReservedJobs.Inv(s) && JobOwnership.WellFormed(s)
    ensures IsEnqueued(s, a) || IsCarried(s, a) <==> LetThrough(s.timer, a)
  {
    hide Collect, ReservedJobs.Inv, JobOwnership.WellFormed, Carries;
    if k, x :| k in s.sers && 0 <= x < |s.sers[k].enqueued| && s.sers[k].enqueued[x].src == Reserved(a) {
      var i := TestBehind(s, k, x);
    }
    if t, i :| At(s.stacks, t, i) && Carries(s.stacks[t][i], a) {
      var x := CarriedIsLetThrough(s, t, i, a);
    }
    if LetThrough(s.timer, a) {
      var i :| 0 <= i < |s.timer.tests| && s.timer.tests[i].rid == a && s.timer.tests[i].pushed;
      LetThroughIsSomewhere(s, i);
    }
  }

  lemma CarriedIsLetThrough(s: State, t: Tid, i: int, a: Rid) returns (x: nat)
    requires ReservedJobs.Inv(s) && JobOwnership.WellFormed(s) && At(s.stacks, t, i) && Carries(s.stacks[t][i], a)
    ensures x < |s.timer.tests| && s.timer.tests[x].rid == a && s.timer.tests[x].pushed
  {
    hide Collect, TimerOk, OnItsWay;
    var k := s.stacks[t][i].k;
    assert JobOwnership.Known(s.stacks[t][i], s.sers.Keys);
    assert TimerPush(k)(s.stacks[t][i]) && LinkOk(s.stacks, s.timer.tests, s.sers[k].enqueued, k);
    var ids := PushedTo(s.timer.tests, k);
    assert ids[|ids| - 1] == a;
    x := Origin(s.timer.tests, PushTo(k), |ids| - 1);
  }

  lemma LetThroughIsSomewhere(s: State, i: nat)
    requires ReservedJobs.Inv(s) && JobOwnership.WellFormed(s) && i < |s.timer.tests| && s.timer.tests[i].pushed
    ensures IsEnqueued(s, s.timer.tests[i].rid) || IsCarried(s, s.timer.tests[i].rid)
  {
    hide Collect, TimerOk, JobOwnership.AllKnown, OnItsWay;
    TimerTests(s);
    assert TestOk(s.timer, s.live, s.timer.tests[i]);
    var k, a := s.timer.tests[i].owner, s.timer.tests[i].rid;
    assert LinkOk(s.stacks, s.timer.tests, s.sers[k].enqueued, k);
    var j := CollectedAt(s.timer.tests, PushTo(k), i);
    var jobs := ReservedOf(s.sers[k].enqueued);
    if t, y :| At(s.stacks, t, y) && TimerPush(k)(s.stacks[t][y]) && j >= |jobs| {
      assert Carries(s.stacks[t][y], a);
    } else {
      assert j < |jobs| && jobs[j] == a;
      var x := Origin(s.sers[k].enqueued, ReservationOf, j);
    }
  }
}
