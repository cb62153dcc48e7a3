/** Runs that leave the safe use of the lock: an unlock that trips its assertion, and readers that make a writer. */
module LockExamples {
  import opened StackCount
  import L = RWLock

  type Tid = L.Tid

  /** A run that ends in s. */
  ghost predicate Trace(r: seq<L.State>, s: L.State) {
    L.Steps(r) && r[|r| - 1] == s
  }

  ghost predicate AllBounded(r: seq<L.State>) {
    forall i :: 0 <= i < |r| ==> L.Bounded(r[i])
  }

  lemma Extend(r: seq<L.State>, s: L.State, t: Tid, op: L.Op, s': L.State) returns (r': seq<L.State>)
    requires Trace(r, s) && L.Enabled(s, t, op) && s' == L.Exec(s, t, op)
    ensures Trace(r', s') && r' == r + [s'] && (AllBounded(r) && L.Bounded(s') ==> AllBounded(r'))
  {
    hide L.Exec, L.Init, L.Bounded;
    r' := r + [s'];
    assert L.Next(s, s');
    forall i | 0 <= i < |r'| - 1 ensures L.Next(r'[i], r'[i + 1]) {
      if i < |r| - 1 { assert L.Next(r[i], r[i + 1]); }
    }
  }

  // ---- A write guard nested in a read guard -----------------------------------------------------------------------

  /** One thread, with its program counter, its write count and its holds; it is the writer if it has a count. */
  function Alone(flag: nat, count: nat, pc: L.Pc, holds: seq<L.Mode>, crashed: bool): L.State {
    L.State(flag, count, map[1 := pc], map[1 := holds], crashed)
  }

  lemma {:induction false} FewHolds(holds: seq<L.Mode>)
    ensures Count(map[1 := holds], L.IsRead()) <= |holds| && L.Depth(holds) <= |holds|
  {
    L.DepthPositive(holds);
    if holds == [] {
      Unoccupied(map[1 := holds], L.IsRead());
    } else {
      var n := |holds| - 1;
      FewHolds(holds[..n]);
      Pushed(map[1 := holds[..n]], 1, holds[n], L.IsRead());
      assert holds == holds[..n] + [holds[n]];
      assert Push(map[1 := holds[..n]], 1, holds[n]) == map[1 := holds];
    }
  }

  lemma AloneBounded(flag: nat, count: nat, pc: L.Pc, holds: seq<L.Mode>, crashed: bool)
    requires |holds| < L.HALF
    ensures L.Bounded(Alone(flag, count, pc, holds, crashed))
  {
    FewHolds(holds);
  }

  /** A step of the only thread. */
  lemma Go(r: seq<L.State>, s: L.State, op: L.Op, s': L.State) returns (r': seq<L.State>)
    requires Trace(r, s) && AllBounded(r) && L.Enabled(s, 1, op) && s' == L.Exec(s, 1, op)
    requires 1 in s'.pcs && 1 in s'.holds && |s'.holds[1]| < L.HALF
    requires s' == Alone(s'.flag, s'.count, s'.pcs[1], s'.holds[1], s'.crashed)
    ensures Trace(r', s') && AllBounded(r') && r' == r + [s']
  {
    hide Trace, AllBounded, L.Exec;
    AloneBounded(s'.flag, s'.count, s'.pcs[1], s'.holds[1], s'.crashed);
    r' := Extend(r, s, 1, op, s');
  }

  lemma AloneMoves(s: L.State, holds: seq<L.Mode>, pc: L.Pc, m: L.Mode)
    requires s.pcs.Keys == {1} && s.holds == map[1 := holds]
    ensures L.At(s, 1, pc).pcs == map[1 := pc]
    ensures L.Acquired(s, 1, m).pcs == map[1 := L.Idle] && L.Acquired(s, 1, m).holds == map[1 := holds + [m]]
  {
  }

  const F := L.HALF // the flag with writer 1

  lemma StartAlone()
    ensures var s := Alone(0, 0, L.Idle, [], false); Trace([s], s) && AllBounded([s])
  {
    AloneBounded(0, 0, L.Idle, [], false);
  }

  lemma EnterFirst() returns (r: seq<L.State>)
    ensures Trace(r, Alone(F, 0, L.WriteIncRead, [], false)) && AllBounded(r)
  {
    hide Trace, AllBounded;
    var s0 := Alone(0, 0, L.Idle, [], false);
    var s1 := Alone(0, 0, L.WriteCas, [], false);
    r := [s0];
    StartAlone();
    AloneMoves(s0, [], L.WriteCas, L.W);
    r := Go(r, s0, L.LockWrite, s1);
    AloneMoves(s1, [], L.WriteIncRead, L.W);
    assert L.WriteFlag(1) == F;
    r := Go(r, s1, L.LockWrite, Alone(F, 0, L.WriteIncRead, [], false));
  }

  lemma TakeFirst() returns (r: seq<L.State>)
    ensures Trace(r, Alone(F, 1, L.Idle, [L.W], false)) && AllBounded(r)
  {
    hide Trace, AllBounded;
    var s0 := Alone(F, 0, L.WriteIncRead, [], false);
    var s1 := Alone(F, 0, L.WriteIncWrite(0), [], false);
    r := EnterFirst();
    AloneMoves(s0, [], L.WriteIncWrite(0), L.W);
    r := Go(r, s0, L.LockWrite, s1);
    AloneMoves(s1, [], L.Idle, L.W);
    assert [] + [L.W] == [L.W];
    r := Go(r, s1, L.LockWrite, Alone(F, 1, L.Idle, [L.W], false));
  }

  lemma TakeSecond() returns (r: seq<L.State>)
    ensures Trace(r, Alone(F + 1, 1, L.Idle, [L.W, L.R], false)) && AllBounded(r)
  {
    hide Trace, AllBounded;
    var s0 := Alone(F, 1, L.Idle, [L.W], false);
    var s1 := Alone(F, 1, L.ReadAdd, [L.W], false);
    r := TakeFirst();
    AloneMoves(s0, [L.W], L.ReadAdd, L.R);
    r := Go(r, s0, L.LockRead, s1);
    AloneMoves(s1, [L.W], L.Idle, L.R);
    assert [L.W] + [L.R] == [L.W, L.R];
    r := Go(r, s1, L.LockRead, Alone(F + 1, 1, L.Idle, [L.W, L.R], false));
  }

  lemma TakeThird() returns (r: seq<L.State>)
    ensures Trace(r, Alone(F + 1, 2, L.Idle, [L.W, L.R, L.W], false)) && AllBounded(r)
  {
    hide Trace, AllBounded;
    var s0 := Alone(F + 1, 1, L.Idle, [L.W, L.R], false);
    var s1 := Alone(F + 1, 1, L.WriteIncRead, [L.W, L.R], false);
    var s2 := Alone(F + 1, 1, L.WriteIncWrite(1), [L.W, L.R], false);
    r := TakeSecond();
    AloneMoves(s0, [L.W, L.R], L.WriteIncRead, L.W);
    r := Go(r, s0, L.LockWrite, s1);
    AloneMoves(s1, [L.W, L.R], L.WriteIncWrite(1), L.W);
    r := Go(r, s1, L.LockWrite, s2);
    AloneMoves(s2, [L.W, L.R], L.Idle, L.W);
    assert [L.W, L.R] + [L.W] == [L.W, L.R, L.W];
    r := Go(r, s2, L.LockWrite, Alone(F + 1, 2, L.Idle, [L.W, L.R, L.W], false));
  }

  /** Thread 1, alone, takes the write lock, a read lock and the write lock again; releasing the innermost guard
      trips the assertion of `WriteUnlock`. */
  lemma InnerUnlockCrashes() returns (r: seq<L.State>)
    ensures L.Run(r) && |r| > 1
    ensures r[|r| - 2].holds == map[1 := [L.W, L.R, L.W]] && !r[|r| - 2].crashed && r[|r| - 1].crashed
  {
    hide L.Steps, L.Bounded;
    var s := Alone(F + 1, 2, L.Idle, [L.W, L.R, L.W], false);
    r := TakeThird();
    assert r != [] by { NotEmpty(r, s); }
    r := Go(r, s, L.Unlock, s.(crashed := true));
  }

  lemma NotEmpty(r: seq<L.State>, s: L.State)
    requires Trace(r, s)
    ensures r != [] && r[|r| - 1] == s
  {
  }

  // ---- Too many readers ------------------------------------------------------------------------------------------

  function Reads(k: nat): (holds: seq<L.Mode>)
    ensures |holds| == k && forall i :: 0 <= i < k ==> holds[i] == L.R
  {
    seq(k, _ => L.R)
  }

  /** Thread 2 has k read holds, and both threads are where they are. */
  function Reading(k: nat, flag: nat, pc1: L.Pc, pc2: L.Pc): L.State {
    L.State(flag, 0, map[1 := pc1, 2 := pc2], map[1 := [], 2 := Reads(k)], false)
  }

  lemma ReadsGrow(k: nat)
    ensures Reads(k) + [L.R] == Reads(k + 1)
  {
  }

  /** One more read hold. */
  lemma ReadOnce(r: seq<L.State>, k: nat) returns (r': seq<L.State>)
    requires k < L.HALF && Trace(r, Reading(k, k, L.Idle, L.Idle))
    ensures Trace(r', Reading(k + 1, k + 1, L.Idle, L.Idle))
  {
    hide Trace, AllBounded, L.Bounded, Reads;
    var s0 := Reading(k, k, L.Idle, L.Idle);
    var s1 := Reading(k, k, L.Idle, L.ReadLoad);
    var s2 := Reading(k, k, L.Idle, L.ReadCas(k));
    var s3 := Reading(k + 1, k + 1, L.Idle, L.Idle);
    ReadsGrow(k);
    assert Push(s2.holds, 2, L.R) == s3.holds;
    r' := Extend(r, s0, 2, L.LockRead, s1);
    r' := Extend(r', s1, 2, L.LockRead, s2);
    r' := Extend(r', s2, 2, L.LockRead, s3);
  }

  /** Read locks are re-entrant, so that any number of holds up to 65536 is reached by one thread alone. */
  lemma {:induction false} ReadMany(k: nat) returns (r: seq<L.State>)
    requires k <= L.HALF
    ensures Trace(r, Reading(k, k, L.Idle, L.Idle))
  {
    if k == 0 {
      r := [Reading(0, 0, L.Idle, L.Idle)];
    } else {
      r := ReadMany(k - 1);
      r := ReadOnce(r, k - 1);
    }
  }

  /** With 65536 read holds of thread 2 the flag names thread 1 as the writer, and thread 1 then enters as one:
      it holds the write lock while thread 2 is reading. */
  lemma ReadersLetAWriterIn() returns (r: seq<L.State>)
    ensures L.Steps(r)
    ensures r[|r| - 1].holds == map[1 := [L.W], 2 := Reads(L.HALF)]
  {
    hide AllBounded, L.Bounded, Reads, L.Steps;
    var k := L.HALF;
    var s0 := Reading(k, k, L.Idle, L.Idle);
    var s1 := Reading(k, k, L.WriteIncRead, L.Idle);
    var s2 := Reading(k, k, L.WriteIncWrite(0), L.Idle);
    var s3 := L.Acquired(s2, 1, L.W).(count := 1);
    assert s3.holds == map[1 := [L.W], 2 := Reads(k)] by { assert [] + [L.W] == [L.W]; }
    assert s0.pcs[1 := L.WriteIncRead] == s1.pcs && s1.pcs[1 := L.WriteIncWrite(0)] == s2.pcs;
    {
      hide Trace;
      r := ReadMany(k);
      r := Extend(r, s0, 1, L.LockWrite, s1);
      r := Extend(r, s1, 1, L.LockWrite, s2);
      r := Extend(r, s2, 1, L.LockWrite, s3);
    }
  }

  /** Thread 2 has a read hold and asks for the write lock: its exchange cannot succeed while it keeps that hold. */
  lemma ReaderWaitsForWrite() returns (r: seq<L.State>)
    ensures L.Steps(r)
    ensures r[|r| - 1] == Reading(1, 1, L.Idle, L.WriteCas) && L.R in r[|r| - 1].holds[2]
  {
    hide L.Steps, AllBounded, L.Bounded;
    var s := Reading(1, 1, L.Idle, L.Idle);
    assert L.R == Reads(1)[0];
    r := ReadMany(1);
    r := Extend(r, s, 2, L.LockWrite, Reading(1, 1, L.Idle, L.WriteCas));
  }

  /** With 65536 read holds the lower half of the flag is 0 again: the next read unlock trips its assertion. */
  lemma ReadUnlockCrashes() returns (r: seq<L.State>)
    ensures L.Steps(r) && r[|r| - 1].crashed && r[|r| - 1].holds == map[1 := [], 2 := Reads(L.HALF - 1)]
  {
    hide L.Steps, AllBounded, L.Bounded, Reads;
    var k := L.HALF;
    var s := Reading(k, k, L.Idle, L.Idle);
    ReadsGrow(k - 1);
    assert Pop(s.holds, 2) == map[1 := [], 2 := Reads(k - 1)] by {
      assert Reads(k)[..k - 1] == Reads(k - 1);
    }
    r := ReadMany(k);
    r := Extend(r, s, 2, L.Unlock, L.Exec(s, 2, L.Unlock));
  }
}
