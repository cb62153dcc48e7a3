/** A run in which two threads look at the front of a queue at the same time. */
module QueueExamples {
  import L = RWLock
  import opened LockQueue

  /** A run that ends in s. */
  ghost predicate Trace(r: seq<State>, s: State) {
    Run(r) && r[|r| - 1] == s
  }

  lemma Extend(r: seq<State>, s: State, t: Tid, step: Step, s': State) returns (r': seq<State>)
    requires Trace(r, s) && Do(s, t, step, s')
    ensures Trace(r', s')
  {
    hide Do, Init;
    r' := r + [s'];
    assert Next(s, s');
    forall i | 0 <= i < |r'| - 1 ensures Next(r'[i], r'[i + 1]) {
      if i < |r| - 1 { assert Next(r[i], r[i + 1]); }
    }
  }

  /** Both threads, and the flag as the number of readers. */
  ghost predicate Shape(s: State, k: nat, first: Call, pc: L.Pc, second: Call, pc2: L.Pc) {
    && s.calls.Keys == s.lock.pcs.Keys == s.lock.holds.Keys == {1, 2} && s.lock.flag == k && !s.lock.crashed
    && s.calls[1] == first && s.lock.pcs[1] == pc && s.calls[2] == second && s.lock.pcs[2] == pc2
  }

  lemma Start() returns (r: seq<State>, s: State)
    ensures Trace(r, s) && Shape(s, 0, Outside, L.Idle, Outside, L.Idle)
  {
    var lock := L.State(0, 0, map[1 := L.Idle, 2 := L.Idle], map[1 := [], 2 := []], false);
    s := State(lock, map[1 := Outside, 2 := Outside], [], [], []);
    r := [s];
  }

  lemma FirstEnters() returns (r: seq<State>, s: State)
    ensures Trace(r, s) && Shape(s, 1, Body(Front), L.Idle, Outside, L.Idle)
  {
    hide Trace;
    var s0;
    r, s0 := Start();
    var s1 := s0.(calls := s0.calls[1 := Acquiring(Front)]);
    r := Extend(r, s0, 1, Invoke(Front), s1);
    var s2 := LockStep(s1, 1);
    assert Shape(s2, 0, Acquiring(Front), L.ReadLoad, Outside, L.Idle);
    r := Extend(r, s1, 1, Advance, s2);
    var s3 := LockStep(s2, 1);
    assert Shape(s3, 0, Acquiring(Front), L.ReadCas(0), Outside, L.Idle);
    r := Extend(r, s2, 1, Advance, s3);
    s := LockStep(s3, 1);
    r := Extend(r, s3, 1, Advance, s);
  }

  /** Readers do not exclude each other. */
  lemma FrontsOverlap() returns (r: seq<State>)
    ensures Run(r) && var s := r[|r| - 1]; s.calls.Keys == {1, 2} && s.calls[1] == s.calls[2] == Body(Front)
  {
    var s0;
    r, s0 := FirstEnters();
    hide Run;
    var s1 := s0.(calls := s0.calls[2 := Acquiring(Front)]);
    r := Extend(r, s0, 2, Invoke(Front), s1);
    var s2 := LockStep(s1, 2);
    assert Shape(s2, 1, Body(Front), L.Idle, Acquiring(Front), L.ReadLoad);
    r := Extend(r, s1, 2, Advance, s2);
    var s3 := LockStep(s2, 2);
    assert Shape(s3, 1, Body(Front), L.Idle, Acquiring(Front), L.ReadCas(1));
    r := Extend(r, s2, 2, Advance, s3);
    var s4 := LockStep(s3, 2);
    assert Shape(s4, 2, Body(Front), L.Idle, Body(Front), L.Idle);
    r := Extend(r, s3, 2, Advance, s4);
  }
}
