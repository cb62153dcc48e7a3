/** A run in which a block is taken again while its release is still under way. */
module PoolExamples {
  import opened StackCount
  import opened PoolTable
  import opened PoolAllocator

  /** A run that ends in s. */
  ghost predicate Trace(c: Config, r: seq<State>, s: State) {
    Run(c, r) && r[|r| - 1] == s
  }

  /** One run is the beginning of another. */
  ghost predicate Continues(r: seq<State>, r': seq<State>) {
    0 < |r| <= |r'| && r == r'[..|r|]
  }

  lemma Extend(c: Config, r: seq<State>, s: State, t: Tid, step: Step, s': State) returns (r': seq<State>)
    requires Trace(c, r, s) && Do(c, s, t, step, s')
    ensures Trace(c, r', s') && Continues(r, r')
  {
    hide Do, Init, ConfigOk;
    r' := r + [s'];
    assert Next(c, s, s');
    forall i | 0 <= i < |r'| - 1 ensures Next(c, r'[i], r'[i + 1]) {
      if i < |r| - 1 { assert Next(c, r[i], r[i + 1]); }
    }
  }

  lemma Further(a: seq<State>, b: seq<State>, c: seq<State>)
    requires Continues(a, b) && Continues(b, c)
    ensures Continues(a, c)
  {
    assert c[..|a|] == c[..|b|][..|a|];
  }

  /** The smallest request has pool p. */
  ghost predicate Setting(c: Config, p: int) {
    ConfigOk(c) && c.header < c.covered && c.header < |c.table| && p == PoolFor(c, c.header) && 0 <= p < |c.pools|
  }

  /** The calls of threads 1 and 2, the free list of p, and where block 7 is. */
  ghost predicate Shape(c: Config, s: State, p: int, first: seq<Call>, second: seq<Call>, free: seq<Block>, at: Place) {
    && !s.wild && s.calls.Keys == {1, 2} && s.calls[1] == first && s.calls[2] == second
    && p in s.pools && s.pools[p].free == free
    && s.blocks.Keys == {7} && s.blocks[7].place == at && (at == Live ==> s.blocks[7].header == c.header)
  }

  lemma Make(c: Config, p: int) returns (r: seq<State>, s: State)
    requires Setting(c, p)
    ensures Trace(c, r, s) && Shape(c, s, p, [Counting(p, 7, c.header)], [], [], Held(1))
  {
    hide TableOk;
    var s0 := State(map[1 := [], 2 := []], EmptyPools(|c.pools|), map[], false, 0, 0);
    r := [s0];
    assert Trace(c, r, s0);
    hide Trace;
    s := NewBlock(s0, 1, p, c.header, 7, c.pools[p]);
    r := Extend(c, r, s0, 1, Allocate(0, 7), s);
  }

  lemma HandOut(c: Config, p: int) returns (r: seq<State>, s: State)
    requires Setting(c, p)
    ensures Trace(c, r, s) && Shape(c, s, p, [], [], [], Live)
  {
    hide Trace, ConfigOk;
    var s0;
    var a := c.header;
    r, s0 := Make(c, p);
    var s1 := SetPool(s0, p, s0.pools[p].(useCount := FetchAdd(s0.pools[p].useCount)))
                .(calls := Replace(s0.calls, 1, Attaching(7, a)));
    r := Extend(c, r, s0, 1, Advance, s1);
    assert s1.calls[1] == [Attaching(7, a)];
    s := Attach(s1, 1, 7, a);
    r := Extend(c, r, s1, 1, Advance, s);
  }

  /** Thread 1 begins to release the block. */
  lemma Begin(c: Config, p: int) returns (r: seq<State>, s: State)
    requires Setting(c, p)
    ensures Trace(c, r, s) && Shape(c, s, p, [Detaching(7)], [], [], Held(1)) && s.blocks[7].header == c.header
  {
    hide Trace, ConfigOk;
    var s0;
    r, s0 := HandOut(c, p);
    s := StartRelease(s0, 1, 7);
    r := Extend(c, r, s0, 1, Release(7), s);
  }

  /** It puts the block on the free list. */
  lemma GiveBack(c: Config, p: int, r0: seq<State>, s0: State) returns (r: seq<State>, s: State)
    requires Setting(c, p) && Trace(c, r0, s0)
    requires Shape(c, s0, p, [Detaching(7)], [], [], Held(1)) && s0.blocks[7].header == c.header
    ensures Trace(c, r, s) && Continues(r0, r) && Shape(c, s, p, [Pushed(p)], [], [7], Free(p))
  {
    hide Trace, TableOk, Continues;
    var s1 := s0.(calls := Replace(s0.calls, 1, Freeing(p, 7)));
    var r1 := Extend(c, r0, s0, 1, Advance, s1);
    assert s1.calls[1] == [Freeing(p, 7)];
    s := PushFree(s1, 1, p, 7);
    r := Extend(c, r1, s1, 1, Advance, s);
    Further(r0, r1, r);
  }

  /** Thread 2 takes it before thread 1 has counted it. */
  lemma TakeAgain(c: Config, p: int, r0: seq<State>, s0: State) returns (r: seq<State>, s: State)
    requires Setting(c, p) && Trace(c, r0, s0) && Shape(c, s0, p, [Pushed(p)], [], [7], Free(p))
    ensures Trace(c, r, s) && Continues(r0, r)
    ensures Shape(c, s, p, [Uncounting(p)], [Popped(p, 7, c.header)], [], Held(2))
  {
    hide Trace, TableOk, Continues;
    var s1 := PopFree(s0, 2, p, c.header);
    var r1 := Extend(c, r0, s0, 2, Allocate(0, 8), s1);
    s := SetPool(s1, p, s1.pools[p].(poolCount := FetchAdd(s1.pools[p].poolCount)))
           .(calls := Replace(s1.calls, 1, Uncounting(p)));
    r := Extend(c, r1, s1, 1, Advance, s);
    Further(r0, r1, r);
  }

  /** At m thread 1 begins to release block 7; at the end it is outside of all calls again, and the block is not on the
      free list but in the hands of thread 2, which took it in between. */
  lemma ReleasedBlockIsTakenAgain(c: Config, p: int) returns (r: seq<State>, m: nat)
    requires Setting(c, p)
    ensures Run(c, r) && m < |r| && r[m].calls.Keys == {1, 2} && r[m].calls[1] == [Detaching(7)]
    ensures var s := r[|r| - 1];
            s.calls.Keys == {1, 2} && s.calls[1] == [] && Has(s, 2, 7) && p in s.pools && 7 !in s.pools[p].free
  {
    hide Run, ConfigOk;
    var r0, s0 := Begin(c, p);
    var r1, s1 := GiveBack(c, p, r0, s0);
    var r2, s2 := TakeAgain(c, p, r1, s1);
    var s3 := SetPool(s2, p, s2.pools[p].(useCount := FetchSub(s2.pools[p].useCount))).(calls := Pop(s2.calls, 1));
    r := Extend(c, r2, s2, 1, Advance, s3);
    Further(r0, r1, r2);
    Further(r0, r2, r);
    m := |r0| - 1;
    assert r[m] == r0[m] == s0;
  }
}
