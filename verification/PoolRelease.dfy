/** What a release does over whole runs: a released block is not live again until an allocation hands it out, it gets
    back to where it came from, and no block of the big path is lost. */
module PoolRelease {
  import opened StackCount
  import opened PoolTable
  import opened PoolAllocator

  // ---- How a block becomes live ---------------------------------------------------------------------------------

  predicate IsLive(s: State, b: Block) {
    b in s.blocks && s.blocks[b].place == Live
  }

  /** t is about to return block b from an allocation. */
  predicate Attaches(s: State, t: Tid, b: Block) {
    Nonempty(s.calls, t) && TopOf(s.calls, t).Attaching? && TopOf(s.calls, t).b == b
  }

  lemma LiveStep(c: Config, s: State, t: Tid, step: Step, s': State, b: Block)
    requires Do(c, s, t, step, s') && !IsLive(s, b) && IsLive(s', b)
    ensures Attaches(s, t, b)
  {
  }

  /** Over every run, a block that is live and was not before has been attached by an allocation in between. */
  lemma {:induction false} LiveOnlyByAllocation(c: Config, r: seq<State>, m: nat, n: nat, b: Block)
    returns (i: nat, t: Tid)
    requires Run(c, r) && m <= n < |r| && !IsLive(r[m], b) && IsLive(r[n], b)
    ensures m <= i < n && !IsLive(r[i], b) && IsLive(r[i + 1], b) && Attaches(r[i], t, b)
    decreases n
  {
    hide Do, ConfigOk, IsLive;
    assert Next(c, r[n - 1], r[n - 1 + 1]);
    if IsLive(r[n - 1], b) {
      i, t := LiveOnlyByAllocation(c, r, m, n - 1, b);
    } else {
      i := n - 1;
      var step;
      t, step :| Do(c, r[n - 1], t, step, r[n]);
      LiveStep(c, r[n - 1], t, step, r[n], b);
    }
  }

  lemma DetachingHas(c: Config, s: State, t: Tid, b: Block)
    requires CallsOk(c, s) && Nonempty(s.calls, t) && TopOf(s.calls, t) == Detaching(b)
    ensures Has(s, t, b)
  {
    assert CallOk(s, t, s.calls[t][0]);
  }

  /** In particular a block whose release has begun at m: if it is live at n, an allocation has handed it out again. */
  lemma ReleaseEndsLife(c: Config, r: seq<State>, m: nat, n: nat, t: Tid, b: Block) returns (i: nat, u: Tid)
    requires Run(c, r) && m <= n < |r| && Nonempty(r[m].calls, t) && TopOf(r[m].calls, t) == Detaching(b)
    requires IsLive(r[n], b)
    ensures m <= i < n && !IsLive(r[i], b) && IsLive(r[i + 1], b) && Attaches(r[i], u, b)
  {
    hide Run, BlocksOk, PoolsOk, CallsOk, HeldOk;
    PoolAllocator.Reachable(c, r, m);
    DetachingHas(c, r[m], t, b);
    i, u := LiveOnlyByAllocation(c, r, m, n, b);
  }

  // ---- Where a released block goes ------------------------------------------------------------------------------

  /** On the free list of its pool, or given back to the system. */
  predicate IsHome(s: State, b: Block, origin: int) {
    if origin == -1 then b !in s.blocks else origin in s.pools && b in s.pools[origin].free
  }

  /** An allocation of t takes block b. */
  predicate Takes(s: State, t: Tid, s': State, b: Block) {
    && t in s.calls && s.calls[t] == [] && Nonempty(s'.calls, t)
    && var f := TopOf(s'.calls, t); (f.Popped? || f.Counting? || f.Attaching?) && BlockOf(f) == b
  }

  ghost predicate TakenAt(r: seq<State>, j: nat, t: Tid, b: Block) {
    j + 1 < |r| && Takes(r[j], t, r[j + 1], b)
  }

  /** Between m and n an allocation has taken b. */
  ghost predicate Taken(r: seq<State>, m: nat, n: nat, b: Block) {
    exists j, t :: m <= j < n && TakenAt(r, j, t, b)
  }

  lemma HomeStep(c: Config, s: State, t: Tid, step: Step, s': State, b: Block, origin: int)
    requires Do(c, s, t, step, s') && IsHome(s, b, origin)
    ensures IsHome(s', b, origin) || Takes(s, t, s', b)
  {
  }

  /** t is releasing b, and has not yet given it back. */
  predicate Returning(s: State, t: Tid, b: Block, origin: int) {
    && Nonempty(s.calls, t) && (TopOf(s.calls, t) == Detaching(b) || TopOf(s.calls, t) == Freeing(origin, b))
    && Has(s, t, b) && s.blocks[b].origin == origin
  }

  /** Steps of other threads do not touch a block in the hands of t. */
  lemma OthersLeave(c: Config, s: State, u: Tid, step: Step, s': State, t: Tid, b: Block)
    requires CallsOk(c, s) && PoolsOk(c, s) && Do(c, s, u, step, s') && u != t && t in s.calls && Has(s, t, b)
    ensures t in s'.calls && s'.calls[t] == s.calls[t] && b in s'.blocks && s'.blocks[b] == s.blocks[b]
  {
    if step == Advance {
      assert CallOk(s, u, s.calls[u][0]);
    }
  }

  lemma OwnReturn(c: Config, s: State, t: Tid, step: Step, s': State, b: Block, origin: int)
    requires ConfigOk(c) && PoolAllocator.Inv(c, s) && Do(c, s, t, step, s') && Returning(s, t, b, origin)
    ensures Returning(s', t, b, origin) || IsHome(s', b, origin)
  {
    hide TableOk, FreeOk;
    assert CallOk(s, t, s.calls[t][0]) && |s.calls[t]| == 1;
    assert BlockOk(c, s.blocks[b]);
  }

  lemma {:induction false} ReleaseProceeds(c: Config, r: seq<State>, m: nat, n: nat, t: Tid, b: Block, origin: int)
    requires Run(c, r) && m <= n < |r| && Returning(r[m], t, b, origin)
    ensures Returning(r[n], t, b, origin) || IsHome(r[n], b, origin) || Taken(r, m, n, b)
    decreases n
  {
    hide Do, ConfigOk, Returning, IsHome, Takes, BlocksOk, PoolsOk, CallsOk, HeldOk;
    if m < n {
      ReleaseProceeds(c, r, m, n - 1, t, b, origin);
      PoolAllocator.Reachable(c, r, n - 1);
      assert Next(c, r[n - 1], r[n - 1 + 1]);
      var u, step :| Do(c, r[n - 1], u, step, r[n]);
      if Taken(r, m, n - 1, b) {
        var j, v :| m <= j < n - 1 && TakenAt(r, j, v, b);
      } else if IsHome(r[n - 1], b, origin) {
        HomeStep(c, r[n - 1], u, step, r[n], b, origin);
        assert Takes(r[n - 1], u, r[n], b) ==> TakenAt(r, n - 1, u, b);
      } else {
        ReturnStep(c, r[n - 1], u, step, r[n], t, b, origin);
      }
    }
  }

  lemma ReturnStep(c: Config, s: State, u: Tid, step: Step, s': State, t: Tid, b: Block, origin: int)
    requires ConfigOk(c) && PoolAllocator.Inv(c, s) && Do(c, s, u, step, s') && Returning(s, t, b, origin)
    ensures Returning(s', t, b, origin) || IsHome(s', b, origin)
  {
    hide ConfigOk, Do, BlocksOk, PoolsOk, CallsOk, HeldOk, IsHome;
    if u == t {
      hide Returning;
      OwnReturn(c, s, t, step, s', b, origin);
    } else {
      OthersLeave(c, s, u, step, s', t, b);
    }
  }

  /** Over every run: once the thread that releases b is outside of all calls again, b is back where it came from, on
      the free list of its pool or, for the big path, gone, unless an allocation has already taken it again. */
  lemma ReleaseCompletes(c: Config, r: seq<State>, m: nat, n: nat, t: Tid, b: Block)
    requires Run(c, r) && m <= n < |r| && Nonempty(r[m].calls, t) && TopOf(r[m].calls, t) == Detaching(b)
    requires t in r[n].calls && r[n].calls[t] == []
    ensures b in r[m].blocks && (IsHome(r[n], b, r[m].blocks[b].origin) || Taken(r, m, n, b))
  {
    hide Run, IsHome, Taken, BlocksOk, PoolsOk, CallsOk, HeldOk;
    PoolAllocator.Reachable(c, r, m);
    DetachingHas(c, r[m], t, b);
    ReleaseProceeds(c, r, m, n, t, b, r[m].blocks[b].origin);
  }

  // ---- The big path loses nothing ---------------------------------------------------------------------------------

  /** b is a block of the big path whose release is under way. */
  predicate BigReturning(s: State, b: Block) {
    && b in s.blocks && s.blocks[b].origin == -1 && s.blocks[b].place.Held?
    && var t := s.blocks[b].place.t; Nonempty(s.calls, t) && TopOf(s.calls, t) == Detaching(b)
  }

  ghost function BigLeaving(s: State): set<Block> {
    set b | b in s.blocks && BigReturning(s, b)
  }

  ghost predicate BigOk(s: State) {
    |BlocksOf(s, -1)| + s.bigReturned == s.bigMade + |BigLeaving(s)|
  }

  lemma BigAllocCount(s: State, t: Tid, b: Block, a: nat)
    requires BigOk(s) && t in s.calls && s.calls[t] == [] && b !in s.blocks
    ensures BigOk(BigAlloc(s, t, b, a))
  {
    var s' := BigAlloc(s, t, b, a);
    forall x ensures x in BigLeaving(s') <==> x in BigLeaving(s) { BigAllocReturns(s, t, b, a, x); }
    assert BigLeaving(s') == BigLeaving(s);
    hide BigLeaving, BigReturning;
    assert BlocksOf(s', -1) == BlocksOf(s, -1) + {b};
  }

  lemma BigAllocReturns(s: State, t: Tid, b: Block, a: nat, x: Block)
    requires t in s.calls && s.calls[t] == [] && b !in s.blocks
    ensures BigReturning(BigAlloc(s, t, b, a), x) <==> BigReturning(s, x)
  {
  }

  lemma ReleaseCount(s: State, t: Tid, b: Block)
    requires BigOk(s) && t in s.calls && s.calls[t] == [] && IsLive(s, b)
    ensures BigOk(StartRelease(s, t, b))
  {
    var s' := StartRelease(s, t, b);
    assert BlocksOf(s', -1) == BlocksOf(s, -1);
    if s.blocks[b].origin == -1 {
      assert BigReturning(s', b);
      assert BigLeaving(s') == BigLeaving(s) + {b};
    } else {
      assert BigLeaving(s') == BigLeaving(s);
    }
  }

  lemma FreeCount(c: Config, s: State, t: Tid, b: Block)
    requires CallsOk(c, s) && BigOk(s) && Nonempty(s.calls, t) && TopOf(s.calls, t) == Detaching(b)
    requires Has(s, t, b) && s.blocks[b].origin == -1
    ensures BigOk(s.(blocks := s.blocks - {b}, calls := Pop(s.calls, t)))
  {
    var s' := s.(blocks := s.blocks - {b}, calls := Pop(s.calls, t));
    assert s.calls[t] == [Detaching(b)];
    assert BigReturning(s, b);
    assert BlocksOf(s', -1) == BlocksOf(s, -1) - {b};
    assert BigLeaving(s') == BigLeaving(s) - {b};
  }

  /** A step that neither makes, returns nor frees a block of the big path. */
  lemma SameCount(s: State, s': State)
    requires BigOk(s) && s'.bigMade == s.bigMade && s'.bigReturned == s.bigReturned
    requires forall b :: b in s.blocks && s.blocks[b].origin == -1 <==> b in s'.blocks && s'.blocks[b].origin == -1
    requires forall b :: BigReturning(s, b) <==> BigReturning(s', b)
    ensures BigOk(s')
  {
    assert BlocksOf(s', -1) == BlocksOf(s, -1);
    assert BigLeaving(s') == BigLeaving(s);
  }

  /** t moves on from one call to another, none of which returns a block of the big path, and works on block x. */
  lemma MoveCount(s: State, t: Tid, s': State, x: Block)
    requires BigOk(s) && s'.bigMade == s.bigMade && s'.bigReturned == s.bigReturned
    requires s'.calls.Keys == s.calls.Keys && forall u :: u in s.calls && u != t ==> s'.calls[u] == s.calls[u]
    requires forall b :: BigReturning(s, b) ==> s.blocks[b].place.t != t
    requires Nonempty(s'.calls, t) ==> !TopOf(s'.calls, t).Detaching?
    requires s'.blocks == s.blocks || (x in s'.blocks && s'.blocks == s.blocks[x := s'.blocks[x]])
    requires x in s'.blocks ==>
               (s'.blocks[x].origin == -1 <==> x in s.blocks && s.blocks[x].origin == -1)
               && (s'.blocks[x].place.Held? && s'.blocks != s.blocks ==> s'.blocks[x].place.t == t)
    requires x in s.blocks && s.blocks[x].place.Held? && s'.blocks != s.blocks ==> s.blocks[x].place.t == t
    ensures BigOk(s')
  {
    hide BigOk;
    SameCount(s, s');
  }

  lemma AllocateCount(c: Config, s: State, t: Tid, size: nat, b: Block, s': State)
    requires ConfigOk(c) && PoolAllocator.Inv(c, s) && BigOk(s) && Do(c, s, t, Allocate(size, b), s')
    ensures BigOk(s')
  {
    hide TableOk, BigOk;
    if size + c.header > c.max {
      BigAllocCount(s, t, b, size + c.header);
    } else if s'.wild {
      SameCount(s, s');
    } else {
      var x := BlockOf(TopOf(s'.calls, t));
      if x in s.blocks {
        assert FreeOk(s, PoolFor(c, size + c.header)) && BlockOk(c, s.blocks[x]);
      }
      MoveCount(s, t, s', x);
    }
  }

  lemma AdvanceCount(c: Config, s: State, t: Tid, s': State)
    requires ConfigOk(c) && PoolAllocator.Inv(c, s) && BigOk(s) && Nonempty(s.calls, t) && Advanced(c, s, t, s')
    ensures BigOk(s')
  {
    hide TableOk, BigOk, FreeOk, Advanced;
    var f := TopOf(s.calls, t);
    assert CallOk(s, t, f) && |s.calls[t]| == 1 by { assert CallOk(s, t, s.calls[t][0]); }
    if f.Detaching? {
      assert BlockOk(c, s.blocks[f.b]);
      DetachCount(c, s, t, f.b, s');
    } else {
      WorkCount(c, s, t, s');
    }
  }

  lemma DetachCount(c: Config, s: State, t: Tid, b: Block, s': State)
    requires ConfigOk(c) && CallsOk(c, s) && BigOk(s) && Nonempty(s.calls, t) && Advanced(c, s, t, s')
    requires TopOf(s.calls, t) == Detaching(b) && CallOk(s, t, Detaching(b)) && BlockOk(c, s.blocks[b])
    ensures BigOk(s')
  {
    hide TableOk, BigOk;
    if s.blocks[b].header > c.max { FreeCount(c, s, t, b); } else { MoveCount(s, t, s', b); }
  }

  lemma WorkCount(c: Config, s: State, t: Tid, s': State)
    requires BigOk(s) && Nonempty(s.calls, t) && Advanced(c, s, t, s') && !TopOf(s.calls, t).Detaching?
    requires CallOk(s, t, TopOf(s.calls, t)) && |s.calls[t]| == 1
    ensures BigOk(s')
  {
    hide BigOk;
    var f := TopOf(s.calls, t);
    MoveCount(s, t, s', if f.Pushed? || f.Uncounting? then 0 else f.b);
  }

  lemma {:induction false} BigCount(c: Config, r: seq<State>, n: nat)
    requires Run(c, r) && n < |r|
    ensures BigOk(r[n])
  {
    hide Do, ConfigOk, BigOk, BlocksOk, PoolsOk, CallsOk, HeldOk;
    if n == 0 {
      BigInitially(c, r[0]);
    } else {
      BigCount(c, r, n - 1);
      PoolAllocator.Reachable(c, r, n - 1);
      assert Next(c, r[n - 1], r[n - 1 + 1]);
      var t, step :| Do(c, r[n - 1], t, step, r[n]);
      BigStep(c, r[n - 1], t, step, r[n]);
    }
  }

  lemma BigStep(c: Config, s: State, t: Tid, step: Step, s': State)
    requires ConfigOk(c) && PoolAllocator.Inv(c, s) && BigOk(s) && Do(c, s, t, step, s')
    ensures BigOk(s')
  {
    hide ConfigOk, BigOk, Advanced, Acquired, Inv;
    match step
    case Allocate(size, b) => AllocateCount(c, s, t, size, b, s');
    case Release(b) => ReleaseCount(s, t, b);
    case Advance => AdvanceCount(c, s, t, s');
  }

  lemma BigInitially(c: Config, s: State)
    requires Init(c, s)
    ensures BigOk(s)
  {
    assert BlocksOf(s, -1) == {} && BigLeaving(s) == {};
  }

  /** Over every run, the blocks of the big path that exist are those made, without those whose release is complete. */
  lemma BigBlocksAreAccountedFor(c: Config, r: seq<State>, n: nat)
    requires Run(c, r) && n < |r|
    ensures |BlocksOf(r[n], -1)| == r[n].bigMade - (r[n].bigReturned - |BigLeaving(r[n])|)
    ensures (forall t :: t in r[n].calls ==> r[n].calls[t] == []) ==>
              |BlocksOf(r[n], -1)| == r[n].bigMade - r[n].bigReturned
  {
    BigCount(c, r, n);
    if forall t :: t in r[n].calls ==> r[n].calls[t] == [] {
      assert BigLeaving(r[n]) == {};
    }
  }

  // ---- Free lists are stacks ----------------------------------------------------------------------------------------

  /** t pushes b on the list of p, or pops b from it. */
  predicate Pushes(s: State, t: Tid, p: int, b: Block, s': State) {
    && p in s.pools && p in s'.pools && Nonempty(s.calls, t) && TopOf(s.calls, t) == Freeing(p, b)
    && s'.pools[p].free == [b] + s.pools[p].free
  }

  predicate Pops(s: State, t: Tid, p: int, b: Block, s': State) {
    && p in s.pools && p in s'.pools && Nonempty(s'.calls, t) && TopOf(s'.calls, t).Popped?
    && TopOf(s'.calls, t).p == p && TopOf(s'.calls, t).b == b && s.pools[p].free == [b] + s'.pools[p].free
  }

  ghost predicate ListPushed(s: State, p: int, s': State) {
    exists t, b :: Pushes(s, t, p, b, s')
  }

  ghost predicate ListPopped(s: State, p: int, s': State) {
    exists t, b :: Pops(s, t, p, b, s')
  }

  lemma ListStep(c: Config, s: State, t: Tid, step: Step, s': State, p: int)
    requires Do(c, s, t, step, s') && p in s.pools
    ensures p in s'.pools
    ensures s'.pools[p].free == s.pools[p].free || ListPushed(s, p, s') || ListPopped(s, p, s')
  {
    hide TableOk;
    if step == Advance && TopOf(s.calls, t).Freeing? && TopOf(s.calls, t).p == p {
      assert Pushes(s, t, p, TopOf(s.calls, t).b, s');
    } else if step.Allocate? && s'.pools[p].free != s.pools[p].free {
      var free := s.pools[p].free;
      assert free == [free[0]] + free[1..];
      assert Pops(s, t, p, free[0], s');
    }
  }

  /** Over every run, the free list of a pool changes only by a release that puts its block in front, or by an
      allocation that takes the front: the block released last is handed out first. */
  lemma FreeListIsAStack(c: Config, r: seq<State>, n: nat, p: int)
    requires Run(c, r) && n + 1 < |r| && p in r[n].pools
    ensures p in r[n + 1].pools
    ensures || r[n + 1].pools[p].free == r[n].pools[p].free
            || ListPushed(r[n], p, r[n + 1]) || ListPopped(r[n], p, r[n + 1])
  {
    hide Do, ConfigOk, ListPushed, ListPopped;
    assert Next(c, r[n], r[n + 1]);
    var t, step :| Do(c, r[n], t, step, r[n + 1]);
    ListStep(c, r[n], t, step, r[n + 1], p);
  }
}
