/** The pool allocator under concurrent use: `Memory::Allocate` and `Release` over `MemoryPool::Acquire` and
    `Release`, one transition per list operation, counter operation or header access. */
module PoolAllocator {
  import opened StackCount
  import opened PoolTable

  type Tid = nat
  type Block = nat

  const WORD := 0x1_0000_0000

  /** Pool sizes, table, the covered keys 0 .. covered - 1, MAX_ALLOC_SIZE, and sizeof(MemoryHeader). */
  datatype Config = Config(pools: seq<nat>, table: seq<int>, covered: nat, max: nat, header: nat)

  ghost predicate ConfigOk(c: Config) {
    TableOk(c.pools, c.table, c.covered) && c.covered <= c.max + 1 && c.covered > 0
  }

  function PoolFor(c: Config, a: nat): int
    requires a < |c.table|
  {
    c.table[a]
  }

  /** The table that the constructor builds is one the allocator can run on: an allocation size has a pool
      exactly if it is at most 7712, so the sizes from there to MAX_ALLOC_SIZE have none. */
  method BuiltConfig(header: nat) returns (c: Config)
    ensures ConfigOk(c) && c.max == 0x2000 && |c.table| == c.max + 1 && c.covered == 7713 && c.header == header
    ensures forall a: nat :: SomePoolFits(c.pools, a) <==> a <= 7712
  {
    var m := new Memory.Big();
    hide TableOk;
    c := Config(m.pools, m.table[..], 7713, 0x2000, header);
    forall a: nat ensures SomePoolFits(c.pools, a) <==> a <= 7712 {
      CoveredIffSomePoolFits(c.pools, c.table, c.covered, a);
    }
  }

  /** Where a thread is inside `Allocate` or `Release`. */
  datatype Call =
    | Popped(p: int, b: Block, a: nat)     // took b off the list, before _poolCount.fetch_sub
    | Counting(p: int, b: Block, a: nat)   // has b, before _useCount.fetch_add
    | Attaching(b: Block, a: nat)          // has b, before writing its header
    | Detaching(b: Block)                  // Release: before reading the header
    | Freeing(p: int, b: Block)            // Release: before pushing b on the list
    | Pushed(p: int)                       // Release: before _poolCount.fetch_add
    | Uncounting(p: int)                   // Release: before _useCount.fetch_sub

  /** A pool: its free list, its two 32-bit counters, and how many blocks it ever created. */
  datatype Pool = Pool(free: seq<Block>, poolCount: nat, useCount: nat, created: nat)

  /** Who has a block. */
  datatype Place = Free(p: int) | Held(t: Tid) | Live

  /** A block: its real size, the pool that made it (-1 for the big path), its header field, its place, and the
      size it was last handed out for. */
  datatype Info = Info(size: nat, origin: int, header: nat, place: Place, request: nat)

  /** `wild` is set once an allocation has gone through a table entry that was never written; then all bets are off, and
      the run ends.  Histories: `bigMade` and `bigReturned` count the blocks made on the big path, and the calls of
      `Release` with such a block. */
  datatype State = State(calls: Stacks<Call>, pools: map<int, Pool>, blocks: map<Block, Info>, wild: bool,
                         bigMade: nat, bigReturned: nat)

  // ---- Steps -------------------------------------------------------------------------------------------------

  function SetPool(s: State, p: int, q: Pool): State {
    s.(pools := s.pools[p := q])
  }

  function SetBlock(s: State, b: Block, i: Info): State {
    s.(blocks := s.blocks[b := i])
  }

  /** `_aligned_malloc`: b is new. */
  function BigAlloc(s: State, t: Tid, b: Block, a: nat): State
    requires t in s.calls
  {
    SetBlock(s, b, Info(a, -1, 0, Held(t), a)).(calls := Push(s.calls, t, Attaching(b, a)), bigMade := s.bigMade + 1)
  }

  /** `Acquire` on a nonempty list. */
  function PopFree(s: State, t: Tid, p: int, a: nat): State
    requires t in s.calls && p in s.pools && s.pools[p].free != [] && s.pools[p].free[0] in s.blocks
  {
    var q := s.pools[p];
    var b := q.free[0];
    SetBlock(SetPool(s, p, q.(free := q.free[1..])), b, s.blocks[b].(place := Held(t), request := a))
      .(calls := Push(s.calls, t, Popped(p, b, a)))
  }

  /** `Acquire` on an empty list: b is new. */
  function NewBlock(s: State, t: Tid, p: int, a: nat, b: Block, size: nat): State
    requires t in s.calls && p in s.pools
  {
    var q := s.pools[p];
    SetBlock(SetPool(s, p, q.(created := q.created + 1)), b, Info(size, p, size, Held(t), a))
      .(calls := Push(s.calls, t, Counting(p, b, a)))
  }

  function Attach(s: State, t: Tid, b: Block, a: nat): State
    requires Nonempty(s.calls, t) && b in s.blocks
  {
    SetBlock(s, b, s.blocks[b].(header := a, place := Live)).(calls := Pop(s.calls, t))
  }

  function StartRelease(s: State, t: Tid, b: Block): State
    requires t in s.calls && b in s.blocks
  {
    SetBlock(s, b, s.blocks[b].(place := Held(t)))
      .(calls := Push(s.calls, t, Detaching(b)), bigReturned := s.bigReturned + Bit(s.blocks[b].origin == -1))
  }

  function PushFree(s: State, t: Tid, p: int, b: Block): State
    requires Nonempty(s.calls, t) && p in s.pools && b in s.blocks
  {
    var q := s.pools[p];
    SetBlock(SetPool(s, p, q.(free := [b] + q.free)), b, s.blocks[b].(header := 0, place := Free(p)))
      .(calls := Replace(s.calls, t, Pushed(p)))
  }

  function FetchAdd(n: nat): nat { (n + 1) % WORD }

  function FetchSub(n: nat): nat { (n + WORD - 1) % WORD }

  datatype Step =
    | Allocate(size: nat, b: Block)  // b names the new block if one is made
    | Release(b: Block)
    | Advance

  /** `_poolTable[a]->Acquire()`. */
  ghost predicate Acquired(c: Config, s: State, t: Tid, a: nat, b: Block, s': State)
    requires t in s.calls
  {
    if a >= c.covered then s' == s.(wild := true)
    else
      && a < |c.table|
      && var p := PoolFor(c, a);
         && p in s.pools && 0 <= p < |c.pools|
         && if s.pools[p].free == [] then s' == NewBlock(s, t, p, a, b, c.pools[p])
            else s.pools[p].free[0] in s.blocks && s' == PopFree(s, t, p, a)
  }

  /** Any size may be allocated, and live blocks released. */
  ghost predicate Do(c: Config, s: State, t: Tid, step: Step, s': State) {
    !s.wild && t in s.calls &&
    match step
    case Allocate(size, b) =>
      && s.calls[t] == [] && b !in s.blocks
      && if size + c.header > c.max then s' == BigAlloc(s, t, b, size + c.header)
         else Acquired(c, s, t, size + c.header, b, s')
    case Release(b) => s.calls[t] == [] && b in s.blocks && s.blocks[b].place == Live && s' == StartRelease(s, t, b)
    case Advance => Nonempty(s.calls, t) && Advanced(c, s, t, s')
  }

  ghost predicate Advanced(c: Config, s: State, t: Tid, s': State)
    requires Nonempty(s.calls, t)
  {
    match TopOf(s.calls, t)
    case Popped(p, b, a) =>
      p in s.pools && s' == SetPool(s, p, s.pools[p].(poolCount := FetchSub(s.pools[p].poolCount)))
                            .(calls := Replace(s.calls, t, Counting(p, b, a)))
    case Counting(p, b, a) =>
      p in s.pools && s' == SetPool(s, p, s.pools[p].(useCount := FetchAdd(s.pools[p].useCount)))
                            .(calls := Replace(s.calls, t, Attaching(b, a)))
    case Attaching(b, a) => b in s.blocks && s' == Attach(s, t, b, a)
    case Detaching(b) =>
      && b in s.blocks
      && var a := s.blocks[b].header;
         if a > c.max then s' == s.(blocks := s.blocks - {b}, calls := Pop(s.calls, t))
         else a < |c.table| && s' == s.(calls := Replace(s.calls, t, Freeing(PoolFor(c, a), b)))
    case Freeing(p, b) => p in s.pools && b in s.blocks && s' == PushFree(s, t, p, b)
    case Pushed(p) =>
      p in s.pools && s' == SetPool(s, p, s.pools[p].(poolCount := FetchAdd(s.pools[p].poolCount)))
                            .(calls := Replace(s.calls, t, Uncounting(p)))
    case Uncounting(p) =>
      p in s.pools && s' == SetPool(s, p, s.pools[p].(useCount := FetchSub(s.pools[p].useCount)))
                            .(calls := Pop(s.calls, t))
  }

  ghost predicate Init(c: Config, s: State) {
    && !s.wild && s.blocks == map[] && s.bigMade == s.bigReturned == 0
    && (forall t :: t in s.calls ==> s.calls[t] == [])
    && (forall p :: p in s.pools <==> 0 <= p < |c.pools|)
    && forall p :: p in s.pools ==> s.pools[p] == Pool([], 0, 0, 0)
  }

  ghost predicate Next(c: Config, s: State, s': State) {
    exists t, step :: Do(c, s, t, step, s')
  }

  ghost predicate Run(c: Config, r: seq<State>) {
    && ConfigOk(c) && r != [] && Init(c, r[0])
    && forall i :: 0 <= i < |r| - 1 ==> Next(c, r[i], r[i + 1])
  }

  // ---- Blocks: one place each, and the right size ---------------------------------------------------------------

  /** A request of allocSize a is served by pool p, or by the big path. */
  ghost predicate Serves(c: Config, origin: int, a: nat) {
    if origin == -1 then a > c.max
    else a < c.covered && a < |c.table| && 0 <= origin < |c.pools| && PoolFor(c, a) == origin
  }

  ghost predicate BlockOk(c: Config, i: Info) {
    && (i.origin == -1 || (0 <= i.origin < |c.pools| && i.size == c.pools[i.origin]))
    && (!i.place.Free? ==> Serves(c, i.origin, i.request) && i.request <= i.size)
    && (!i.place.Free? && i.origin == -1 ==> i.size == i.request)
    && (i.place.Free? ==> i.place.p == i.origin && i.header == 0)
    && (i.place.Live? ==> i.header == i.request)
  }

  ghost predicate BlocksOk(c: Config, s: State) {
    forall b :: b in s.blocks ==> BlockOk(c, s.blocks[b])
  }

  /** The free list of pool p holds exactly the blocks whose place it is, each once. */
  ghost predicate FreeOk(s: State, p: int)
    requires p in s.pools
  {
    var free := s.pools[p].free;
    && (forall i, j :: 0 <= i < j < |free| ==> free[i] != free[j])
    && (forall i :: 0 <= i < |free| ==> free[i] in s.blocks && s.blocks[free[i]].place == Free(p))
    && forall b :: b in s.blocks && s.blocks[b].place == Free(p) ==> b in free
  }

  predicate Has(s: State, t: Tid, b: Block) {
    b in s.blocks && s.blocks[b].place == Held(t)
  }

  /** What the call of thread t knows about its block. */
  ghost predicate CallOk(s: State, t: Tid, call: Call) {
    match call
    case Popped(p, b, a) => Has(s, t, b) && s.blocks[b].origin == p && s.blocks[b].request == a && p in s.pools
    case Counting(p, b, a) => Has(s, t, b) && s.blocks[b].origin == p && s.blocks[b].request == a && p in s.pools
    case Attaching(b, a) => Has(s, t, b) && s.blocks[b].request == a
    case Detaching(b) => Has(s, t, b) && s.blocks[b].header == s.blocks[b].request
    case Freeing(p, b) => Has(s, t, b) && s.blocks[b].origin == p && p in s.pools
    case Pushed(p) => p in s.pools
    case Uncounting(p) => p in s.pools
  }

  ghost predicate CallsOk(c: Config, s: State) {
    forall t :: t in s.calls ==> |s.calls[t]| <= 1 && (s.calls[t] != [] ==> CallOk(s, t, s.calls[t][0]))
  }

  function BlockOf(call: Call): Block
    requires !call.Pushed? && !call.Uncounting?
  {
    call.b
  }

  /** A held block is in the hands of exactly the call that works on it. */
  ghost predicate HeldOk(s: State) {
    forall b :: b in s.blocks && s.blocks[b].place.Held? ==>
      var t := s.blocks[b].place.t;
      && t in s.calls && s.calls[t] != []
      && !s.calls[t][0].Pushed? && !s.calls[t][0].Uncounting? && BlockOf(s.calls[t][0]) == b
  }

  ghost predicate PoolsOk(c: Config, s: State) {
    (forall p :: p in s.pools <==> 0 <= p < |c.pools|) && forall p :: p in s.pools ==> FreeOk(s, p)
  }

  ghost predicate Inv(c: Config, s: State) {
    BlocksOk(c, s) && PoolsOk(c, s) && CallsOk(c, s) && HeldOk(s)
  }

  /** A lookup of the table lands in the pool whose blocks are large enough. */
  lemma LookupFits(c: Config, a: nat)
    requires ConfigOk(c) && a < c.covered
    ensures a < |c.table| && 0 <= PoolFor(c, a) < |c.pools|
    ensures a <= c.pools[PoolFor(c, a)] && Serves(c, PoolFor(c, a), a)
  {
  }

  /** Calls of other threads do not notice a change of a block that they do not hold. */
  ghost predicate Unheard(s: State, s': State, t: Tid) {
    && s'.pools.Keys == s.pools.Keys
    && (forall b :: b in s.blocks && s.blocks[b].place.Held? && s.blocks[b].place.t != t ==>
          b in s'.blocks && s'.blocks[b] == s.blocks[b])
    && s'.calls.Keys == s.calls.Keys
    && forall u :: u in s.calls && u != t ==> s'.calls[u] == s.calls[u]
  }

  lemma CallsKept(c: Config, s: State, s': State, t: Tid)
    requires CallsOk(c, s) && Unheard(s, s', t) && t in s'.calls
    requires |s'.calls[t]| <= 1 && (s'.calls[t] != [] ==> CallOk(s', t, s'.calls[t][0]))
    ensures CallsOk(c, s')
  {
    forall u | u in s'.calls ensures |s'.calls[u]| <= 1 && (s'.calls[u] != [] ==> CallOk(s', u, s'.calls[u][0])) {
      if u != t { assert s'.calls[u] == s.calls[u]; }
    }
  }

  /** A block that is neither on nor moving to a free list may change freely. */
  lemma FreeKept(s: State, s': State, p: int, b: Block)
    requires p in s.pools && FreeOk(s, p) && p in s'.pools && s'.pools[p].free == s.pools[p].free
    requires forall x :: x != b ==>
               (x in s'.blocks <==> x in s.blocks) && (x in s.blocks ==> s'.blocks[x] == s.blocks[x])
    requires b in s.blocks ==> s.blocks[b].place != Free(p)
    requires b in s'.blocks ==> s'.blocks[b].place != Free(p)
    ensures FreeOk(s', p)
  {
  }

  /** An idle thread takes a block that no call holds. */
  lemma TakenKeeps(c: Config, s: State, s': State, t: Tid, b: Block, f: Call)
    requires BlocksOk(c, s) && CallsOk(c, s) && HeldOk(s) && t in s.calls && s.calls[t] == []
    requires s'.calls == Push(s.calls, t, f) && !f.Pushed? && !f.Uncounting? && BlockOf(f) == b && CallOk(s', t, f)
    requires b in s'.blocks && s'.blocks == s.blocks[b := s'.blocks[b]] && BlockOk(c, s'.blocks[b])
    requires b in s.blocks ==> !s.blocks[b].place.Held?
    requires s'.blocks[b].place == Held(t) && s'.pools.Keys == s.pools.Keys
    ensures BlocksOk(c, s') && CallsOk(c, s') && HeldOk(s')
  {
    hide BlockOk, CallOk;
    CallsKept(c, s, s', t);
  }

  lemma BigAllocKeeps(c: Config, s: State, t: Tid, b: Block, a: nat)
    requires Inv(c, s) && t in s.calls && s.calls[t] == [] && b !in s.blocks && a > c.max
    ensures Inv(c, BigAlloc(s, t, b, a))
  {
    var s' := BigAlloc(s, t, b, a);
    forall p | p in s'.pools ensures FreeOk(s', p) { FreeKept(s, s', p, b); }
    hide BlocksOk, CallsOk, HeldOk, FreeOk;
    TakenKeeps(c, s, s', t, b, Attaching(b, a));
  }

  lemma NewBlockKeeps(c: Config, s: State, t: Tid, a: nat, b: Block)
    requires ConfigOk(c) && Inv(c, s) && t in s.calls && s.calls[t] == [] && b !in s.blocks && a < c.covered
    requires a < |c.table| && PoolFor(c, a) in s.pools
    ensures 0 <= PoolFor(c, a) < |c.pools| && Inv(c, NewBlock(s, t, PoolFor(c, a), a, b, c.pools[PoolFor(c, a)]))
  {
    LookupFits(c, a);
    var p0 := PoolFor(c, a);
    var s' := NewBlock(s, t, p0, a, b, c.pools[p0]);
    hide TableOk;
    forall p | p in s'.pools ensures FreeOk(s', p) { FreeKept(s, s', p, b); }
    hide BlocksOk, CallsOk, HeldOk, FreeOk;
    TakenKeeps(c, s, s', t, b, Counting(p0, b, a));
  }

  lemma PopFreeKeeps(c: Config, s: State, t: Tid, a: nat)
    requires ConfigOk(c) && Inv(c, s) && t in s.calls && s.calls[t] == [] && a < c.covered && a < |c.table|
    requires var p := PoolFor(c, a); p in s.pools && s.pools[p].free != [] && s.pools[p].free[0] in s.blocks
    ensures Inv(c, PopFree(s, t, PoolFor(c, a), a))
  {
    LookupFits(c, a);
    var p0 := PoolFor(c, a);
    var s' := PopFree(s, t, p0, a);
    var b := s.pools[p0].free[0];
    hide TableOk;
    assert FreeOk(s, p0) && BlockOk(c, s.blocks[b]);
    forall p | p in s'.pools ensures FreeOk(s', p) {
      if p != p0 { FreeKept(s, s', p, b); } else { FreePopped(s, s', p, b); }
    }
    hide BlocksOk, CallsOk, HeldOk, FreeOk;
    TakenKeeps(c, s, s', t, b, Popped(p0, b, a));
  }

  lemma FreePopped(s: State, s': State, p: int, b: Block)
    requires p in s.pools && FreeOk(s, p) && s.pools[p].free != [] && b == s.pools[p].free[0]
    requires p in s'.pools && s'.pools[p].free == s.pools[p].free[1..]
    requires b in s'.blocks && s'.blocks[b].place != Free(p) && s'.blocks == s.blocks[b := s'.blocks[b]]
    ensures FreeOk(s', p)
  {
    var free, free' := s.pools[p].free, s'.pools[p].free;
    assert forall i :: 0 <= i < |free'| ==> free'[i] == free[i + 1];
    forall x | x in s'.blocks && s'.blocks[x].place == Free(p) ensures x in free' {
      var i :| 0 <= i < |free| && free[i] == x;
      assert i > 0 && free'[i - 1] == x;
    }
  }

  lemma FreePushed(s: State, s': State, p: int, b: Block)
    requires p in s.pools && FreeOk(s, p) && b in s.blocks && s.blocks[b].place != Free(p)
    requires p in s'.pools && s'.pools[p].free == [b] + s.pools[p].free
    requires b in s'.blocks && s'.blocks[b].place == Free(p) && s'.blocks == s.blocks[b := s'.blocks[b]]
    ensures FreeOk(s', p)
  {
    var free, free' := s.pools[p].free, s'.pools[p].free;
    assert b !in free;
    assert forall i :: 0 < i < |free'| ==> free'[i] == free[i - 1];
    forall i, j | 0 <= i < j < |free'| ensures free'[i] != free'[j] {
      assert free'[j] == free[j - 1] && free[j - 1] in free;
    }
    forall x | x in s'.blocks && s'.blocks[x].place == Free(p) ensures x in free' {
      if x != b { assert x in free; }
    }
  }

  lemma AttachKeeps(c: Config, s: State, t: Tid, b: Block, a: nat)
    requires Inv(c, s) && Nonempty(s.calls, t) && TopOf(s.calls, t) == Attaching(b, a) && b in s.blocks
    ensures Inv(c, Attach(s, t, b, a))
  {
    var s' := Attach(s, t, b, a);
    assert CallOk(s, t, s.calls[t][0]) && |s.calls[t]| == 1;
    forall p | p in s'.pools ensures FreeOk(s', p) { FreeKept(s, s', p, b); }
    CallsKept(c, s, s', t);
  }

  lemma StartReleaseKeeps(c: Config, s: State, t: Tid, b: Block)
    requires Inv(c, s) && t in s.calls && s.calls[t] == [] && b in s.blocks && s.blocks[b].place == Live
    ensures Inv(c, StartRelease(s, t, b))
  {
    var s' := StartRelease(s, t, b);
    assert BlockOk(c, s.blocks[b]);
    forall p | p in s'.pools ensures FreeOk(s', p) { FreeKept(s, s', p, b); }
    hide BlocksOk, CallsOk, HeldOk, FreeOk;
    TakenKeeps(c, s, s', t, b, Detaching(b));
  }

  lemma FreeBigKeeps(c: Config, s: State, t: Tid, b: Block)
    requires Inv(c, s) && Nonempty(s.calls, t) && TopOf(s.calls, t) == Detaching(b) && b in s.blocks
    requires s.blocks[b].header > c.max
    ensures Inv(c, s.(blocks := s.blocks - {b}, calls := Pop(s.calls, t)))
  {
    var s' := s.(blocks := s.blocks - {b}, calls := Pop(s.calls, t));
    assert CallOk(s, t, s.calls[t][0]) && |s.calls[t]| == 1;
    forall p | p in s'.pools ensures FreeOk(s', p) { FreeKept(s, s', p, b); }
    CallsKept(c, s, s', t);
  }

  /** The header of a held block still names the pool the block came from. */
  lemma DetachKeeps(c: Config, s: State, t: Tid, b: Block)
    requires ConfigOk(c) && Inv(c, s) && Nonempty(s.calls, t) && TopOf(s.calls, t) == Detaching(b) && b in s.blocks
    requires s.blocks[b].header <= c.max
    ensures s.blocks[b].header < c.covered && s.blocks[b].header < |c.table|
    ensures PoolFor(c, s.blocks[b].header) == s.blocks[b].origin
    ensures Inv(c, s.(calls := Replace(s.calls, t, Freeing(PoolFor(c, s.blocks[b].header), b))))
  {
    hide TableOk;
    assert CallOk(s, t, s.calls[t][0]) && |s.calls[t]| == 1;
    assert BlockOk(c, s.blocks[b]);
    var f := Freeing(PoolFor(c, s.blocks[b].header), b);
    var s' := s.(calls := Replace(s.calls, t, f));
    assert CallOk(s', t, f);
    hide Inv, CallOk;
    CountKeeps(c, s, t, f, s');
  }

  /** The call that holds a block gives it up. */
  lemma GivenBackKeeps(c: Config, s: State, s': State, t: Tid, b: Block, f: Call)
    requires BlocksOk(c, s) && CallsOk(c, s) && HeldOk(s) && Nonempty(s.calls, t)
    requires s'.calls == Replace(s.calls, t, f) && CallOk(s', t, f) && |s.calls[t]| == 1
    requires b in s.blocks && s.blocks[b].place == Held(t)
    requires b in s'.blocks && s'.blocks == s.blocks[b := s'.blocks[b]] && BlockOk(c, s'.blocks[b])
    requires !s'.blocks[b].place.Held? && s'.pools.Keys == s.pools.Keys
    ensures BlocksOk(c, s') && CallsOk(c, s') && HeldOk(s')
  {
    hide BlockOk, CallOk;
    assert s.calls[t][0] == TopOf(s.calls, t);
    CallsKept(c, s, s', t);
  }

  lemma PushFreeKeeps(c: Config, s: State, t: Tid, p0: int, b: Block)
    requires Inv(c, s) && Nonempty(s.calls, t) && TopOf(s.calls, t) == Freeing(p0, b) && b in s.blocks && p0 in s.pools
    ensures Inv(c, PushFree(s, t, p0, b))
  {
    var s' := PushFree(s, t, p0, b);
    assert CallOk(s, t, s.calls[t][0]) && |s.calls[t]| == 1;
    forall p | p in s'.pools ensures FreeOk(s', p) {
      if p != p0 { FreeKept(s, s', p, b); } else { FreePushed(s, s', p, b); }
    }
    hide FreeOk;
    GivenBackKeeps(c, s, s', t, b, Pushed(p0));
  }

  predicate SameBlock(g: Call, f: Call) {
    || (g.Pushed? && f.Uncounting?)
    || (!g.Pushed? && !g.Uncounting? && !f.Pushed? && !f.Uncounting? && BlockOf(f) == BlockOf(g))
  }

  /** A counter step: no block and no free list changes. */
  lemma CountKeeps(c: Config, s: State, t: Tid, f: Call, s': State)
    requires Inv(c, s) && Nonempty(s.calls, t) && s'.blocks == s.blocks && s'.pools.Keys == s.pools.Keys
    requires forall p :: p in s.pools ==> s'.pools[p].free == s.pools[p].free
    requires s'.calls == Replace(s.calls, t, f) && CallOk(s', t, f)
    requires SameBlock(TopOf(s.calls, t), f)
    ensures Inv(c, s')
  {
    assert |s.calls[t]| == 1;
    forall p | p in s'.pools ensures FreeOk(s', p) { assert FreeOk(s, p); }
    CallsKept(c, s, s', t);
  }

  lemma LastCountKeeps(c: Config, s: State, t: Tid, s': State)
    requires Inv(c, s) && Nonempty(s.calls, t) && s'.blocks == s.blocks && s'.pools.Keys == s.pools.Keys
    requires forall p :: p in s.pools ==> s'.pools[p].free == s.pools[p].free
    requires s'.calls == Pop(s.calls, t) && TopOf(s.calls, t).Uncounting?
    ensures Inv(c, s')
  {
    assert |s.calls[t]| == 1;
    forall p | p in s'.pools ensures FreeOk(s', p) { assert FreeOk(s, p); }
    CallsKept(c, s, s', t);
  }

  lemma AdvanceKeeps(c: Config, s: State, t: Tid, s': State)
    requires ConfigOk(c) && Inv(c, s) && Nonempty(s.calls, t) && Advanced(c, s, t, s')
    ensures Inv(c, s')
  {
    hide BlocksOk, PoolsOk, HeldOk, TableOk;
    assert CallOk(s, t, TopOf(s.calls, t)) && |s.calls[t]| == 1;
    match TopOf(s.calls, t)
    case Popped(p, b, a) => CountKeeps(c, s, t, Counting(p, b, a), s');
    case Counting(p, b, a) => CountKeeps(c, s, t, Attaching(b, a), s');
    case Attaching(b, a) => AttachKeeps(c, s, t, b, a);
    case Detaching(b) => if s.blocks[b].header > c.max { FreeBigKeeps(c, s, t, b); } else { DetachKeeps(c, s, t, b); }
    case Freeing(p, b) => PushFreeKeeps(c, s, t, p, b);
    case Pushed(p) => CountKeeps(c, s, t, Uncounting(p), s');
    case Uncounting(p) => LastCountKeeps(c, s, t, s');
  }

  lemma WildKeeps(c: Config, s: State)
    requires Inv(c, s)
    ensures Inv(c, s.(wild := true))
  {
    forall p | p in s.pools ensures FreeOk(s.(wild := true), p) { assert FreeOk(s, p); }
  }

  lemma StepKeeps(c: Config, s: State, t: Tid, step: Step, s': State)
    requires ConfigOk(c) && Inv(c, s) && Do(c, s, t, step, s')
    ensures Inv(c, s')
  {
    hide BlocksOk, PoolsOk, CallsOk, HeldOk, TableOk, Advanced, NewBlock, PopFree, BigAlloc, StartRelease;
    match step
    case Allocate(size, b) =>
      var a := size + c.header;
      if a > c.max { BigAllocKeeps(c, s, t, b, a); }
      else if a >= c.covered { WildKeeps(c, s); }
      else if s.pools[PoolFor(c, a)].free == [] { NewBlockKeeps(c, s, t, a, b); }
      else { PopFreeKeeps(c, s, t, a); }
    case Release(b) => StartReleaseKeeps(c, s, t, b);
    case Advance => AdvanceKeeps(c, s, t, s');
  }

  lemma {:induction false} Reachable(c: Config, r: seq<State>, n: nat)
    requires Run(c, r) && n < |r|
    ensures Inv(c, r[n])
  {
    hide Inv, Do, ConfigOk;
    if n == 0 {
      Initially(c, r[0]);
    } else {
      Reachable(c, r, n - 1);
      assert Next(c, r[n - 1], r[n - 1 + 1]);
      var t, step :| Do(c, r[n - 1], t, step, r[n]);
      StepKeeps(c, r[n - 1], t, step, r[n]);
    }
  }

  lemma Initially(c: Config, s: State)
    requires Init(c, s)
    ensures Inv(c, s)
  {
  }

  // ---- Counters -------------------------------------------------------------------------------------------------

  function InPopped(p: int): Call -> bool { (f: Call) => f.Popped? && f.p == p }

  function InCounting(p: int): Call -> bool { (f: Call) => f.Counting? && f.p == p }

  function InPushed(p: int): Call -> bool { (f: Call) => f.Pushed? && f.p == p }

  function InUncounting(p: int): Call -> bool { (f: Call) => f.Uncounting? && f.p == p }

  /** Free blocks, counting those popped but not yet subtracted, not those pushed but not yet added. */
  ghost function FreeTotal(calls: Stacks<Call>, q: Pool, p: int): int {
    |q.free| + Count(calls, InPopped(p)) - Count(calls, InPushed(p))
  }

  /** Blocks in use, as far as the operations under way have reported them. */
  ghost function UseTotal(calls: Stacks<Call>, q: Pool, p: int): int {
    q.created - |q.free| - Count(calls, InPopped(p)) - Count(calls, InCounting(p))
      + Count(calls, InPushed(p)) + Count(calls, InUncounting(p))
  }

  /** Each counter lags behind the truth by exactly the operations between their list step and their counter
      step, modulo 2^32. */
  ghost predicate CountersOk(calls: Stacks<Call>, q: Pool, p: int) {
    q.poolCount == FreeTotal(calls, q, p) % WORD && q.useCount == UseTotal(calls, q, p) % WORD
  }

  lemma WrapAdd(x: int)
    ensures FetchAdd(x % WORD) == (x + 1) % WORD && FetchSub(x % WORD) == (x - 1) % WORD
  {
    var q := x / WORD;
    assert x == q * WORD + x % WORD;
    if x % WORD == WORD - 1 {
      assert x + 1 == (q + 1) * WORD;
    }
    if x % WORD == 0 {
      assert x - 1 == (q - 1) * WORD + (WORD - 1);
    }
  }

  lemma CountsPushed(calls: Stacks<Call>, t: Tid, f: Call, p: int)
    requires t in calls
    ensures Count(Push(calls, t, f), InPopped(p)) == Count(calls, InPopped(p)) + Bit(InPopped(p)(f))
    ensures Count(Push(calls, t, f), InCounting(p)) == Count(calls, InCounting(p)) + Bit(InCounting(p)(f))
    ensures Count(Push(calls, t, f), InPushed(p)) == Count(calls, InPushed(p)) + Bit(InPushed(p)(f))
    ensures Count(Push(calls, t, f), InUncounting(p)) == Count(calls, InUncounting(p)) + Bit(InUncounting(p)(f))
  {
    StackCount.Pushed(calls, t, f, InPopped(p));
    StackCount.Pushed(calls, t, f, InCounting(p));
    StackCount.Pushed(calls, t, f, InPushed(p));
    StackCount.Pushed(calls, t, f, InUncounting(p));
  }

  lemma CountsPopped(calls: Stacks<Call>, t: Tid, p: int)
    requires Nonempty(calls, t)
    ensures var f := TopOf(calls, t);
            && Count(Pop(calls, t), InPopped(p)) == Count(calls, InPopped(p)) - Bit(InPopped(p)(f))
            && Count(Pop(calls, t), InCounting(p)) == Count(calls, InCounting(p)) - Bit(InCounting(p)(f))
            && Count(Pop(calls, t), InPushed(p)) == Count(calls, InPushed(p)) - Bit(InPushed(p)(f))
            && Count(Pop(calls, t), InUncounting(p)) == Count(calls, InUncounting(p)) - Bit(InUncounting(p)(f))
  {
    StackCount.Popped(calls, t, InPopped(p));
    StackCount.Popped(calls, t, InCounting(p));
    StackCount.Popped(calls, t, InPushed(p));
    StackCount.Popped(calls, t, InUncounting(p));
  }

  lemma CountsReplaced(calls: Stacks<Call>, t: Tid, g: Call, p: int)
    requires Nonempty(calls, t)
    ensures var f, calls' := TopOf(calls, t), Replace(calls, t, g);
            && Count(calls', InPopped(p)) == Count(calls, InPopped(p)) - Bit(InPopped(p)(f)) + Bit(InPopped(p)(g))
            && Count(calls', InCounting(p))
               == Count(calls, InCounting(p)) - Bit(InCounting(p)(f)) + Bit(InCounting(p)(g))
            && Count(calls', InPushed(p)) == Count(calls, InPushed(p)) - Bit(InPushed(p)(f)) + Bit(InPushed(p)(g))
            && Count(calls', InUncounting(p))
               == Count(calls, InUncounting(p)) - Bit(InUncounting(p)(f)) + Bit(InUncounting(p)(g))
  {
    Replaced(calls, t, g, InPopped(p));
    Replaced(calls, t, g, InCounting(p));
    Replaced(calls, t, g, InPushed(p));
    Replaced(calls, t, g, InUncounting(p));
  }

  ghost predicate AllCountersOk(s: State) {
    forall p :: p in s.pools ==> CountersOk(s.calls, s.pools[p], p)
  }

  /** What a call under way adds to the two totals of pool p. */
  function Weight(f: Call, p: int): (int, int) {
    if InPopped(p)(f) then (1, -1) else if InCounting(p)(f) then (0, -1)
    else if InPushed(p)(f) then (-1, 1) else if InUncounting(p)(f) then (0, 1) else (0, 0)
  }

  lemma CallWeight(calls: Stacks<Call>, q: Pool, p: int, t: Tid, f: Call)
    requires t in calls
    ensures FreeTotal(Push(calls, t, f), q, p) == FreeTotal(calls, q, p) + Weight(f, p).0
    ensures UseTotal(Push(calls, t, f), q, p) == UseTotal(calls, q, p) + Weight(f, p).1
  {
    CountsPushed(calls, t, f, p);
  }

  lemma ReturnWeight(calls: Stacks<Call>, q: Pool, p: int, t: Tid)
    requires Nonempty(calls, t)
    ensures FreeTotal(Pop(calls, t), q, p) == FreeTotal(calls, q, p) - Weight(TopOf(calls, t), p).0
    ensures UseTotal(Pop(calls, t), q, p) == UseTotal(calls, q, p) - Weight(TopOf(calls, t), p).1
  {
    CountsPopped(calls, t, p);
  }

  lemma MoveWeight(calls: Stacks<Call>, q: Pool, p: int, t: Tid, g: Call)
    requires Nonempty(calls, t)
    ensures FreeTotal(Replace(calls, t, g), q, p)
            == FreeTotal(calls, q, p) - Weight(TopOf(calls, t), p).0 + Weight(g, p).0
    ensures UseTotal(Replace(calls, t, g), q, p)
            == UseTotal(calls, q, p) - Weight(TopOf(calls, t), p).1 + Weight(g, p).1
  {
    CountsReplaced(calls, t, g, p);
  }

  /** The totals of a pool whose fields change. */
  lemma FieldWeight(calls: Stacks<Call>, q: Pool, q': Pool, p: int)
    ensures FreeTotal(calls, q', p) == FreeTotal(calls, q, p) + |q'.free| - |q.free|
    ensures UseTotal(calls, q', p) == UseTotal(calls, q, p) + (q'.created - q.created) - (|q'.free| - |q.free|)
  {
  }

  lemma AllocateCounters(c: Config, s: State, t: Tid, size: nat, b: Block, s': State)
    requires AllCountersOk(s) && Do(c, s, t, Allocate(size, b), s')
    ensures AllCountersOk(s')
  {
    hide FreeTotal, UseTotal;
    forall p | p in s'.pools ensures CountersOk(s'.calls, s'.pools[p], p) {
      assert CountersOk(s.calls, s.pools[p], p);
      if !s'.wild {
        var f := TopOf(s'.calls, t);
        CallWeight(s.calls, s.pools[p], p, t, f);
        FieldWeight(Push(s.calls, t, f), s.pools[p], s'.pools[p], p);
      }
    }
  }

  lemma ReleaseCounters(c: Config, s: State, t: Tid, b: Block, s': State)
    requires AllCountersOk(s) && Do(c, s, t, Release(b), s')
    ensures AllCountersOk(s')
  {
    hide FreeTotal, UseTotal;
    forall p | p in s'.pools ensures CountersOk(s'.calls, s'.pools[p], p) {
      assert CountersOk(s.calls, s.pools[p], p);
      CallWeight(s.calls, s.pools[p], p, t, Detaching(b));
    }
  }

  /** A step inside a call: it moves to g, and pool p0 becomes q. */
  lemma MoveCounters(s: State, t: Tid, p0: int, q: Pool, g: Call)
    requires AllCountersOk(s) && Nonempty(s.calls, t) && p0 in s.pools && CountersOk(Replace(s.calls, t, g), q, p0)
    requires forall p :: p != p0 ==> Weight(TopOf(s.calls, t), p) == Weight(g, p)
    ensures AllCountersOk(s.(pools := s.pools[p0 := q], calls := Replace(s.calls, t, g)))
  {
    hide FreeTotal, UseTotal;
    forall p | p in s.pools && p != p0 ensures CountersOk(Replace(s.calls, t, g), s.pools[p], p) {
      assert CountersOk(s.calls, s.pools[p], p);
      MoveWeight(s.calls, s.pools[p], p, t, g);
    }
  }

  lemma AdvanceCounters(c: Config, s: State, t: Tid, s': State)
    requires AllCountersOk(s) && Nonempty(s.calls, t) && Advanced(c, s, t, s')
    ensures AllCountersOk(s')
  {
    hide FreeTotal, UseTotal, FetchAdd, FetchSub, AllCountersOk;
    match TopOf(s.calls, t)
    case Popped(p, b, a) => CountMoves(s, t, p, Counting(p, b, a), s'.pools[p]);
    case Counting(p, b, a) => CountMoves(s, t, p, Attaching(b, a), s'.pools[p]);
    case Pushed(p) => CountMoves(s, t, p, Uncounting(p), s'.pools[p]);
    case Uncounting(p) => LastCount(s, t, p);
    case Freeing(p, b) =>
      CountMoves(s, t, p, Pushed(p), s'.pools[p]);
      SameCounters(s.(pools := s'.pools, calls := s'.calls), s');
    case _ => NoCount(c, s, t, s');
  }

  lemma CountMoves(s: State, t: Tid, p: int, g: Call, q: Pool)
    requires AllCountersOk(s) && Nonempty(s.calls, t) && p in s.pools
    requires forall p' :: p' != p ==> Weight(TopOf(s.calls, t), p') == Weight(g, p')
    requires q.created == s.pools[p].created
    requires var d := |q.free| - |s.pools[p].free|;
             var dw := Weight(g, p).0 - Weight(TopOf(s.calls, t), p).0;
             && (d + dw == 0 ==> q.poolCount == s.pools[p].poolCount)
             && (d + dw == 1 ==> q.poolCount == FetchAdd(s.pools[p].poolCount))
             && (d + dw == -1 ==> q.poolCount == FetchSub(s.pools[p].poolCount))
             && -1 <= d + dw <= 1
    requires var d := |q.free| - |s.pools[p].free|;
             var dw := Weight(g, p).1 - Weight(TopOf(s.calls, t), p).1;
             && (dw - d == 0 ==> q.useCount == s.pools[p].useCount)
             && (dw - d == 1 ==> q.useCount == FetchAdd(s.pools[p].useCount))
             && 0 <= dw - d <= 1
    ensures AllCountersOk(s.(pools := s.pools[p := q], calls := Replace(s.calls, t, g)))
  {
    hide FreeTotal, UseTotal, FetchAdd, FetchSub, Weight;
    assert CountersOk(s.calls, s.pools[p], p);
    MoveWeight(s.calls, s.pools[p], p, t, g);
    FieldWeight(Replace(s.calls, t, g), s.pools[p], q, p);
    WrapAdd(FreeTotal(s.calls, s.pools[p], p));
    WrapAdd(UseTotal(s.calls, s.pools[p], p));
    MoveCounters(s, t, p, q, g);
  }

  lemma LastCount(s: State, t: Tid, p0: int)
    requires AllCountersOk(s) && Nonempty(s.calls, t) && TopOf(s.calls, t) == Uncounting(p0) && p0 in s.pools
    ensures var q := s.pools[p0].(useCount := FetchSub(s.pools[p0].useCount));
            AllCountersOk(SetPool(s, p0, q).(calls := Pop(s.calls, t)))
  {
    hide FreeTotal, UseTotal, FetchSub;
    var s' := SetPool(s, p0, s.pools[p0].(useCount := FetchSub(s.pools[p0].useCount))).(calls := Pop(s.calls, t));
    forall p | p in s'.pools ensures CountersOk(s'.calls, s'.pools[p], p) {
      assert CountersOk(s.calls, s.pools[p], p);
      ReturnWeight(s.calls, s.pools[p], p, t);
      FieldWeight(s'.calls, s.pools[p], s'.pools[p], p);
      WrapAdd(UseTotal(s.calls, s.pools[p], p));
    }
  }

  lemma NoCount(c: Config, s: State, t: Tid, s': State)
    requires AllCountersOk(s) && Nonempty(s.calls, t) && Advanced(c, s, t, s')
    requires TopOf(s.calls, t).Attaching? || TopOf(s.calls, t).Detaching?
    ensures AllCountersOk(s')
  {
    hide FreeTotal, UseTotal;
    forall p | p in s'.pools ensures CountersOk(s'.calls, s'.pools[p], p) {
      assert CountersOk(s.calls, s.pools[p], p);
      if s'.calls == Pop(s.calls, t) {
        ReturnWeight(s.calls, s.pools[p], p, t);
      } else {
        MoveWeight(s.calls, s.pools[p], p, t, TopOf(s'.calls, t));
      }
    }
  }

  lemma SameCounters(s: State, s': State)
    requires AllCountersOk(s) && s'.calls == s.calls && s'.pools == s.pools
    ensures AllCountersOk(s')
  {
  }

  lemma {:induction false} CountersReachable(c: Config, r: seq<State>, n: nat)
    requires Run(c, r) && n < |r|
    ensures AllCountersOk(r[n])
  {
    hide Do, AllCountersOk, Advanced;
    if n == 0 {
      CountersInitially(c, r[0]);
    } else {
      CountersReachable(c, r, n - 1);
      assert Next(c, r[n - 1], r[n - 1 + 1]);
      var t, step :| Do(c, r[n - 1], t, step, r[n]);
      StepCounters(c, r[n - 1], t, step, r[n]);
    }
  }

  lemma StepCounters(c: Config, s: State, t: Tid, step: Step, s': State)
    requires AllCountersOk(s) && Do(c, s, t, step, s')
    ensures AllCountersOk(s')
  {
    hide AllCountersOk, Advanced, Acquired;
    match step
    case Allocate(size, b) => AllocateCounters(c, s, t, size, b, s');
    case Release(b) => ReleaseCounters(c, s, t, b, s');
    case Advance => AdvanceCounters(c, s, t, s');
  }

  lemma CountersInitially(c: Config, s: State)
    requires Init(c, s)
    ensures AllCountersOk(s)
  {
    forall p | p in s.pools ensures CountersOk(s.calls, s.pools[p], p) {
      NothingUnderWay(s.calls, p);
    }
  }

  lemma NothingUnderWay(calls: Stacks<Call>, p: int)
    requires forall t :: t in calls ==> calls[t] == []
    ensures Count(calls, InPopped(p)) == Count(calls, InCounting(p)) == 0
    ensures Count(calls, InPushed(p)) == Count(calls, InUncounting(p)) == 0
  {
    Unoccupied(calls, InPopped(p));
    Unoccupied(calls, InCounting(p));
    Unoccupied(calls, InPushed(p));
    Unoccupied(calls, InUncounting(p));
  }

  // ---- How many blocks a pool has made ------------------------------------------------------------------------------

  ghost function BlocksOf(s: State, p: int): set<Block> {
    set b | b in s.blocks && s.blocks[b].origin == p
  }

  ghost predicate CreatedOk(s: State) {
    forall p :: p in s.pools ==> p >= 0 && s.pools[p].created == |BlocksOf(s, p)|
  }

  lemma CreatedKept(c: Config, s: State, t: Tid, step: Step, s': State)
    requires ConfigOk(c) && Inv(c, s) && CreatedOk(s) && Do(c, s, t, step, s')
    ensures CreatedOk(s')
  {
    SamePools(c, s, t, step, s');
    hide ConfigOk, Inv, Do, BlocksOf;
    forall p | p in s'.pools ensures p >= 0 && s'.pools[p].created == |BlocksOf(s', p)| {
      CreatedPool(c, s, t, step, s', p);
    }
  }

  lemma SamePools(c: Config, s: State, t: Tid, step: Step, s': State)
    requires Do(c, s, t, step, s')
    ensures s'.pools.Keys == s.pools.Keys
  {
  }

  /** An allocation that finds the free list of p empty. */
  ghost predicate MakesBlock(c: Config, s: State, step: Step, p: int)
    requires p in s.pools
  {
    && step.Allocate? && s.pools[p].free == []
    && var a := step.size + c.header;
       a <= c.max && a < c.covered && a < |c.table| && PoolFor(c, a) == p
  }

  lemma CreatedPool(c: Config, s: State, t: Tid, step: Step, s': State, p: int)
    requires ConfigOk(c) && Inv(c, s) && CreatedOk(s) && Do(c, s, t, step, s') && p in s.pools
    ensures p in s'.pools && s'.pools[p].created == |BlocksOf(s', p)|
  {
    hide TableOk;
    if MakesBlock(c, s, step, p) {
      assert BlocksOf(s', p) == BlocksOf(s, p) + {step.b};
    } else {
      SameBlocks(c, s, t, step, s', p);
    }
  }

  lemma SameBlocks(c: Config, s: State, t: Tid, step: Step, s': State, p: int)
    requires ConfigOk(c) && Inv(c, s) && Do(c, s, t, step, s') && p in s.pools && p >= 0
    requires !MakesBlock(c, s, step, p)
    ensures BlocksOf(s', p) == BlocksOf(s, p) && p in s'.pools && s'.pools[p].created == s.pools[p].created
  {
    hide TableOk, FreeOk;
    if step == Advance && TopOf(s.calls, t).Detaching? {
      var b := TopOf(s.calls, t).b;
      assert CallOk(s, t, s.calls[t][0]) && BlockOk(c, s.blocks[b]);
    }
  }

  lemma {:induction false} CreatedReachable(c: Config, r: seq<State>, n: nat)
    requires Run(c, r) && n < |r|
    ensures CreatedOk(r[n])
  {
    hide Do, CreatedOk, ConfigOk, Inv;
    if n == 0 {
      CreatedInitially(c, r[0]);
    } else {
      CreatedReachable(c, r, n - 1);
      Reachable(c, r, n - 1);
      assert Next(c, r[n - 1], r[n - 1 + 1]);
      var t, step :| Do(c, r[n - 1], t, step, r[n]);
      CreatedKept(c, r[n - 1], t, step, r[n]);
    }
  }

  lemma CreatedInitially(c: Config, s: State)
    requires Init(c, s)
    ensures CreatedOk(s)
  {
    forall p | p in s.pools ensures s.pools[p].created == |BlocksOf(s, p)| {
      assert BlocksOf(s, p) == {};
    }
  }

  // ---- Main results ------------------------------------------------------------------------------------------

  /** A free block is in one place of one free list, has exactly that pool's size, and is neither live nor in
      the hands of a call. */
  lemma FreeBlocksAreFree(c: Config, r: seq<State>, n: nat, p: int, i: nat, p': int, j: nat)
    requires Run(c, r) && n < |r| && p in r[n].pools && p' in r[n].pools
    requires i < |r[n].pools[p].free| && j < |r[n].pools[p'].free|
    ensures var b := r[n].pools[p].free[i];
            && b in r[n].blocks && r[n].blocks[b].place == Free(p)
            && 0 <= p < |c.pools| && r[n].blocks[b].size == c.pools[p] && r[n].blocks[b].header == 0
            && (r[n].pools[p'].free[j] == b ==> p == p' && i == j)
  {
    hide TableOk;
    Reachable(c, r, n);
    assert FreeOk(r[n], p) && FreeOk(r[n], p');
    assert BlockOk(c, r[n].blocks[r[n].pools[p].free[i]]);
  }

  /** A live block is large enough for its request and carries it in its header. */
  lemma LiveBlocksFit(c: Config, r: seq<State>, n: nat, b: Block)
    requires Run(c, r) && n < |r| && b in r[n].blocks && r[n].blocks[b].place == Live
    ensures r[n].blocks[b].request <= r[n].blocks[b].size && r[n].blocks[b].header == r[n].blocks[b].request
    ensures r[n].blocks[b].origin == -1 ==> r[n].blocks[b].size == r[n].blocks[b].request
  {
    hide TableOk;
    Reachable(c, r, n);
  }

  /** The pool for allocation size a has no free block. */
  predicate ListEmpty(c: Config, s: State, a: nat) {
    a < |c.table| && PoolFor(c, a) in s.pools && s.pools[PoolFor(c, a)].free == []
  }

  /** An allocation never hands out a block that somebody already has: the block is new, or came off a free list;
      and it is new exactly if the size is over the limit or its pool has no free block. */
  lemma AllocationIsExclusive(c: Config, r: seq<State>, n: nat, t: Tid, size: nat, b: Block, s': State)
    requires Run(c, r) && n < |r| && Do(c, r[n], t, Allocate(size, b), s')
    ensures s'.wild <==> c.covered <= size + c.header <= c.max
    ensures !s'.wild ==>
              && Nonempty(s'.calls, t) && !TopOf(s'.calls, t).Pushed? && !TopOf(s'.calls, t).Uncounting?
              && var x := BlockOf(TopOf(s'.calls, t));
                 && (x in r[n].blocks ==> r[n].blocks[x].place.Free?)
                 && (x !in r[n].blocks <==> size + c.header > c.max || ListEmpty(c, r[n], size + c.header))
  {
    hide TableOk;
    Reachable(c, r, n);
  }

  function EmptyPools(n: nat): (pools: map<int, Pool>)
    ensures forall p :: p in pools <==> 0 <= p < n
    ensures forall p :: p in pools ==> pools[p] == Pool([], 0, 0, 0)
  {
    if n == 0 then map[] else EmptyPools(n - 1)[n - 1 := Pool([], 0, 0, 0)]
  }

  /** The sizes without a pool do get through: the very first allocation can be one. */
  lemma UncoveredSizeGoesWild(c: Config, size: nat) returns (r: seq<State>)
    requires ConfigOk(c) && c.covered <= size + c.header <= c.max
    ensures Run(c, r) && r[|r| - 1].wild
  {
    hide TableOk;
    var s := State(map[1 := []], EmptyPools(|c.pools|), map[], false, 0, 0);
    var s' := s.(wild := true);
    assert Do(c, s, 1, Allocate(size, 0), s');
    r := [s, s'];
  }

  /** A release returns the block to where it came from: over the limit to the big path, else to its own pool. */
  lemma ReleaseGoesHome(c: Config, r: seq<State>, n: nat, t: Tid, b: Block)
    requires Run(c, r) && n < |r| && Nonempty(r[n].calls, t) && TopOf(r[n].calls, t) == Detaching(b)
    ensures b in r[n].blocks
    ensures r[n].blocks[b].header > c.max <==> r[n].blocks[b].origin == -1
    ensures r[n].blocks[b].header <= c.max ==>
              r[n].blocks[b].header < |c.table| && PoolFor(c, r[n].blocks[b].header) == r[n].blocks[b].origin
  {
    hide TableOk, FreeOk;
    Reachable(c, r, n);
    assert CallOk(r[n], t, r[n].calls[t][0]) && BlockOk(c, r[n].blocks[b]);
  }

  /** The counters lag behind the truth by the operations under way, and by nothing else. */
  lemma CountersLag(c: Config, r: seq<State>, n: nat, p: int)
    requires Run(c, r) && n < |r| && p in r[n].pools
    ensures r[n].pools[p].poolCount == FreeTotal(r[n].calls, r[n].pools[p], p) % WORD
    ensures r[n].pools[p].useCount == UseTotal(r[n].calls, r[n].pools[p], p) % WORD
    ensures r[n].pools[p].created == |BlocksOf(r[n], p)|
  {
    CountersReachable(c, r, n);
    CreatedReachable(c, r, n);
  }

  ghost function LiveOf(s: State, p: int): set<Block> {
    set b | b in s.blocks && s.blocks[b].origin == p && s.blocks[b].place == Live
  }

  /** When no operation is under way: `_poolCount` is the length of the free list, `_useCount` the number of live
      blocks, and together they are the blocks the pool ever created. */
  lemma QuiescentCountersExact(c: Config, r: seq<State>, n: nat, p: int)
    requires Run(c, r) && n < |r| && p in r[n].pools && forall t :: t in r[n].calls ==> r[n].calls[t] == []
    ensures var q := r[n].pools[p];
            && q.poolCount == |q.free| % WORD
            && q.useCount == |LiveOf(r[n], p)| % WORD
            && |q.free| + |LiveOf(r[n], p)| == q.created == |BlocksOf(r[n], p)|
  {
    hide Run, AllCountersOk, CreatedOk, Inv;
    CountersLag(c, r, n, p);
    NothingUnderWay(r[n].calls, p);
    Reachable(c, r, n);
    LiveAndFree(c, r[n], p);
  }

  ghost function ToSet(xs: seq<Block>): set<Block> {
    set x | x in xs
  }

  lemma LiveAndFree(c: Config, s: State, p: int)
    requires Inv(c, s) && p in s.pools && forall t :: t in s.calls ==> s.calls[t] == []
    ensures |s.pools[p].free| + |LiveOf(s, p)| == |BlocksOf(s, p)|
  {
    var free := s.pools[p].free;
    assert FreeOk(s, p);
    forall b | b in s.blocks ensures BlockOk(c, s.blocks[b]) && !s.blocks[b].place.Held? {}
    hide BlocksOk, PoolsOk, CallsOk, HeldOk;
    SetOfDistinct(free);
    assert BlocksOf(s, p) == ToSet(free) + LiveOf(s, p);
    assert ToSet(free) !! LiveOf(s, p);
  }

  lemma {:induction false} SetOfDistinct(xs: seq<Block>)
    requires forall i, j :: 0 <= i < j < |xs| ==> xs[i] != xs[j]
    ensures |ToSet(xs)| == |xs|
  {
    if xs != [] {
      var n := |xs| - 1;
      SetOfDistinct(xs[..n]);
      assert xs == xs[..n] + [xs[n]];
      assert ToSet(xs) == ToSet(xs[..n]) + {xs[n]};
      assert xs[n] !in ToSet(xs[..n]);
    }
  }
}
