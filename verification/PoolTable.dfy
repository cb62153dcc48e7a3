/** The size-class table of `Memory`: `init_memory_pool` and the constructor. */
module PoolTable {

  /** Pool sizes are increasing, and every key below `covered` maps to the smallest pool that is large enough. */
  ghost predicate TableOk(pools: seq<nat>, table: seq<int>, covered: nat) {
    && (forall i, j :: 0 <= i < j < |pools| ==> pools[i] < pools[j])
    && covered == (if pools == [] then 0 else pools[|pools| - 1] + 1)
    && covered <= |table|
    && forall k :: 0 <= k < covered ==>
         0 <= table[k] < |pools| && k <= pools[table[k]] && (table[k] > 0 ==> pools[table[k] - 1] < k)
  }

  /** Where `pos` stands after the pools pos, pos + step, ... up to `end` are made. */
  function After(pos: nat, end: nat, step: nat): nat
    requires step > 0
  {
    if pos > end then pos else pos + ((end - pos) / step + 1) * step
  }

  lemma AfterStep(pos: nat, end: nat, step: nat)
    requires step > 0 && pos <= end
    ensures After(pos + step, end, step) == After(pos, end, step)
  {
    if pos + step <= end {
      assert (end - pos) / step == (end - (pos + step)) / step + 1 by { DivStep(end - (pos + step), step); }
    } else {
      assert (end - pos) / step == 0;
    }
  }

  lemma DivStep(x: nat, step: nat)
    requires step > 0
    ensures (x + step) / step == x / step + 1
  {
    var q, r := x / step, x % step;
    assert x + step == (q + 1) * step + r;
    DivUnique(x + step, step, q + 1, r);
  }

  lemma DivUnique(x: nat, step: nat, q: nat, r: nat)
    requires step > 0 && x == q * step + r && r < step
    ensures x / step == q
  {
    var q', r' := x / step, x % step;
    assert q' * step + r' == q * step + r;
    assert q' < q ==> q * step >= (q' + 1) * step;
    assert q' > q ==> q' * step >= (q + 1) * step;
  }

  /** A larger pool, taking exactly the keys that the smaller ones do not cover. */
  lemma TableGrows(pools: seq<nat>, table: seq<int>, table': seq<int>, covered: nat, pos: nat)
    requires TableOk(pools, table, covered) && covered <= pos < |table| == |table'|
    requires forall k :: 0 <= k < covered ==> table'[k] == table[k]
    requires forall k :: covered <= k <= pos ==> table'[k] == |pools|
    ensures TableOk(pools + [pos], table', pos + 1)
  {
    var pools' := pools + [pos];
    forall k | 0 <= k < pos + 1
      ensures 0 <= table'[k] < |pools'| && k <= pools'[table'[k]] && (table'[k] > 0 ==> pools'[table'[k] - 1] < k)
    {
      if k < covered { assert k <= pools[table[k]]; }
    }
  }

  lemma CoveredEnds(pools: seq<nat>, table: seq<int>, covered: nat)
    requires TableOk(pools, table, covered)
    ensures covered == (if pools == [] then 0 else pools[|pools| - 1] + 1) && covered <= |table|
  {
  }

  lemma NoPools(table: seq<int>)
    ensures TableOk([], table, 0)
  {
  }

  /** The sections of both builds. */
  lemma Sections()
    ensures After(0x20, 0x400, 0x20) == 0x420 && After(0x420, 0x800, 0x80) == 0x820
    ensures After(0x820, 0x1000, 0x100) == 0x1020 && After(0x1020, 0x2000, 0x200) == 0x2020
  {
  }

  /** How far the next pool is above one of the given size. */
  function StepAbove(size: nat): nat {
    if size <= 0x400 then 0x20 else if size <= 0x800 then 0x80 else if size <= 0x1000 then 0x100 else 0x200
  }

  class Memory {
    var pools: seq<nat>             // _pools: the block size of each pool, in creation order
    const table: array<int>         // _poolTable: the index of the pool for each allocation size
    ghost var covered: nat          // the keys written so far are 0 .. covered - 1
    ghost var steps: seq<nat>       // how far `pos` moved on after each pool

    ghost predicate Valid()
      reads this, table
    {
      && TableOk(pools, table[..], covered)
      && |steps| == |pools| && forall i :: 0 <= i < |pools| - 1 ==> pools[i + 1] == pools[i] + steps[i]
    }

    /** The carried `pos` is where the next pool goes. */
    ghost predicate Continues(pos: nat)
      reads this
    {
      |steps| == |pools| && (pools != [] ==> pos == pools[|pools| - 1] + steps[|pools| - 1] && steps[|pools| - 1] > 0)
    }

    /** From the n-th on, the pools lie between pos and end and are one step apart. */
    ghost predicate Section(n: nat, pos: nat, end: nat, step: nat)
      reads this
    {
      |steps| == |pools| && forall i :: n <= i < |pools| ==> pos <= pools[i] <= end && steps[i] == step
    }

    /** Each pool is followed by the step of its section. */
    ghost predicate Stepped()
      reads this
    {
      |steps| == |pools| && forall i :: 0 <= i < |pools| ==> steps[i] == StepAbove(pools[i])
    }

    /** One section of the table, with the carried `tableKey` and `pos`. */
    method InitMemoryPool(tableKey: nat, pos: nat, end: nat, blockSize: nat) returns (tableKey': nat, pos': nat)
      requires Valid() && Continues(pos) && tableKey == covered && blockSize > 0 && end < table.Length
      modifies this, table
      ensures Valid() && Continues(pos') && tableKey' == covered
      ensures pos' == After(pos, end, blockSize)
      ensures pos <= end ==> pools != [] && pools[|pools| - 1] == pos' - blockSize
      ensures pos > end ==> pools == old(pools)
      ensures pos <= end ==> |old(pools)| < |pools| && pools[|old(pools)|] == pos
      ensures old(pools) <= pools && old(steps) <= steps && Section(|old(pools)|, pos, end, blockSize)
      ensures forall k :: covered <= k < table.Length ==> table[k] == old(table[k])
    {
      hide TableOk;
      tableKey', pos' := tableKey, pos;
      while pos' <= end
        invariant Valid() && Continues(pos') && tableKey' == covered && pos <= pos'
        invariant After(pos', end, blockSize) == After(pos, end, blockSize)
        invariant pos' == pos ==> pools == old(pools)
        invariant pos' > pos ==> pools != [] && pools[|pools| - 1] == pos' - blockSize
        invariant pos' > pos ==> |old(pools)| < |pools| && pools[|old(pools)|] == pos
        invariant old(pools) <= pools && old(steps) <= steps && Section(|old(pools)|, pos, end, blockSize)
        invariant forall k :: covered <= k < table.Length ==> table[k] == old(table[k])
        decreases end + 1 - pos'
      {
        AfterStep(pos', end, blockSize);
        tableKey' := AddPool(tableKey', pos', blockSize);
        pos' := pos' + blockSize;
      }
    }

    /** The body of the loop: a new pool of size pos, and the keys up to pos that no smaller pool covers. */
    method AddPool(tableKey: nat, pos: nat, ghost step: nat) returns (tableKey': nat)
      requires Valid() && Continues(pos) && tableKey == covered && pos < table.Length && step > 0
      modifies this, table
      ensures Valid() && Continues(pos + step) && tableKey' == covered == pos + 1 > old(covered)
      ensures pools == old(pools) + [pos] && steps == old(steps) + [step]
      ensures forall k :: covered <= k < table.Length ==> table[k] == old(table[k])
    {
      hide TableOk;
      ghost var last, before := pools, table[..];
      CoveredEnds(last, before, covered);
      pools := pools + [pos];
      tableKey' := tableKey;
      while tableKey' <= pos
        invariant tableKey <= tableKey' <= pos + 1 && pools == last + [pos]
        invariant forall k :: tableKey <= k < tableKey' ==> table[k] == |last|
        invariant forall k :: 0 <= k < table.Length && !(tableKey <= k < tableKey') ==> table[k] == before[k]
        invariant covered == old(covered) && steps == old(steps)
      {
        table[tableKey'] := |pools| - 1;
        tableKey' := tableKey' + 1;
      }
      TableGrows(last, before, table[..], covered, pos);
      covered, steps := pos + 1, steps + [step];
    }

    /** `Memory::Memory()` as built with USE_BIG_MEMORY_BLOCK.  The last pool has 7712 bytes, so exactly the keys
        0 .. 7712 are written, although sizes up to MAX_ALLOC_SIZE = 8192 are looked up. */
    constructor Big()
      ensures Valid() && fresh(table) && table.Length == 0x2000 + 1 && covered == 7713
      ensures |pools| > 0 && pools[0] == 0x20 && Stepped()
    {
      table := new int[0x2000 + 1];
      pools, covered, steps := [], 0, [];
      new;
      hide TableOk, After;
      Sections();
      NoPools(table[..]);
      var pos, key := 0x20, 0;
      key, pos := InitMemoryPool(key, pos, 0x400, 0x20);
      key, pos := InitMemoryPool(key, pos, 0x800, 0x80);
      key, pos := InitMemoryPool(key, pos, 0x1000, 0x100);
      key, pos := InitMemoryPool(key, pos, 0x2000, 0x200);
      CoveredEnds(pools, table[..], covered);
    }

    /** Without USE_BIG_MEMORY_BLOCK the last pool has 3872 bytes and MAX_ALLOC_SIZE is 4096. */
    constructor Small()
      ensures Valid() && fresh(table) && table.Length == 0x1000 + 1 && covered == 3873
      ensures |pools| > 0 && pools[0] == 0x20 && Stepped()
    {
      table := new int[0x1000 + 1];
      pools, covered, steps := [], 0, [];
      new;
      hide TableOk, After;
      Sections();
      NoPools(table[..]);
      var pos, key := 0x20, 0;
      key, pos := InitMemoryPool(key, pos, 0x400, 0x20);
      key, pos := InitMemoryPool(key, pos, 0x800, 0x80);
      key, pos := InitMemoryPool(key, pos, 0x1000, 0x100);
      CoveredEnds(pools, table[..], covered);
    }
  }

  // ---- What the table means ------------------------------------------------------------------------------------

  /** Every covered key is served by the smallest pool that can hold it. */
  lemma ServedBySmallest(pools: seq<nat>, table: seq<int>, covered: nat, k: nat, i: nat)
    requires TableOk(pools, table, covered) && k < covered && i < |pools|
    ensures k <= pools[i] <==> table[k] <= i
  {
    var j := table[k];
    if i < j { assert pools[i] <= pools[j - 1]; }
  }

  /** The table is a function of the pools: two fillings agree on every covered key. */
  lemma TableIsDetermined(pools: seq<nat>, table: seq<int>, table': seq<int>, covered: nat, k: nat)
    requires TableOk(pools, table, covered) && TableOk(pools, table', covered) && k < covered
    ensures table[k] == table'[k]
  {
    ServedBySmallest(pools, table, covered, k, table'[k]);
    ServedBySmallest(pools, table', covered, k, table[k]);
  }

  /** Above the smallest class, the unused part of a block is less than the step to that class. */
  lemma SlackBelowStep(pools: seq<nat>, table: seq<int>, covered: nat, steps: seq<nat>, k: nat)
    requires TableOk(pools, table, covered) && k < covered && table[k] > 0
    requires |steps| == |pools| && forall i :: 0 <= i < |pools| - 1 ==> pools[i + 1] == pools[i] + steps[i]
    ensures pools[table[k]] - k < steps[table[k] - 1]
  {
    var i := table[k] - 1;
    assert pools[i + 1] == pools[i] + steps[i];
  }

  ghost predicate SomePoolFits(pools: seq<nat>, k: nat) {
    exists i :: 0 <= i < |pools| && k <= pools[i]
  }

  /** A key has a pool that can hold it exactly when it is covered: the keys above the last pool have none. */
  lemma CoveredIffSomePoolFits(pools: seq<nat>, table: seq<int>, covered: nat, k: nat)
    requires TableOk(pools, table, covered)
    ensures k < covered <==> SomePoolFits(pools, k)
  {
    if k < covered {
      assert k <= pools[table[k]];
    }
  }
}
