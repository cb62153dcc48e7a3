/** The re-entrant read/write spin lock, one transition per atomic operation.  The increments and
    decrements of the plain field `_writeCount` are split into their read and their write. */
module RWLock {
  import opened StackCount

  type Tid = nat

  const HALF := 0x1_0000       // 2^16: writer id above, reader count below
  const WORD := 0x1_0000_0000  // 2^32

  /** A hold of the lock, taken by a scoped guard. */
  datatype Mode = W | R

  /** Where a thread is inside the four lock functions. */
  datatype Pc =
    | Idle
    | WriteCas                     // WriteLock: spinning on the exchange of EMPTY
    | WriteIncRead                 // WriteLock: about to read _writeCount
    | WriteIncWrite(v: nat)        // WriteLock: about to write v + 1
    | ReadAdd                      // ReadLock: already the writer, about to fetch_add
    | ReadLoad                     // ReadLock: spinning, about to load the reader count
    | ReadCas(expected: nat)       // ReadLock: about to exchange expected for expected + 1
    | WriteDecRead                 // WriteUnlock: about to read _writeCount
    | WriteDecWrite(v: nat)        // WriteUnlock: about to write v - 1
    | WriteStore                   // WriteUnlock: about to store EMPTY

  datatype Op = LockWrite | LockRead | Unlock

  /** `flag` and `count` are `_lockFlag` and `_writeCount`; `holds` is what each thread's guards hold. */
  datatype State = State(flag: nat, count: nat, pcs: map<Tid, Pc>, holds: Stacks<Mode>, crashed: bool)

  function Writer(flag: nat): nat { flag / HALF }

  function Readers(flag: nat): nat { flag % HALF }

  /** The flag a writer stores: its id shifted up, and masked to 32 bits. */
  function WriteFlag(t: Tid): nat { (t * HALF) % WORD }

  // ---- Steps ---------------------------------------------------------------------------------------

  /** Locks are held through scoped guards: a thread only unlocks what its innermost guard holds. */
  predicate Enabled(s: State, t: Tid, op: Op) {
    && !s.crashed && t in s.pcs && t in s.holds
    && (s.pcs[t] == Idle && op == Unlock ==> Nonempty(s.holds, t))
    && (s.pcs[t].WriteDecWrite? || s.pcs[t].WriteStore? ==> Nonempty(s.holds, t))
  }

  predicate IsThread(s: State, t: Tid) {
    t in s.pcs && t in s.holds
  }

  function At(s: State, t: Tid, pc: Pc): State {
    s.(pcs := s.pcs[t := pc])
  }

  function Acquired(s: State, t: Tid, m: Mode): State
    requires t in s.holds
  {
    At(s, t, Idle).(holds := Push(s.holds, t, m))
  }

  function Released(s: State, t: Tid): State
    requires Nonempty(s.holds, t)
  {
    At(s, t, Idle).(holds := Pop(s.holds, t))
  }

  /** A call: the first atomic operation of the lock function. */
  function Begin(s: State, t: Tid, op: Op): State
    requires Enabled(s, t, op) && s.pcs[t] == Idle
  {
    match op
    case LockWrite => At(s, t, if Writer(s.flag) == t then WriteIncRead else WriteCas)
    case LockRead => At(s, t, if Writer(s.flag) == t then ReadAdd else ReadLoad)
    case Unlock => if TopOf(s.holds, t) == W then BeginWriteUnlock(s, t) else ReadUnlock(s, t)
  }

  function BeginWriteUnlock(s: State, t: Tid): State {
    if Readers(s.flag) != 0 then s.(crashed := true) else At(s, t, WriteDecRead)
  }

  function ReadUnlock(s: State, t: Tid): State
    requires Nonempty(s.holds, t)
  {
    Released(s, t).(flag := (s.flag + WORD - 1) % WORD, crashed := Readers(s.flag) == 0)
  }

  /** The next step of a thread inside a lock function. */
  function Continue(s: State, t: Tid): State
    requires t in s.pcs && t in s.holds && s.pcs[t] != Idle
    requires s.pcs[t].WriteDecWrite? || s.pcs[t].WriteStore? ==> Nonempty(s.holds, t)
  {
    match s.pcs[t]
    case WriteCas => if s.flag == 0 then At(s, t, WriteIncRead).(flag := WriteFlag(t)) else s
    case WriteIncRead => At(s, t, WriteIncWrite(s.count))
    case WriteIncWrite(v) => Acquired(s, t, W).(count := (v + 1) % HALF)
    case ReadAdd => Acquired(s, t, R).(flag := (s.flag + 1) % WORD)
    case ReadLoad => At(s, t, ReadCas(Readers(s.flag)))
    case ReadCas(e) => if s.flag == e then Acquired(s, t, R).(flag := (e + 1) % WORD) else At(s, t, ReadLoad)
    case WriteDecRead => At(s, t, WriteDecWrite(s.count))
    case WriteDecWrite(v) =>
      var n := (v + HALF - 1) % HALF;
      if n == 0 then At(s, t, WriteStore).(count := n) else Released(s, t).(count := n)
    case WriteStore => Released(s, t).(flag := 0)
  }

  function Exec(s: State, t: Tid, op: Op): State
    requires Enabled(s, t, op)
  {
    if s.pcs[t] == Idle then Begin(s, t, op) else Continue(s, t)
  }

  ghost predicate Next(s: State, s': State) {
    exists t, op :: Enabled(s, t, op) && s' == Exec(s, t, op)
  }

  /** Thread ids are nonzero and fit the upper half of the flag. */
  ghost predicate ValidIds(s: State) {
    s.pcs.Keys == s.holds.Keys && forall t :: t in s.pcs ==> 1 <= t < HALF
  }

  ghost predicate Init(s: State) {
    && s.flag == 0 && s.count == 0 && !s.crashed && ValidIds(s)
    && forall t :: t in s.pcs ==> s.pcs[t] == Idle && s.holds[t] == []
  }

  function IsRead(): Mode -> bool { (m: Mode) => m == R }

  function Depth(holds: seq<Mode>): nat {
    if holds == [] then 0
    else Depth(holds[..|holds| - 1]) + Bit(holds[|holds| - 1] == W)
  }

  /** No counter overflows its 16 bits. */
  ghost predicate Bounded(s: State) {
    Count(s.holds, IsRead()) < HALF && forall t :: t in s.holds ==> Depth(s.holds[t]) < HALF
  }

  /** Any finite run, and one in which no counter overflows. */
  ghost predicate Steps(r: seq<State>) {
    r != [] && Init(r[0]) && forall i :: 0 <= i < |r| - 1 ==> Next(r[i], r[i + 1])
  }

  ghost predicate Run(r: seq<State>) {
    Steps(r) && forall i :: 0 <= i < |r| ==> Bounded(r[i])
  }

  // ---- The invariant -----------------------------------------------------------------------------------

  /** A thread owns the flag from the exchange that put its id there to the store that removes it. */
  predicate Owns(pc: Pc, holds: seq<Mode>) {
    W in holds || pc.WriteIncRead? || pc.WriteIncWrite?
  }

  ghost predicate ThreadOk(pc: Pc, holds: seq<Mode>, count: nat, owner: bool) {
    && owner == Owns(pc, holds)
    && (owner ==> count == if pc.WriteStore? then 0 else Depth(holds))
    && match pc
       case Idle => true
       case WriteCas => W !in holds
       case WriteIncRead => true
       case WriteIncWrite(v) => v == count
       case ReadAdd => W in holds
       case ReadLoad => W !in holds
       case ReadCas(e) => W !in holds && e < HALF
       case WriteDecRead => Releasing(holds)
       case WriteDecWrite(v) => Releasing(holds) && v == count
       case WriteStore => holds == [W]
  }

  /** The guard being released is the innermost one, and no read hold is left. */
  ghost predicate Releasing(holds: seq<Mode>) {
    holds != [] && R !in holds
  }

  ghost predicate Inv(s: State) {
    && ValidIds(s)
    && s.flag < WORD && s.count < HALF
    && (Writer(s.flag) != 0 ==> Writer(s.flag) in s.pcs)
    && (Writer(s.flag) == 0 ==> s.count == 0)
    && Readers(s.flag) == Count(s.holds, IsRead())
    && (forall t :: t in s.pcs ==> ThreadOk(s.pcs[t], s.holds[t], s.count, Writer(s.flag) == t))
    && forall t :: t in s.pcs && Writer(s.flag) != 0 && Writer(s.flag) != t ==> s.holds[t] == []
  }

  // ---- Preservation ------------------------------------------------------------------------------------

  lemma {:induction false} DepthPositive(holds: seq<Mode>)
    ensures Depth(holds) > 0 <==> W in holds
    ensures Depth(holds) <= |holds|
  {
    if holds != [] {
      var n := |holds| - 1;
      DepthPositive(holds[..n]);
      assert holds == holds[..n] + [holds[n]];
    }
  }

  lemma {:induction false} AllWritesDepth(holds: seq<Mode>)
    requires R !in holds
    ensures Depth(holds) == |holds|
  {
    if holds != [] {
      var n := |holds| - 1;
      assert holds[n] in holds;
      assert holds == holds[..n] + [holds[n]];
      AllWritesDepth(holds[..n]);
    }
  }

  lemma DepthPush(holds: seq<Mode>, m: Mode)
    ensures Depth(holds + [m]) == Depth(holds) + Bit(m == W)
  {
    assert (holds + [m])[..|holds|] == holds;
  }

  /** Changes of the program counter alone. */
  lemma PcMoves(s: State, t: Tid, pc: Pc)
    requires Inv(s) && t in s.pcs && ThreadOk(pc, s.holds[t], s.count, Writer(s.flag) == t)
    ensures Inv(At(s, t, pc))
  {
  }

  /** A step of t that changes its own holds, and the count only if t is the writer. */
  lemma HoldsMove(s: State, s': State, t: Tid)
    requires Inv(s) && t in s.pcs && ValidIds(s') && s'.pcs.Keys == s.pcs.Keys
    requires forall u :: u in s.pcs && u != t ==> s'.pcs[u] == s.pcs[u] && s'.holds[u] == s.holds[u]
    requires s'.flag < WORD && Writer(s'.flag) == Writer(s.flag) && Readers(s'.flag) == Count(s'.holds, IsRead())
    requires s'.count < HALF && (s'.count == s.count || Writer(s.flag) == t)
    requires ThreadOk(s'.pcs[t], s'.holds[t], s'.count, Writer(s.flag) == t)
    requires Writer(s.flag) == t || Writer(s.flag) == 0
    ensures Inv(s')
  {
    hide Writer, Readers, Depth;
    forall u | u in s'.pcs ensures ThreadOk(s'.pcs[u], s'.holds[u], s'.count, Writer(s'.flag) == u) {
      assert ThreadOk(s.pcs[u], s.holds[u], s.count, Writer(s.flag) == u);
    }
  }

  lemma AcquireWriteKeeps(s: State, t: Tid, v: nat)
    requires Inv(s) && t in s.pcs && s.pcs[t] == WriteIncWrite(v) && Bounded(Continue(s, t))
    ensures Inv(Continue(s, t))
  {
    hide Writer, Readers, Inv, Depth;
    PcFacts(s, t);
    var s' := Continue(s, t);
    DepthPush(s.holds[t], W);
    assert s'.count == Depth(s'.holds[t]) by { assert Depth(s'.holds[t]) < HALF; }
    hide Bounded;
    ValidKept(s, s');
    Pushed(s.holds, t, W, IsRead());
    hide Count;
    assert W in s'.holds[t] by { assert s'.holds[t][|s.holds[t]|] == W; }
    HoldsMove(s, s', t);
  }

  lemma ValidKept(s: State, s': State)
    requires Inv(s) && s'.pcs.Keys == s.pcs.Keys && s'.holds.Keys == s.holds.Keys
    ensures ValidIds(s') && s.flag < WORD && s.count < HALF && Readers(s.flag) == Count(s.holds, IsRead())
  {
  }

  lemma CasKeeps(s: State, t: Tid)
    requires Inv(s) && t in s.pcs && s.pcs[t] == WriteCas
    ensures Inv(Continue(s, t))
  {
    if s.flag == 0 {
      DepthPositive(s.holds[t]);
      assert Writer(WriteFlag(t)) == t && Readers(WriteFlag(t)) == 0;
      NobodyHolds(s);
    }
  }

  /** An empty flag means that nobody holds the lock. */
  lemma NobodyHolds(s: State)
    requires Inv(s) && s.flag == 0
    ensures forall t :: t in s.pcs ==> s.holds[t] == [] && !Owns(s.pcs[t], s.holds[t])
  {
    forall t | t in s.pcs ensures s.holds[t] == [] && !Owns(s.pcs[t], s.holds[t]) {
      assert ThreadOk(s.pcs[t], s.holds[t], s.count, Writer(s.flag) == t);
      if s.holds[t] != [] {
        assert s.holds[t][0] in s.holds[t];
        Occupied(s.holds, t, 0, IsRead());
      }
    }
  }

  lemma AddReader(flag: nat)
    requires flag + 1 < WORD && Readers(flag) + 1 < HALF
    ensures Writer(flag + 1) == Writer(flag) && Readers(flag + 1) == Readers(flag) + 1
  {
  }

  lemma RemoveReader(flag: nat)
    requires 0 < Readers(flag) && flag < WORD
    ensures (flag + WORD - 1) % WORD == flag - 1
    ensures Writer(flag - 1) == Writer(flag) && Readers(flag - 1) == Readers(flag) - 1
  {
  }

  lemma ReaderFits(s: State, t: Tid)
    requires Inv(s) && t in s.pcs && Count(Push(s.holds, t, R), IsRead()) < HALF
    ensures Readers(s.flag) + 1 < HALF && s.flag + 1 < WORD
  {
    Pushed(s.holds, t, R, IsRead());
  }

  lemma AcquireReadKeeps(s: State, t: Tid)
    requires Inv(s) && t in s.pcs && Bounded(Acquired(s, t, R).(flag := (s.flag + 1) % WORD))
    requires s.pcs[t] == ReadAdd || (s.pcs[t].ReadCas? && s.flag == s.pcs[t].expected)
    ensures Inv(Acquired(s, t, R).(flag := (s.flag + 1) % WORD))
  {
    hide Inv, Depth;
    PcFacts(s, t);
    var s' := Acquired(s, t, R).(flag := (s.flag + 1) % WORD);
    ReaderFits(s, t);
    AddReader(s.flag);
    assert Writer(s.flag) == t || Writer(s.flag) == 0 by { assert s.pcs[t].ReadCas? ==> s.flag < HALF; }
    assert s'.flag == s.flag + 1;
    hide Writer, Readers;
    Pushed(s.holds, t, R, IsRead());
    DepthPush(s.holds[t], R);
    assert W in s'.holds[t] <==> W in s.holds[t];
    ValidKept(s, s');
    HoldsMove(s, s', t);
  }

  lemma ReadUnlockKeeps(s: State, t: Tid)
    requires Inv(s) && t in s.pcs && s.pcs[t] == Idle && Nonempty(s.holds, t) && TopOf(s.holds, t) == R
    ensures Inv(ReadUnlock(s, t)) && !ReadUnlock(s, t).crashed
  {
    hide Writer, Depth;
    var s' := ReadUnlock(s, t);
    PcFacts(s, t);
    assert Writer(s.flag) == t || Writer(s.flag) == 0;
    Occupied(s.holds, t, |s.holds[t]| - 1, IsRead());
    ValidKept(s, s');
    hide Inv;
    RemoveReader(s.flag);
    Popped(s.holds, t, IsRead());
    hide Readers;
    var rest := s.holds[t][..|s.holds[t]| - 1];
    assert s.holds[t] == rest + [R];
    DepthPush(rest, R);
    assert W in rest <==> W in s.holds[t];
    HoldsMove(s, s', t);
  }

  lemma DecFacts(s: State, t: Tid, v: nat)
    requires Inv(s) && t in s.pcs && s.pcs[t] == WriteDecWrite(v) && Bounded(s)
    ensures Nonempty(s.holds, t) && R !in s.holds[t] && W in s.holds[t]
    ensures v == s.count == |s.holds[t]| && Writer(s.flag) == t && (v + HALF - 1) % HALF == v - 1
  {
    hide Writer, Readers;
    PcFacts(s, t);
    AllWritesDepth(s.holds[t]);
    assert s.holds[t][0] in s.holds[t];
    assert Depth(s.holds[t]) < HALF;
  }

  /** The decrement of a write unlock: the outermost one goes on to clear the flag, an inner one is done. */
  lemma ReleaseInnerKeeps(s: State, t: Tid, v: nat)
    requires Inv(s) && t in s.pcs && s.pcs[t] == WriteDecWrite(v) && Bounded(s)
    ensures Nonempty(s.holds, t) && Inv(Continue(s, t))
    ensures Continue(s, t).pcs[t] == WriteStore <==> s.holds[t] == [W]
  {
    hide Writer, Readers, Inv, Bounded, Depth;
    DecFacts(s, t, v);
    var hs := s.holds[t];
    var s' := Continue(s, t);
    ValidKept(s, s');
    if |hs| == 1 {
      assert hs[0] in hs && hs == [W];
      HoldsMove(s, s', t);
    } else {
      var rest := hs[..|hs| - 1];
      assert forall m :: m in rest ==> m in hs;
      assert rest[0] in rest && W in rest;
      AllWritesDepth(rest);
      Popped(s.holds, t, IsRead());
      assert TopOf(s.holds, t) in hs;
      HoldsMove(s, s', t);
    }
  }

  lemma StoreKeeps(s: State, t: Tid)
    requires Inv(s) && t in s.pcs && s.pcs[t] == WriteStore
    ensures Inv(Continue(s, t))
  {
    Popped(s.holds, t, IsRead());
    OnlyOwner(s, t);
  }

  /** While t owns the flag and has no read hold, the flag is just its id. */
  lemma OnlyOwner(s: State, t: Tid)
    requires Inv(s) && t in s.pcs && Owns(s.pcs[t], s.holds[t]) && R !in s.holds[t]
    ensures s.flag == t * HALF
    ensures forall u :: u in s.pcs && u != t ==> s.holds[u] == [] && !Owns(s.pcs[u], s.holds[u])
  {
    assert ThreadOk(s.pcs[t], s.holds[t], s.count, Writer(s.flag) == t);
    forall u, i | StackCount.At(s.holds, u, i) ensures !IsRead()(s.holds[u][i]) {
      assert s.holds[u][i] in s.holds[u];
    }
    Unoccupied(s.holds, IsRead());
    forall u | u in s.pcs && u != t ensures !Owns(s.pcs[u], s.holds[u]) {
      assert ThreadOk(s.pcs[u], s.holds[u], s.count, Writer(s.flag) == u);
    }
  }

  lemma ContinueKeeps(s: State, t: Tid)
    requires Inv(s) && Enabled(s, t, LockWrite) && s.pcs[t] != Idle && Bounded(s) && Bounded(Continue(s, t))
    ensures Inv(Continue(s, t))
  {
    hide Bounded, Inv, Writer;
    PcFacts(s, t);
    match s.pcs[t]
    case WriteCas => CasKeeps(s, t);
    case WriteIncRead => PcMoves(s, t, WriteIncWrite(s.count));
    case WriteIncWrite(v) => AcquireWriteKeeps(s, t, v);
    case ReadAdd => AcquireReadKeeps(s, t);
    case ReadLoad => PcMoves(s, t, ReadCas(Readers(s.flag)));
    case ReadCas(e) => if s.flag == e { AcquireReadKeeps(s, t); } else { PcMoves(s, t, ReadLoad); }
    case WriteDecRead => PcMoves(s, t, WriteDecWrite(s.count));
    case WriteDecWrite(v) => ReleaseInnerKeeps(s, t, v);
    case WriteStore => StoreKeeps(s, t);
  }

  lemma PcFacts(s: State, t: Tid)
    requires Inv(s) && t in s.pcs
    ensures t in s.holds && ThreadOk(s.pcs[t], s.holds[t], s.count, Writer(s.flag) == t)
    ensures W in s.holds[t] ==> Writer(s.flag) == t
  {
  }

  /** A write unlock trips its assertion exactly when the caller still has a read hold. */
  lemma WriteUnlockCrashesIff(s: State, t: Tid)
    requires Inv(s) && Enabled(s, t, Unlock) && s.pcs[t] == Idle && TopOf(s.holds, t) == W
    ensures Begin(s, t, Unlock).crashed <==> R in s.holds[t]
  {
    if R in s.holds[t] {
      var i :| 0 <= i < |s.holds[t]| && s.holds[t][i] == R;
      Occupied(s.holds, t, i, IsRead());
    } else {
      OnlyOwner(s, t);
    }
  }

  lemma BeginKeeps(s: State, t: Tid, op: Op)
    requires Inv(s) && Enabled(s, t, op) && s.pcs[t] == Idle && Bounded(s)
    ensures Inv(Begin(s, t, op))
    ensures Begin(s, t, op).crashed <==> op == Unlock && TopOf(s.holds, t) == W && R in s.holds[t]
  {
    hide Inv, Bounded, Writer;
    PcFacts(s, t);
    match op
    case LockWrite => PcMoves(s, t, if Writer(s.flag) == t then WriteIncRead else WriteCas);
    case LockRead => PcMoves(s, t, if Writer(s.flag) == t then ReadAdd else ReadLoad);
    case Unlock =>
      if TopOf(s.holds, t) == R {
        ReadUnlockKeeps(s, t);
      } else {
        WriteUnlockCrashesIff(s, t);
        if R in s.holds[t] { CrashKeeps(s); } else { PcMoves(s, t, WriteDecRead); }
      }
  }

  lemma CrashKeeps(s: State)
    requires Inv(s)
    ensures Inv(s.(crashed := true))
  {
  }

  /** One step: the invariant is kept, and the only way to crash is a write unlock over a read hold. */
  lemma StepKeeps(s: State, t: Tid, op: Op)
    requires Inv(s) && Enabled(s, t, op) && Bounded(s) && Bounded(Exec(s, t, op))
    ensures Inv(Exec(s, t, op))
    ensures Exec(s, t, op).crashed <==>
              s.pcs[t] == Idle && op == Unlock && TopOf(s.holds, t) == W && R in s.holds[t]
  {
    hide Inv, Bounded;
    if s.pcs[t] == Idle { BeginKeeps(s, t, op); } else { ContinueKeeps(s, t); }
  }

  lemma Initially(s: State)
    requires Init(s)
    ensures Inv(s)
  {
    Unoccupied(s.holds, IsRead());
  }

  /** Every state of every run satisfies the invariant. */
  lemma {:induction false} Reachable(r: seq<State>, n: nat)
    requires Run(r) && n < |r|
    ensures Inv(r[n])
  {
    hide Inv, Bounded, Init, Exec;
    if n == 0 {
      Initially(r[0]);
    } else {
      Reachable(r, n - 1);
      assert Next(r[n - 1], r[n - 1 + 1]);
      var t, op :| Enabled(r[n - 1], t, op) && r[n] == Exec(r[n - 1], t, op);
      StepKeeps(r[n - 1], t, op);
    }
  }

  /** The invariant itself bounds the counters. */
  lemma InvMeansBounded(s: State)
    requires Inv(s)
    ensures Bounded(s)
  {
    hide Writer;
    forall t | t in s.holds ensures Depth(s.holds[t]) < HALF {
      DepthPositive(s.holds[t]);
      assert ThreadOk(s.pcs[t], s.holds[t], s.count, Writer(s.flag) == t);
    }
  }

  /** The bound is exact: a run keeps the invariant exactly as long as no thread nests more than 65535 write holds
      and there are no more than 65535 read holds in all. */
  lemma KeptIffBounded(r: seq<State>, n: nat)
    requires Steps(r) && n < |r|
    ensures (forall i :: 0 <= i <= n ==> Inv(r[i])) <==> (forall i :: 0 <= i <= n ==> Bounded(r[i]))
  {
    hide Inv, Bounded, Init, Next;
    if forall i :: 0 <= i <= n ==> Inv(r[i]) {
      forall i | 0 <= i <= n ensures Bounded(r[i]) { InvMeansBounded(r[i]); }
    }
    if forall i :: 0 <= i <= n ==> Bounded(r[i]) {
      var r' := r[..n + 1];
      forall i | 0 <= i < |r'| - 1 ensures Next(r'[i], r'[i + 1]) { assert Next(r[i], r[i + 1]); }
      forall i | 0 <= i <= n ensures Inv(r[i]) { Reachable(r', i); }
    }
  }

  // ---- Main results ----------------------------------------------------------------------------------------

  /** Whenever t holds the write lock, no other thread holds anything, the upper half of the flag is t's id
      and the lower half is the number of read holds. */
  lemma WriterExcludesAll(r: seq<State>, n: nat, t: Tid)
    requires Run(r) && n < |r| && t in r[n].holds && W in r[n].holds[t]
    ensures forall u :: u in r[n].holds && u != t ==> r[n].holds[u] == []
    ensures Writer(r[n].flag) == t && Readers(r[n].flag) == Count(r[n].holds, IsRead())
  {
    hide Writer, Readers;
    Reachable(r, n);
    PcFacts(r[n], t);
  }

  /** Without a writer inside, the flag is the number of read holds. */
  lemma NoWriterMeansReadersOnly(r: seq<State>, n: nat)
    requires Run(r) && n < |r| && forall t :: IsThread(r[n], t) ==> !Owns(r[n].pcs[t], r[n].holds[t])
    ensures r[n].flag == Count(r[n].holds, IsRead()) && r[n].count == 0
  {
    Reachable(r, n);
  }

  predicate TouchesCount(pc: Pc) {
    pc.WriteIncRead? || pc.WriteIncWrite? || pc.WriteDecRead? || pc.WriteDecWrite?
  }

  /** The plain field `_writeCount` is never raced on: only the thread whose id is in the flag is ever at
      a point that reads or writes it. */
  lemma OnlyWriterTouchesCount(r: seq<State>, n: nat, t: Tid)
    requires Run(r) && n < |r| && t in r[n].pcs && TouchesCount(r[n].pcs[t])
    ensures Writer(r[n].flag) == t
    ensures forall u :: u in r[n].pcs && TouchesCount(r[n].pcs[u]) ==> u == t
  {
    hide Writer, Readers;
    Reachable(r, n);
    forall u | u in r[n].pcs && TouchesCount(r[n].pcs[u]) ensures Writer(r[n].flag) == u {
      PcFacts(r[n], u);
      if Releasing(r[n].holds[u]) { assert r[n].holds[u][0] in r[n].holds[u]; }
    }
  }

  /** Guards of shape write* read*: no write hold above a read hold. */
  ghost predicate Nested(holds: seq<Mode>) {
    forall i, j :: 0 <= i < j < |holds| && holds[i] == R ==> holds[j] == R
  }

  ghost predicate AllNested(s: State) {
    forall t :: t in s.holds ==> Nested(s.holds[t])
  }

  /** If every thread nests its guards write* read*, neither unlock assertion is ever reached. */
  lemma {:induction false} NestedGuardsNeverCrash(r: seq<State>, n: nat)
    requires Run(r) && n < |r| && forall i :: 0 <= i < |r| ==> AllNested(r[i])
    ensures !r[n].crashed
  {
    hide Inv, Bounded, Exec;
    if n > 0 {
      var s := r[n - 1];
      Reachable(r, n - 1);
      assert Next(r[n - 1], r[n - 1 + 1]);
      var t, op :| Enabled(s, t, op) && r[n] == Exec(s, t, op);
      StepKeeps(s, t, op);
      assert AllNested(s) && Nested(s.holds[t]);
    }
  }

  /** The store that clears the flag erases nobody else's hold: it happens at the outermost write unlock,
      when the storing thread's one write guard is the only hold there is. */
  lemma StoreErasesNothing(r: seq<State>, n: nat, t: Tid)
    requires Run(r) && n < |r| && IsThread(r[n], t) && r[n].pcs[t] == WriteStore
    ensures r[n].holds[t] == [W] && r[n].flag == t * HALF && r[n].count == 0
    ensures forall u :: IsThread(r[n], u) && u != t ==> r[n].holds[u] == [] && !Owns(r[n].pcs[u], r[n].holds[u])
  {
    hide Writer, Readers;
    Reachable(r, n);
    OnlyOwner(r[n], t);
  }

  /** A write unlock goes on to that store exactly when it releases the last guard. */
  lemma StoreIffOutermost(r: seq<State>, n: nat, t: Tid, v: nat)
    requires Run(r) && n < |r| && t in r[n].pcs && r[n].pcs[t] == WriteDecWrite(v)
    ensures Nonempty(r[n].holds, t) && (Continue(r[n], t).pcs[t] == WriteStore <==> |r[n].holds[t]| == 1)
  {
    hide Inv, Bounded;
    Reachable(r, n);
    ReleaseInnerKeeps(r[n], t, v);
    DecFacts(r[n], t, v);
    if |r[n].holds[t]| == 1 { assert r[n].holds[t][0] in r[n].holds[t]; }
  }

  /** When every guard is released and nobody is acquiring, the lock is back in its initial state. */
  lemma AllReleasedMeansEmpty(r: seq<State>, n: nat)
    requires Run(r) && n < |r|
    requires forall t :: IsThread(r[n], t) ==> r[n].holds[t] == [] && !Owns(r[n].pcs[t], r[n].holds[t])
    ensures r[n].flag == 0 && r[n].count == 0
  {
    Reachable(r, n);
    Unoccupied(r[n].holds, IsRead());
  }

  /** A thread that holds only read guards never gets the write lock: its exchange always fails. */
  lemma UpgradeNeverSucceeds(r: seq<State>, n: nat, t: Tid)
    requires Run(r) && n < |r| && !r[n].crashed && IsThread(r[n], t) && r[n].pcs[t] == WriteCas && R in r[n].holds[t]
    ensures Continue(r[n], t) == r[n]
  {
    Reachable(r, n);
    if r[n].flag == 0 { NobodyHolds(r[n]); }
  }

  // ---- Why the bounds are needed ------------------------------------------------------------------------------

  /** One read hold beyond 65535 carries into the upper half: the flag then names thread 1 as the writer,
      and thread 1 would enter as one. */
  lemma TooManyReadersForgeAWriter(s: State, t: Tid)
    requires Inv(s) && t in s.pcs && Writer(s.flag) == 0 && Count(s.holds, IsRead()) == HALF - 1
    requires s.pcs[t] == ReadCas(HALF - 1)
    ensures Writer(Continue(s, t).flag) == 1 && Readers(Continue(s, t).flag) == 0
    ensures forall u :: u in s.pcs ==> !Owns(Continue(s, t).pcs[u], Continue(s, t).holds[u])
  {
    hide Depth;
    assert s.flag == HALF - 1;
    forall u | u in s.pcs ensures !Owns(s.pcs[u], s.holds[u]) {
      assert ThreadOk(s.pcs[u], s.holds[u], s.count, Writer(s.flag) == u);
    }
  }

  /** The flag of a writer names it exactly when its id fits 16 bits. */
  lemma WriteFlagNamesItsThread(t: Tid)
    ensures Writer(WriteFlag(t)) == t <==> t < HALF
  {
    if t < HALF {
      assert t * HALF < WORD;
    } else {
      assert WriteFlag(t) < WORD;
    }
  }
}
