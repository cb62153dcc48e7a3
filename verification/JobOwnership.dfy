/** Ownership of a serializer: who may execute its jobs, what its counter counts, and the order
    in which its jobs run.  Everything here holds in every reachable state. */
module JobOwnership {
  import opened JobModel
  import opened StackCount

  /** A call that owns the right to execute serializer k: the pusher that saw 0, or an executor. */
  predicate IsToken(f: Frame, k: Sid) {
    match f
    case PushAnnounced(k', _, prev) => k' == k && prev == 0
    case PushQueued(k', prev) => k' == k && prev == 0
    case ExecBegin(k') => k' == k
    case ExecTake(k') => k' == k
    case ExecRun(k', _, _) => k' == k
    case ExecJob(k', _, _) => k' == k
    case ExecDecide(k') => k' == k
    case _ => false
  }

  function Token(k: Sid): Frame -> bool {
    f => IsToken(f, k)
  }

  /** A push that is counted but not yet queued. */
  function Announced(k: Sid): Frame -> bool {
    (f: Frame) => f.PushAnnounced? && f.k == k
  }

  /** A call holding a batch of k that is not yet subtracted from the counter. */
  function Batch(k: Sid): Frame -> bool {
    (f: Frame) => (f.ExecRun? || f.ExecJob?) && f.k == k
  }

  /** The jobs of the batch that have not been started. */
  function Rest(f: Frame): seq<Job>
    requires f.ExecRun? || f.ExecJob?
  {
    var from := if f.ExecRun? then f.i else f.i + 1;
    if from <= |f.batch| then f.batch[from..] else []
  }

  ghost predicate BatchOk(f: Frame, q: Serializer, announced: nat)
    requires f.ExecRun? || f.ExecJob?
  {
    && (if f.ExecRun? then f.i <= |f.batch| else f.i < |f.batch|)
    && q.count == |q.queue| + announced + |f.batch|
    && q.enqueued == q.ran + Rest(f) + q.queue
  }

  /** The invariant of serializer k: `q` is its state, and `w` how often the worker queue holds it. */
  ghost predicate SerOk(stacks: Stacks<Frame>, q: Serializer, w: int, k: Sid) {
    var announced := Count(stacks, Announced(k));
    && q.count >= 0
    && Count(stacks, Token(k)) + w == Bit(q.count > 0)
    && (Count(stacks, Batch(k)) == 0 ==>
          q.count == |q.queue| + announced && q.enqueued == q.ran + q.queue)
    && forall t, i :: At(stacks, t, i) && Batch(k)(stacks[t][i]) ==> BatchOk(stacks[t][i], q, announced)
  }

  ghost predicate AllSerOk(s: State) {
    forall k :: k in s.sers ==> SerOk(s.stacks, s.sers[k], multiset(s.worker)[k], k)
  }

  predicate Known(f: Frame, sids: set<Sid>) {
    Subject(f).Some? ==> Subject(f).value in sids
  }

  ghost predicate AllKnown(stacks: Stacks<Frame>, sids: set<Sid>) {
    forall t, i :: At(stacks, t, i) ==> Known(stacks[t][i], sids)
  }

  ghost predicate WellFormed(s: State) {
    && s.stacks.Keys == s.locals.Keys
    && AllKnown(s.stacks, s.sers.Keys)
    && (forall k :: k in s.worker ==> k in s.sers)
    && s.live <= s.sers.Keys
    && (forall r :: 0 <= r < |s.timer.table| ==> s.timer.table[r].owner in s.sers)
  }

  ghost predicate Inv(s: State) {
    WellFormed(s) && AllSerOk(s)
  }

  // ---- One serializer, one stack change --------------------------------------------------------

  /** A token frame of k is the only one, and then the worker queue does not hold k. */
  lemma SoleOwner(stacks: Stacks<Frame>, q: Serializer, w: int, k: Sid, t: Tid, i: int)
    requires SerOk(stacks, q, w, k) && w >= 0 && At(stacks, t, i) && Token(k)(stacks[t][i])
    ensures forall u, j :: At(stacks, u, j) && Token(k)(stacks[u][j]) ==> u == t && j == i
    ensures q.count > 0 && w == 0 && Count(stacks, Token(k)) == 1
  {
    Occupied(stacks, t, i, Token(k));
    forall u, j | At(stacks, u, j) && Token(k)(stacks[u][j]) ensures u == t && j == i {
      Unique(stacks, Token(k), t, i, u, j);
    }
  }

  lemma NoBatch(stacks: Stacks<Frame>, q: Serializer, w: int, k: Sid, t: Tid, i: int)
    requires SerOk(stacks, q, w, k) && w >= 0 && At(stacks, t, i)
    requires Token(k)(stacks[t][i]) && !Batch(k)(stacks[t][i])
    ensures Count(stacks, Batch(k)) == 0
    ensures q.count == |q.queue| + Count(stacks, Announced(k)) && q.enqueued == q.ran + q.queue
  {
    SoleOwner(stacks, q, w, k, t, i);
    Unoccupied(stacks, Batch(k));
  }

  lemma ReplaceCounts(stacks: Stacks<Frame>, t: Tid, f: Frame, k: Sid)
    requires Nonempty(stacks, t)
    ensures var stacks', top := Replace(stacks, t, f), TopOf(stacks, t);
            && Count(stacks', Token(k)) == Count(stacks, Token(k)) - Bit(Token(k)(top)) + Bit(Token(k)(f))
            && Count(stacks', Announced(k))
               == Count(stacks, Announced(k)) - Bit(Announced(k)(top)) + Bit(Announced(k)(f))
            && Count(stacks', Batch(k)) == Count(stacks, Batch(k)) - Bit(Batch(k)(top)) + Bit(Batch(k)(f))
  {
    Replaced(stacks, t, f, Token(k));
    Replaced(stacks, t, f, Announced(k));
    Replaced(stacks, t, f, Batch(k));
  }

  /** Replacing a frame that holds no batch of k by another such frame. */
  lemma ReplaceKeeps(stacks: Stacks<Frame>, q: Serializer, w: int, k: Sid, t: Tid, f: Frame)
    requires SerOk(stacks, q, w, k) && Nonempty(stacks, t)
    requires Token(k)(TopOf(stacks, t)) == Token(k)(f)
    requires Announced(k)(TopOf(stacks, t)) == Announced(k)(f)
    requires !Batch(k)(TopOf(stacks, t)) && !Batch(k)(f)
    ensures SerOk(Replace(stacks, t, f), q, w, k)
  {
    ReplaceCounts(stacks, t, f, k);
  }

  lemma PopKeeps(stacks: Stacks<Frame>, q: Serializer, w: int, k: Sid, t: Tid)
    requires SerOk(stacks, q, w, k) && Nonempty(stacks, t)
    requires !Announced(k)(TopOf(stacks, t)) && !Batch(k)(TopOf(stacks, t))
    ensures SerOk(Pop(stacks, t), q, w + Bit(Token(k)(TopOf(stacks, t))), k)
  {
    Popped(stacks, t, Token(k));
    Popped(stacks, t, Announced(k));
    Popped(stacks, t, Batch(k));
  }

  lemma PushKeeps(stacks: Stacks<Frame>, q: Serializer, w: int, k: Sid, t: Tid, f: Frame)
    requires SerOk(stacks, q, w, k) && t in stacks && !Announced(k)(f) && !Batch(k)(f)
    ensures SerOk(Push(stacks, t, f), q, w - Bit(Token(k)(f)), k)
  {
    Pushed(stacks, t, f, Token(k));
    Pushed(stacks, t, f, Announced(k));
    Pushed(stacks, t, f, Batch(k));
  }

  lemma FetchAddKeeps(stacks: Stacks<Frame>, q: Serializer, w: int, k: Sid, t: Tid, job: Job)
    requires SerOk(stacks, q, w, k) && w >= 0 && Nonempty(stacks, t) && TopOf(stacks, t) == PushStart(k, job)
    ensures SerOk(Replace(stacks, t, PushAnnounced(k, job, q.count)), q.(count := q.count + 1), w, k)
  {
    var stacks' := Replace(stacks, t, PushAnnounced(k, job, q.count));
    ReplaceCounts(stacks, t, PushAnnounced(k, job, q.count), k);
    BatchesKept(stacks, stacks', k, t);
    hide Count, Token, Announced;
  }

  /** Replacing the top of t by a frame without a batch leaves the batch holders as they were. */
  lemma BatchesKept(stacks: Stacks<Frame>, stacks': Stacks<Frame>, k: Sid, t: Tid)
    requires Nonempty(stacks, t) && Nonempty(stacks', t) && !Batch(k)(TopOf(stacks', t))
    requires stacks' == Replace(stacks, t, TopOf(stacks', t))
    ensures forall u, j :: At(stacks', u, j) && Batch(k)(stacks'[u][j]) ==>
              At(stacks, u, j) && stacks[u][j] == stacks'[u][j]
  {
  }

  lemma EnqueueKeeps(stacks: Stacks<Frame>, q: Serializer, w: int, k: Sid, t: Tid, job: Job, prev: int)
    requires SerOk(stacks, q, w, k) && Nonempty(stacks, t) && TopOf(stacks, t) == PushAnnounced(k, job, prev)
    ensures SerOk(Replace(stacks, t, PushQueued(k, prev)),
                  q.(queue := q.queue + [job], enqueued := q.enqueued + [job]), w, k)
  {
    var stacks' := Replace(stacks, t, PushQueued(k, prev));
    var q' := q.(queue := q.queue + [job], enqueued := q.enqueued + [job]);
    ReplaceCounts(stacks, t, PushQueued(k, prev), k);
    forall u, j | At(stacks', u, j) && Batch(k)(stacks'[u][j])
      ensures BatchOk(stacks'[u][j], q', Count(stacks', Announced(k)))
    {
      assert At(stacks, u, j) && stacks[u][j] == stacks'[u][j];
      assert q.ran + Rest(stacks[u][j]) + q'.queue == q.enqueued + [job];
    }
  }

  /** The invariant when t, and nobody else, has a batch of k in hand. */
  lemma HolderKeeps(stacks: Stacks<Frame>, q: Serializer, w: int, k: Sid, t: Tid)
    requires Nonempty(stacks, t) && Batch(k)(TopOf(stacks, t))
    requires BatchOk(TopOf(stacks, t), q, Count(stacks, Announced(k)))
    requires q.count > 0 && Count(stacks, Token(k)) + w == 1
    requires forall u, j :: At(stacks, u, j) && Batch(k)(stacks[u][j]) ==> u == t && j == |stacks[t]| - 1
    ensures SerOk(stacks, q, w, k)
  {
    hide BatchOk, Count;
    Occupied(stacks, t, |stacks[t]| - 1, Batch(k));
  }

  lemma TakeAllKeeps(stacks: Stacks<Frame>, q: Serializer, w: int, k: Sid, t: Tid)
    requires SerOk(stacks, q, w, k) && w >= 0 && Nonempty(stacks, t) && TopOf(stacks, t) == ExecTake(k)
    ensures SerOk(Replace(stacks, t, ExecRun(k, q.queue, 0)), q.(queue := []), w, k)
  {
    hide SerOk, Count;
    var n := |stacks[t]| - 1;
    var f := ExecRun(k, q.queue, 0);
    var stacks', q' := Replace(stacks, t, f), q.(queue := []);
    SoleOwner(stacks, q, w, k, t, n);
    NoBatch(stacks, q, w, k, t, n);
    ReplaceCounts(stacks, t, f, k);
    assert BatchOk(f, q', Count(stacks', Announced(k)));
    hide BatchOk;
    forall u, j | At(stacks', u, j) && Batch(k)(stacks'[u][j]) ensures u == t && j == n {
      SoleHolder(stacks, q, w, k, t, f, u, j);
    }
    HolderKeeps(stacks', q', w, k, t);
  }

  /** Moving the executor of k on within its batch; only `ran` changes. */
  lemma RunKeeps(stacks: Stacks<Frame>, q: Serializer, q': Serializer, w: int, k: Sid, t: Tid, f: Frame)
    requires SerOk(stacks, q, w, k) && w >= 0 && Nonempty(stacks, t)
    requires Batch(k)(TopOf(stacks, t)) && Batch(k)(f)
    requires q'.count == q.count && BatchOk(f, q', Count(stacks, Announced(k)))
    ensures SerOk(Replace(stacks, t, f), q', w, k)
  {
    hide SerOk, BatchOk, Count;
    var n := |stacks[t]| - 1;
    var stacks' := Replace(stacks, t, f);
    SoleOwner(stacks, q, w, k, t, n);
    ReplaceCounts(stacks, t, f, k);
    forall u, j | At(stacks', u, j) && Batch(k)(stacks'[u][j]) ensures u == t && j == n {
      SoleHolder(stacks, q, w, k, t, f, u, j);
    }
    HolderKeeps(stacks', q', w, k, t);
  }

  lemma SoleHolder(stacks: Stacks<Frame>, q: Serializer, w: int, k: Sid, t: Tid, f: Frame, u: Tid, j: int)
    requires SerOk(stacks, q, w, k) && w >= 0 && Nonempty(stacks, t) && Token(k)(TopOf(stacks, t))
    requires At(Replace(stacks, t, f), u, j) && Token(k)(Replace(stacks, t, f)[u][j])
    ensures u == t && j == |stacks[t]| - 1
  {
    hide SerOk;
    if u != t || j != |stacks[t]| - 1 {
      assert At(stacks, u, j) && Token(k)(stacks[u][j]);
      SoleOwner(stacks, q, w, k, t, |stacks[t]| - 1);
    }
  }

  /** The executor subtracts its batch.  Other jobs were counted meanwhile, so it stays the owner. */
  lemma FetchSubGoesOn(stacks: Stacks<Frame>, q: Serializer, w: int, k: Sid, t: Tid, batch: seq<Job>, i: nat)
    requires SerOk(stacks, q, w, k) && w >= 0 && Nonempty(stacks, t)
    requires TopOf(stacks, t) == ExecRun(k, batch, i) && i >= |batch| && q.count != |batch|
    ensures SerOk(Replace(stacks, t, ExecDecide(k)), q.(count := q.count - |batch|), w, k)
  {
    var stacks' := Replace(stacks, t, ExecDecide(k));
    BatchIs(stacks, q, w, k, t);
    ReplaceCounts(stacks, t, ExecDecide(k), k);
    NoBatchLeft(stacks, stacks', q, w, k, t);
  }

  /** The executor subtracts its batch and nothing is left, so ownership ends. */
  lemma FetchSubReleases(stacks: Stacks<Frame>, q: Serializer, w: int, k: Sid, t: Tid, batch: seq<Job>, i: nat)
    requires SerOk(stacks, q, w, k) && w >= 0 && Nonempty(stacks, t)
    requires TopOf(stacks, t) == ExecRun(k, batch, i) && i >= |batch| && q.count == |batch|
    ensures SerOk(Pop(stacks, t), q.(count := q.count - |batch|), w, k)
  {
    BatchIs(stacks, q, w, k, t);
    Popped(stacks, t, Token(k));
    Popped(stacks, t, Announced(k));
    NoBatchLeft(stacks, Pop(stacks, t), q, w, k, t);
  }

  lemma BatchIs(stacks: Stacks<Frame>, q: Serializer, w: int, k: Sid, t: Tid)
    requires SerOk(stacks, q, w, k) && w >= 0 && Nonempty(stacks, t) && Batch(k)(TopOf(stacks, t))
    ensures BatchOk(TopOf(stacks, t), q, Count(stacks, Announced(k)))
    ensures q.count > 0 && w == 0 && Count(stacks, Token(k)) == 1
  {
    var n := |stacks[t]| - 1;
    assert At(stacks, t, n) && Batch(k)(stacks[t][n]);
    SoleOwner(stacks, q, w, k, t, n);
  }

  /** Once the frame of the only batch holder is gone or replaced, no batch of k is left. */
  lemma NoBatchLeft(stacks: Stacks<Frame>, stacks': Stacks<Frame>, q: Serializer, w: int, k: Sid, t: Tid)
    requires SerOk(stacks, q, w, k) && w >= 0 && Nonempty(stacks, t) && Batch(k)(TopOf(stacks, t))
    requires stacks' == Pop(stacks, t) || stacks' == Replace(stacks, t, ExecDecide(k))
    ensures Count(stacks', Batch(k)) == 0
    ensures forall u, j :: At(stacks', u, j) ==> !Batch(k)(stacks'[u][j])
  {
    hide SerOk, Count;
    var n := |stacks[t]| - 1;
    forall u, j | At(stacks', u, j) ensures !Batch(k)(stacks'[u][j]) {
      if (u != t || j != n) && Batch(k)(stacks'[u][j]) {
        assert At(stacks, u, j) && Token(k)(stacks[u][j]);
        SoleOwner(stacks, q, w, k, t, n);
      }
    }
    Unoccupied(stacks', Batch(k));
  }

  // ---- Well-formedness -----------------------------------------------------------------------------

  lemma KnownTop(s: State, t: Tid)
    requires WellFormed(s) && Active(s, t)
    ensures Known(Top(s, t), s.sers.Keys)
  {
    assert At(s.stacks, t, |s.stacks[t]| - 1);
  }

  /** Every way a step changes the stacks keeps their frames on known serializers. */
  lemma KnownKept(stacks: Stacks<Frame>, t: Tid, f: Frame, sids: set<Sid>)
    requires AllKnown(stacks, sids) && t in stacks && Known(f, sids)
    ensures AllKnown(Push(stacks, t, f), sids)
    ensures Nonempty(stacks, t) ==> AllKnown(Pop(stacks, t), sids) && AllKnown(Replace(stacks, t, f), sids)
  {
  }

  // ---- Steps of the protocol ---------------------------------------------------------------------

  lemma FetchAddInv(s: State, t: Tid, k: Sid, job: Job)
    requires Inv(s) && Active(s, t) && Top(s, t) == PushStart(k, job) && k in s.sers
    ensures Inv(FetchAdd(s, t, k, job))
  {
    hide SerOk, AllKnown;
    var s' := FetchAdd(s, t, k, job);
    var f := PushAnnounced(k, job, s.sers[k].count);
    assert s'.sers.Keys == s.sers.Keys;
    KnownKept(s.stacks, t, f, s.sers.Keys);
    forall k' | k' in s'.sers ensures SerOk(s'.stacks, s'.sers[k'], multiset(s'.worker)[k'], k') {
      if k' == k { FetchAddKeeps(s.stacks, s.sers[k], multiset(s.worker)[k], k, t, job); }
      else { ReplaceKeeps(s.stacks, s.sers[k'], multiset(s.worker)[k'], k', t, f); }
    }
  }

  lemma EnqueueInv(s: State, t: Tid, k: Sid, job: Job, prev: int)
    requires Inv(s) && Active(s, t) && Top(s, t) == PushAnnounced(k, job, prev) && k in s.sers
    ensures Inv(Enqueue(s, t, k, job, prev))
  {
    hide SerOk, AllKnown;
    var s' := Enqueue(s, t, k, job, prev);
    assert s'.sers.Keys == s.sers.Keys;
    KnownKept(s.stacks, t, PushQueued(k, prev), s.sers.Keys);
    forall k' | k' in s'.sers ensures SerOk(s'.stacks, s'.sers[k'], multiset(s'.worker)[k'], k') {
      if k' == k { EnqueueKeeps(s.stacks, s.sers[k], multiset(s.worker)[k], k, t, job, prev); }
      else { ReplaceKeeps(s.stacks, s.sers[k'], multiset(s.worker)[k'], k', t, PushQueued(k, prev)); }
    }
  }

  /** Replacing a frame by one with the same role in every serializer, neither holding a batch. */
  lemma SetTopInv(s: State, t: Tid, f: Frame)
    requires Inv(s) && Active(s, t) && Known(f, s.sers.Keys)
    requires forall k :: Token(k)(Top(s, t)) == Token(k)(f)
    requires !Top(s, t).PushAnnounced? && !f.PushAnnounced?
    requires !(Top(s, t).ExecRun? || Top(s, t).ExecJob? || f.ExecRun? || f.ExecJob?)
    ensures Inv(SetTop(s, t, f))
  {
    hide SerOk, AllKnown;
    var s' := SetTop(s, t, f);
    KnownKept(s.stacks, t, f, s.sers.Keys);
    forall k | k in s'.sers ensures SerOk(s'.stacks, s'.sers[k], multiset(s'.worker)[k], k) {
      ReplaceKeeps(s.stacks, s.sers[k], multiset(s.worker)[k], k, t, f);
    }
  }

  /** Returning from a call that owns nothing. */
  lemma ReturnInv(s: State, t: Tid)
    requires Inv(s) && Active(s, t) && !Top(s, t).PushAnnounced?
    requires forall k :: !Token(k)(Top(s, t))
    ensures Inv(Return(s, t))
  {
    hide SerOk, AllKnown;
    var s' := Return(s, t);
    KnownKept(s.stacks, t, Worker, s.sers.Keys);
    forall k | k in s'.sers ensures SerOk(s'.stacks, s'.sers[k], multiset(s'.worker)[k], k) {
      assert !Token(k)(Top(s, t));
      PopKeeps(s.stacks, s.sers[k], multiset(s.worker)[k], k, t);
    }
  }

  /** Entering a call that owns nothing yet. */
  lemma CallInv(s: State, t: Tid, f: Frame)
    requires Inv(s) && IsThread(s, t) && Known(f, s.sers.Keys)
    requires f.PushStart? || f.Worker? || f.CheckStart?
    ensures Inv(Call(s, t, f))
  {
    hide SerOk, AllKnown;
    var s' := Call(s, t, f);
    KnownKept(s.stacks, t, f, s.sers.Keys);
    forall k | k in s'.sers ensures SerOk(s'.stacks, s'.sers[k], multiset(s'.worker)[k], k) {
      PushKeeps(s.stacks, s.sers[k], multiset(s.worker)[k], k, t, f);
    }
  }

  lemma HandOffInv(s: State, t: Tid, k: Sid)
    requires Inv(s) && Active(s, t) && k in s.sers
    requires Top(s, t) == PushQueued(k, 0) || Top(s, t) == ExecDecide(k)
    ensures Inv(HandOff(s, t, k))
  {
    hide SerOk, AllKnown;
    var s' := HandOff(s, t, k);
    KnownKept(s.stacks, t, Worker, s.sers.Keys);
    forall k' | k' in s'.sers ensures SerOk(s'.stacks, s'.sers[k'], multiset(s'.worker)[k'], k') {
      PopKeeps(s.stacks, s.sers[k'], multiset(s.worker)[k'], k', t);
    }
  }

  lemma TakeAllInv(s: State, t: Tid, k: Sid)
    requires Inv(s) && Active(s, t) && Top(s, t) == ExecTake(k) && k in s.sers
    ensures Inv(TakeAll(s, t, k))
  {
    hide SerOk, AllKnown;
    var s' := TakeAll(s, t, k);
    var f := ExecRun(k, s.sers[k].queue, 0);
    assert s'.sers.Keys == s.sers.Keys;
    KnownKept(s.stacks, t, f, s.sers.Keys);
    forall k' | k' in s'.sers ensures SerOk(s'.stacks, s'.sers[k'], multiset(s'.worker)[k'], k') {
      if k' == k { TakeAllKeeps(s.stacks, s.sers[k], multiset(s.worker)[k], k, t); }
      else { ReplaceKeeps(s.stacks, s.sers[k'], multiset(s.worker)[k'], k', t, f); }
    }
  }

  /** The executor of k moves on in its batch, and `ran` becomes `ran'`. */
  lemma RunInv(s: State, t: Tid, k: Sid, f: Frame, ran': seq<Job>)
    requires Inv(s) && Active(s, t) && k in s.sers && Batch(k)(Top(s, t)) && Batch(k)(f)
    requires BatchOk(f, s.sers[k].(ran := ran'), Count(s.stacks, Announced(k)))
    ensures Inv(SetSer(SetTop(s, t, f), k, s.sers[k].(ran := ran')))
  {
    hide SerOk, AllKnown, BatchOk;
    var q' := s.sers[k].(ran := ran');
    var s' := SetSer(SetTop(s, t, f), k, q');
    assert s'.sers.Keys == s.sers.Keys;
    KnownKept(s.stacks, t, f, s.sers.Keys);
    forall k' | k' in s'.sers ensures SerOk(s'.stacks, s'.sers[k'], multiset(s'.worker)[k'], k') {
      if k' == k { RunKeeps(s.stacks, s.sers[k], q', multiset(s.worker)[k], k, t, f); }
      else { ReplaceKeeps(s.stacks, s.sers[k'], multiset(s.worker)[k'], k', t, f); }
    }
  }

  lemma StartJobInv(s: State, t: Tid, k: Sid, batch: seq<Job>, i: nat)
    requires Inv(s) && Active(s, t) && Top(s, t) == ExecRun(k, batch, i) && i < |batch| && k in s.sers
    ensures Inv(StartJob(s, t, k, batch, i))
  {
    hide SerOk, WellFormed;
    BatchIs(s.stacks, s.sers[k], multiset(s.worker)[k], k, t);
    assert batch[i..] == [batch[i]] + batch[i + 1..];
    RunInv(s, t, k, ExecJob(k, batch, i), s.sers[k].ran + [batch[i]]);
  }

  lemma EndJobInv(s: State, t: Tid, k: Sid, batch: seq<Job>, i: nat)
    requires Inv(s) && Active(s, t) && Top(s, t) == ExecJob(k, batch, i) && k in s.sers
    ensures Inv(SetTop(s, t, ExecRun(k, batch, i + 1)))
  {
    hide SerOk, WellFormed;
    BatchIs(s.stacks, s.sers[k], multiset(s.worker)[k], k, t);
    var f := ExecRun(k, batch, i + 1);
    RunInv(s, t, k, f, s.sers[k].ran);
    assert SetSer(SetTop(s, t, f), k, s.sers[k].(ran := s.sers[k].ran)) == SetTop(s, t, f);
  }

  lemma FetchSubInv(s: State, t: Tid, k: Sid, batch: seq<Job>, i: nat)
    requires Inv(s) && Active(s, t) && Top(s, t) == ExecRun(k, batch, i) && i >= |batch| && k in s.sers
    ensures Inv(FetchSub(s, t, k, batch))
  {
    hide SerOk, AllKnown;
    var s' := FetchSub(s, t, k, batch);
    assert s'.sers.Keys == s.sers.Keys;
    KnownKept(s.stacks, t, ExecDecide(k), s.sers.Keys);
    if s.sers[k].count == |batch| {
      forall k' | k' in s'.sers ensures SerOk(s'.stacks, s'.sers[k'], multiset(s'.worker)[k'], k') {
        if k' == k { FetchSubReleases(s.stacks, s.sers[k], multiset(s.worker)[k], k, t, batch, i); }
        else { PopKeeps(s.stacks, s.sers[k'], multiset(s.worker)[k'], k', t); }
      }
    } else {
      forall k' | k' in s'.sers ensures SerOk(s'.stacks, s'.sers[k'], multiset(s'.worker)[k'], k') {
        if k' == k { FetchSubGoesOn(s.stacks, s.sers[k], multiset(s.worker)[k], k, t, batch, i); }
        else { ReplaceKeeps(s.stacks, s.sers[k'], multiset(s.worker)[k'], k', t, ExecDecide(k)); }
      }
    }
  }

  lemma WorkerPopInv(s: State, t: Tid)
    requires Inv(s) && Active(s, t) && s.worker != []
    ensures Inv(WorkerPop(s, t))
  {
    hide SerOk, AllKnown;
    var s' := WorkerPop(s, t);
    var f := ExecBegin(s.worker[0]);
    assert s.worker == [s.worker[0]] + s'.worker;
    assert s.worker[0] in s.worker;
    KnownKept(s.stacks, t, f, s.sers.Keys);
    forall k | k in s'.sers ensures SerOk(s'.stacks, s'.sers[k], multiset(s'.worker)[k], k) {
      PushKeeps(s.stacks, s.sers[k], multiset(s.worker)[k], k, t, f);
    }
  }

  lemma TestDueInv(s: State, t: Tid, now: nat, due: seq<Rid>, i: nat)
    requires Inv(s) && Active(s, t) && Top(s, t) == CheckTest(now, due, i) && i < |due|
    requires due[i] < |s.timer.table|
    ensures Inv(TestDue(s, t, now, due, i))
  {
    hide SerOk, AllKnown;
    SetTopInv(s, t, CheckFree(now, due, i));
    var ok := MayPush(s, due[i]);
    var owner := s.timer.table[due[i]].owner;
    var s1 := SetTop(s, t, CheckFree(now, due, i)).(
      timer := s.timer.(inHand := due[i + 1..], tests := s.timer.tests + [Test(due[i], now, owner, ok)]));
    if ok {
      CallInv(s1, t, PushStart(owner, Job(t, s.locals[t].pushes, Reserved(due[i]))));
    }
  }

  lemma SameOwners(s: State, s': State)
    requires Inv(s) && s'.stacks == s.stacks && s'.sers == s.sers && s'.worker == s.worker
    requires s'.locals.Keys == s.locals.Keys && s'.live <= s.live
    requires forall r :: 0 <= r < |s'.timer.table| ==> s'.timer.table[r].owner in s.sers
    ensures Inv(s')
  {
  }

  lemma AdvanceInv(s: State, t: Tid, timeout: bool, due: seq<Rid>, s': State)
    requires Inv(s) && Active(s, t) && Advanced(s, t, timeout, due, s')
    ensures Inv(s')
  {
    hide SerOk, AllKnown, FetchAdd, Enqueue, TakeAll, StartJob, FetchSub, WorkerPop, TestDue, HandOff,
      Replace, Pop, Push, Extraction;
    KnownTop(s, t);
    match Top(s, t)
    case PushStart(k, job) => FetchAddInv(s, t, k, job);
    case PushAnnounced(k, job, prev) => EnqueueInv(s, t, k, job, prev);
    case PushQueued(k, prev) =>
      if prev != 0 { ReturnInv(s, t); }
      else if s.locals[t].current == None { SetTopInv(s, t, ExecBegin(k)); }
      else { HandOffInv(s, t, k); }
    case ExecBegin(k) =>
      SetTopInv(s, t, ExecTake(k));
      SameOwners(SetTop(s, t, ExecTake(k)), s');
    case ExecTake(k) => TakeAllInv(s, t, k);
    case ExecRun(k, batch, i) =>
      if i < |batch| { StartJobInv(s, t, k, batch, i); } else { FetchSubInv(s, t, k, batch, i); }
    case ExecJob(k, batch, i) => EndJobInv(s, t, k, batch, i);
    case ExecDecide(k) =>
      if timeout {
        SameOwners(s, SetCurrent(s, t, None));
        HandOffInv(SetCurrent(s, t, None), t, k);
      } else {
        SetTopInv(s, t, ExecTake(k));
      }
    case Worker => if timeout || s.worker == [] { ReturnInv(s, t); } else { WorkerPopInv(s, t); }
    case _ => CheckInv(s, t, timeout, due, s');
  }

  lemma CheckInv(s: State, t: Tid, timeout: bool, due: seq<Rid>, s': State)
    requires Inv(s) && Active(s, t) && Advanced(s, t, timeout, due, s')
    requires Top(s, t).CheckStart? || Top(s, t).CheckLocked? || Top(s, t).CheckTest? || Top(s, t).CheckFree?
    ensures Inv(s')
  {
    hide Inv, TestDue, Replace, Pop, Push, Extraction;
    match Top(s, t)
    case CheckStart(now) =>
      if s.timer.busy {
        ReturnInv(s, t);
      } else {
        SetTopInv(s, t, CheckLocked(now));
        TimerMoves(SetTop(s, t, CheckLocked(now)), s');
      }
    case CheckLocked(now) =>
      SetTopInv(s, t, CheckTest(now, due, 0));
      TimerMoves(SetTop(s, t, CheckTest(now, due, 0)), s');
    case CheckTest(now, due', i) =>
      if i < |due'| {
        TestDueInv(s, t, now, due', i);
      } else {
        ReturnInv(s, t);
        TimerMoves(Return(s, t), s');
      }
    case CheckFree(now, due', i) =>
      SetTopInv(s, t, CheckTest(now, due', i + 1));
      TimerMoves(SetTop(s, t, CheckTest(now, due', i + 1)), s');
  }

  lemma TimerMoves(s: State, s': State)
    requires Inv(s) && s' == s.(timer := s'.timer) && s'.timer.table == s.timer.table
    ensures Inv(s')
  {
    hide SerOk;
  }

  lemma StepInv(s: State, step: Step, s': State)
    requires Inv(s) && Do(s, step, s')
    ensures Inv(s')
  {
    hide SerOk, AllKnown, Advanced;
    match step
    case Advance(t, timeout, due) => AdvanceInv(s, t, timeout, due, s');
    case StartPush(t, k) => CallInv(s, t, PushStart(k, Job(t, s.locals[t].pushes, Direct)));
    case StartDoJobs(t) => CallInv(s, t, Worker);
    case StartCheck(t, now) => CallInv(s, t, CheckStart(now));
    case _ => SameOwners(s, s');
  }

  lemma InvInitially(s: State)
    requires Init(s)
    ensures Inv(s)
  {
    forall k | k in s.sers ensures SerOk(s.stacks, s.sers[k], multiset(s.worker)[k], k) {
      Unoccupied(s.stacks, Token(k));
      Unoccupied(s.stacks, Announced(k));
      Unoccupied(s.stacks, Batch(k));
    }
  }

  /** Every state of every run satisfies the invariant. */
  lemma {:induction false} Reachable(r: seq<State>, n: nat)
    requires Run(r) && n < |r|
    ensures Inv(r[n])
  {
    if n == 0 {
      InvInitially(r[0]);
    } else {
      Reachable(r, n - 1);
      assert Next(r[n - 1], r[n - 1 + 1]);
      var step :| Do(r[n - 1], step, r[n]);
      StepInv(r[n - 1], step, r[n]);
    }
  }

  // ---- Main results, for every state of every run -------------------------------------------------

  /** A call that executes, or is about to execute, jobs of serializer k. */
  predicate Executing(f: Frame, k: Sid) {
    (f.ExecBegin? || f.ExecTake? || f.ExecRun? || f.ExecJob? || f.ExecDecide?) && f.k == k
  }

  /** Mutual exclusion: at most one call, hence one thread, executes a serializer's jobs.  Two calls
      nested in one thread are excluded as well. */
  lemma AtMostOneExecutor(r: seq<State>, n: nat, k: Sid, t: Tid, i: int, u: Tid, j: int)
    requires Run(r) && n < |r|
    requires At(r[n].stacks, t, i) && Executing(r[n].stacks[t][i], k)
    requires At(r[n].stacks, u, j) && Executing(r[n].stacks[u][j], k)
    ensures t == u && i == j
  {
    hide SerOk;
    Reachable(r, n);
    assert Known(r[n].stacks[t][i], r[n].sers.Keys);
    SoleOwner(r[n].stacks, r[n].sers[k], multiset(r[n].worker)[k], k, t, i);
  }

  /** Executed jobs, then the rest of the batch in hand, then the queue: exactly the jobs enqueued,
      in that order.  So each job runs at most once and in the order of the enqueues. */
  lemma JobsRunInOrder(r: seq<State>, n: nat, k: Sid)
    requires Run(r) && n < |r| && k in r[n].sers
    ensures var q := r[n].sers[k];
            && (forall t, i :: At(r[n].stacks, t, i) && Batch(k)(r[n].stacks[t][i]) ==>
                  q.enqueued == q.ran + Rest(r[n].stacks[t][i]) + q.queue)
            && ((forall t, i :: At(r[n].stacks, t, i) ==> !Batch(k)(r[n].stacks[t][i])) ==>
                  q.enqueued == q.ran + q.queue)
            && q.ran <= q.enqueued
  {
    Reachable(r, n);
    RanIsPrefix(r[n], k);
    if forall t, i :: At(r[n].stacks, t, i) ==> !Batch(k)(r[n].stacks[t][i]) {
      Unoccupied(r[n].stacks, Batch(k));
    }
  }

  lemma RanIsPrefix(s: State, k: Sid)
    requires Inv(s) && k in s.sers
    ensures s.sers[k].ran <= s.sers[k].enqueued
  {
    if Count(s.stacks, Batch(k)) != 0 {
      var t, i := Witness(s.stacks, Batch(k));
      assert BatchOk(s.stacks[t][i], s.sers[k], Count(s.stacks, Announced(k)));
    }
  }

  /** The counter is positive exactly when one ownership token exists: a pusher that saw 0, an
      executor, or one entry of the worker queue. */
  lemma CountPositiveIffOwned(r: seq<State>, n: nat, k: Sid)
    requires Run(r) && n < |r| && k in r[n].sers
    ensures Count(r[n].stacks, Token(k)) + multiset(r[n].worker)[k] == (if r[n].sers[k].count > 0 then 1 else 0)
  {
    Reachable(r, n);
  }

  /** When the counter is 0 every job pushed so far has run, and no push is under way between its
      counter step and its queue step. */
  lemma CountZeroMeansAllRan(r: seq<State>, n: nat, k: Sid)
    requires Run(r) && n < |r| && k in r[n].sers && r[n].sers[k].count == 0
    ensures r[n].sers[k].ran == r[n].sers[k].enqueued && r[n].sers[k].queue == []
    ensures forall t, i :: At(r[n].stacks, t, i) ==> !Announced(k)(r[n].stacks[t][i])
  {
    Reachable(r, n);
    Settled(r[n], k);
  }

  lemma Settled(s: State, k: Sid)
    requires Inv(s) && k in s.sers && s.sers[k].count == 0
    ensures s.sers[k].ran == s.sers[k].enqueued && s.sers[k].queue == []
    ensures forall t, i :: At(s.stacks, t, i) ==> !Announced(k)(s.stacks[t][i])
  {
    hide SerOk;
    SettledSer(s.stacks, s.sers[k], multiset(s.worker)[k], k);
  }

  lemma SettledSer(stacks: Stacks<Frame>, q: Serializer, w: int, k: Sid)
    requires SerOk(stacks, q, w, k) && w >= 0 && q.count == 0
    ensures q.ran == q.enqueued && q.queue == []
    ensures forall t, i :: At(stacks, t, i) ==> !Announced(k)(stacks[t][i])
  {
    if Count(stacks, Batch(k)) > 0 {
      var t, i := Witness(stacks, Batch(k));
      Occupied(stacks, t, i, Token(k));
    }
    forall t, i | At(stacks, t, i) ensures !Announced(k)(stacks[t][i]) {
      if Announced(k)(stacks[t][i]) { Occupied(stacks, t, i, Announced(k)); }
    }
  }

  /** A serializer is only ever destroyed when it has nothing left to run: pending work always keeps
      a reference to it, in a call or in the worker queue. */
  lemma DestroyLosesNothing(r: seq<State>, n: nat, k: Sid)
    requires Run(r) && n < |r| && k in r[n].sers && Unreferenced(r[n], k)
    ensures r[n].sers[k].count == 0 && r[n].sers[k].ran == r[n].sers[k].enqueued
  {
    Reachable(r, n);
    Unoccupied(r[n].stacks, Token(k));
    Settled(r[n], k);
  }
}
