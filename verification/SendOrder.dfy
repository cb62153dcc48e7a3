/** Order on the outgoing path: when the packets of all flushes leave in the order in which `Send` took them,
    and what receiving them then gives. */
module SendOrder {
  import opened Framing
  import opened SendPath

  /** `_send` is only called by flushes. */
  ghost predicate OnlyFlushes(ls: seq<Label>) {
    forall i :: 0 <= i < |ls| ==> !ls[i].step.CallSend?
  }

  function Encoded(ps: seq<Packet>): (bufs: seq<Buf>)
    ensures |bufs| == |ps| && forall i :: 0 <= i < |ps| ==> bufs[i] == Buf(i, Encode(ps[i]))
  {
    seq(|ps|, i requires 0 <= i < |ps| => Buf(i, Encode(ps[i])))
  }

  // ---- Every packet is in one place ---------------------------------------------------------------------------

  /** t has a list in hand that it took out of the reserve and has not yet queued. */
  predicate Holds(s: State, t: Tid) {
    t in s.pcs && s.pcs[t].Ready?
  }

  /** The place of its list among all that was taken. */
  ghost predicate ListOk(list: seq<Buf>, taken: seq<Buf>) {
    list != [] && list[0].n + |list| <= |taken| && list == taken[list[0].n..list[0].n + |list|]
  }

  predicate Within(x: nat, list: seq<Buf>) {
    list != [] && list[0].n <= x < list[0].n + |list|
  }

  predicate Apart(a: seq<Buf>, b: seq<Buf>) {
    a != [] && b != [] && (a[0].n + |a| <= b[0].n || b[0].n + |b| <= a[0].n)
  }

  ghost predicate Numbered(taken: seq<Buf>) {
    forall x :: 0 <= x < |taken| ==> taken[x].n == x
  }

  ghost predicate ListsOk(s: State) {
    && (forall t :: Holds(s, t) ==> ListOk(s.pcs[t].list, s.taken))
    && forall t, u :: Holds(s, t) && Holds(s, u) && t != u ==> Apart(s.pcs[t].list, s.pcs[u].list)
  }

  /** Each locked buffer is a taken one, locked once, and no longer in anybody's hands. */
  ghost predicate LockedOk(s: State) {
    && (forall j :: 0 <= j < |s.locked| ==> s.locked[j].n < |s.taken| && s.locked[j] == s.taken[s.locked[j].n])
    && (forall i, j :: 0 <= i < j < |s.locked| ==> s.locked[i].n != s.locked[j].n)
    && forall t, j :: Holds(s, t) && 0 <= j < |s.locked| ==> !Within(s.locked[j].n, s.pcs[t].list)
  }

  ghost predicate Somewhere(s: State, x: nat) {
    || (exists j :: 0 <= j < |s.locked| && s.locked[j].n == x)
    || (exists t :: Holds(s, t) && Within(x, s.pcs[t].list))
  }

  ghost predicate NoneMissing(s: State) {
    forall x :: 0 <= x < |s.taken| ==> Somewhere(s, x)
  }

  ghost predicate SentOk(s: State) {
    AllFit(s.accepted) && s.taken + s.reserved == Encoded(s.accepted)
  }

  ghost predicate Inv(s: State) {
    SentOk(s) && Numbered(s.taken) && ListsOk(s) && LockedOk(s) && NoneMissing(s)
  }

  /** A step that neither takes nor locks a list. */
  ghost predicate Idles(s: State, s': State) {
    && s'.taken == s.taken && s'.locked == s.locked
    && (forall t :: Holds(s', t) <==> Holds(s, t))
    && forall t :: Holds(s, t) ==> s'.pcs[t] == s.pcs[t]
  }

  lemma IdlesKeep(s: State, s': State)
    requires Idles(s, s') && ListsOk(s) && LockedOk(s) && NoneMissing(s)
    ensures ListsOk(s') && LockedOk(s') && NoneMissing(s')
  {
    hide ListOk, Within, Apart;
    forall x | 0 <= x < |s'.taken| ensures Somewhere(s', x) { assert Somewhere(s, x); }
  }

  lemma SendKeeps(s: State, p: Packet)
    requires SentOk(s) && Fits(p)
    ensures SentOk(Accept(s, p))
  {
    hide Encode;
    var b := Buf(|s.accepted|, Encode(p));
    assert Encoded(s.accepted + [p]) == Encoded(s.accepted) + [b];
    assert s.taken + (s.reserved + [b]) == (s.taken + s.reserved) + [b];
  }

  /** The reserve goes, as a whole, behind everything taken before. */
  lemma TakeKeeps(s: State, t: Tid)
    requires Inv(s) && t in s.pcs && s.pcs[t] == Flushing && s.reserved != []
    ensures Inv(TakeReserved(s, t))
  {
    var s', n, list := TakeReserved(s, t), |s.taken|, s.reserved;
    assert s'.taken + [] == s'.taken;
    TakenNumbered(s);
    assert ListOk(list, s'.taken) && list[0].n == n;
    hide SentOk, Encoded;
    TakeLists(s, s', t);
    hide ListsOk;
    forall j | 0 <= j < |s'.locked| ensures s'.locked[j].n < |s'.taken| && s'.locked[j] == s'.taken[s'.locked[j].n] {
      assert s.locked[j] == s.taken[s.locked[j].n];
    }
    TakeMisses(s, s', t);
  }

  lemma TakenNumbered(s: State)
    requires SentOk(s)
    ensures Numbered(s.taken + s.reserved)
    ensures s.reserved != [] ==> ListOk(s.reserved, s.taken + s.reserved) && s.reserved[0].n == |s.taken|
  {
    hide Encode;
    var all := s.taken + s.reserved;
    assert all == Encoded(s.accepted);
    if s.reserved != [] { assert s.reserved[0] == all[|s.taken|]; }
  }

  lemma TakeLists(s: State, s': State, t: Tid)
    requires ListsOk(s) && t in s.pcs && !s.pcs[t].Ready? && s'.pcs == s.pcs[t := Ready(s.reserved)]
    requires s'.taken == s.taken + s.reserved && ListOk(s.reserved, s'.taken) && s.reserved[0].n == |s.taken|
    ensures ListsOk(s')
  {
    forall u | Holds(s', u) ensures ListOk(s'.pcs[u].list, s'.taken) {
      if u != t { assert Holds(s, u) && ListOk(s.pcs[u].list, s.taken); }
    }
    forall u, v | Holds(s', u) && Holds(s', v) && u != v ensures Apart(s'.pcs[u].list, s'.pcs[v].list) {
      if u != t { assert Holds(s, u) && ListOk(s.pcs[u].list, s.taken); }
      if v != t { assert Holds(s, v) && ListOk(s.pcs[v].list, s.taken); }
    }
  }

  lemma TakeMisses(s: State, s': State, t: Tid)
    requires NoneMissing(s) && t in s.pcs && !s.pcs[t].Ready? && s'.pcs == s.pcs[t := Ready(s.reserved)]
    requires s'.locked == s.locked && s'.taken == s.taken + s.reserved
    requires s.reserved != [] && s.reserved[0].n == |s.taken|
    ensures NoneMissing(s')
  {
    forall x | 0 <= x < |s'.taken| ensures Somewhere(s', x) {
      if x < |s.taken| {
        assert Somewhere(s, x);
        if u :| Holds(s, u) && Within(x, s.pcs[u].list) { assert Holds(s', u); }
      } else {
        assert Holds(s', t) && Within(x, s'.pcs[t].list);
      }
    }
  }

  /** A list goes from the hands of t to the locked buffers. */
  lemma AppendKeeps(s: State, t: Tid)
    requires Inv(s) && Holds(s, t)
    ensures Inv(Append(s, t, s.pcs[t].list))
  {
    var list := s.pcs[t].list;
    var s' := Append(s, t, list);
    hide SentOk;
    assert ListOk(list, s.taken);
    ListNumbers(list, s.taken);
    hide ListOk, Numbered;
    assert forall u :: Holds(s', u) <==> Holds(s, u) && u != t;
    AppendLocked(s, s', t);
    AppendMisses(s, s', t);
  }

  lemma ListNumbers(list: seq<Buf>, taken: seq<Buf>)
    requires ListOk(list, taken) && Numbered(taken)
    ensures forall i :: 0 <= i < |list| ==>
              list[i].n == list[0].n + i && list[i].n < |taken| && list[i] == taken[list[i].n]
  {
    forall i | 0 <= i < |list| ensures list[i].n == list[0].n + i && list[i] == taken[list[0].n + i] {
      assert list[i] == taken[list[0].n..list[0].n + |list|][i];
    }
  }

  lemma AppendLocked(s: State, s': State, t: Tid)
    requires ListsOk(s) && LockedOk(s) && Holds(s, t) && s'.locked == s.locked + s.pcs[t].list && s'.taken == s.taken
    requires forall u :: Holds(s', u) <==> Holds(s, u) && u != t
    requires forall u :: Holds(s, u) && u != t ==> u in s'.pcs && s'.pcs[u] == s.pcs[u]
    requires var list := s.pcs[t].list;
             list != [] && forall i :: 0 <= i < |list| ==>
               list[i].n == list[0].n + i && list[i].n < |s.taken| && list[i] == s.taken[list[i].n]
    ensures LockedOk(s')
  {
    hide ListOk;
    var list, n := s.pcs[t].list, |s.locked|;
    forall i, j | 0 <= i < j < |s'.locked| ensures s'.locked[i].n != s'.locked[j].n {
      if i < n <= j { assert !Within(s.locked[i].n, list); }
    }
    forall u, j | Holds(s', u) && 0 <= j < |s'.locked| ensures !Within(s'.locked[j].n, s'.pcs[u].list) {
      if j < n {
        assert !Within(s.locked[j].n, s.pcs[u].list);
      } else {
        assert Apart(list, s.pcs[u].list) && s'.locked[j] == list[j - n];
      }
    }
  }

  lemma AppendMisses(s: State, s': State, t: Tid)
    requires NoneMissing(s) && Holds(s, t) && s'.locked == s.locked + s.pcs[t].list && s'.taken == s.taken
    requires forall u :: Holds(s', u) <==> Holds(s, u) && u != t
    requires forall u :: Holds(s, u) && u != t ==> u in s'.pcs && s'.pcs[u] == s.pcs[u]
    requires var list := s.pcs[t].list; forall i :: 0 <= i < |list| ==> list[i].n == list[0].n + i
    ensures NoneMissing(s')
  {
    var list, n := s.pcs[t].list, |s.locked|;
    forall x | 0 <= x < |s'.taken| ensures Somewhere(s', x) {
      assert Somewhere(s, x);
      if j :| 0 <= j < n && s.locked[j].n == x {
        assert s'.locked[j].n == x;
      } else {
        var u :| Holds(s, u) && Within(x, s.pcs[u].list);
        if u == t { assert s'.locked[n + (x - list[0].n)].n == x; } else { assert Holds(s', u); }
      }
    }
  }

  lemma StepKeeps(s: State, t: Tid, step: Step, s': State)
    requires Inv(s) && Do(s, t, step, s') && !step.CallSend?
    ensures Inv(s')
  {
    hide Encode, Encoded, AllFit, Proceed, Cut, SentOk, Numbered, ListsOk, LockedOk, NoneMissing;
    if step.Send? {
      SendKeeps(s, step.p);
      IdlesKeep(s, s');
    } else if step == Advance {
      ProceedKeeps(s, t, s');
    } else {
      SameSent(s, s');
      IdlesKeep(s, s');
    }
  }

  lemma SameSent(s: State, s': State)
    requires SentOk(s) && s'.accepted == s.accepted && s'.taken == s.taken && s'.reserved == s.reserved
    ensures SentOk(s')
  {
  }

  lemma ProceedKeeps(s: State, t: Tid, s': State)
    requires Inv(s) && t in s.pcs && Proceed(s, t, s')
    ensures Inv(s')
  {
    hide SentOk, Numbered, ListsOk, LockedOk, NoneMissing;
    if s.pcs[t] == Flushing && s.reserved != [] {
      TakeKeeps(s, t);
    } else if s.pcs[t].Ready? {
      AppendKeeps(s, t);
    } else {
      ProceedIdles(s, t, s');
      hide Proceed;
      SameSent(s, s');
      IdlesKeep(s, s');
    }
  }

  lemma ProceedIdles(s: State, t: Tid, s': State)
    requires t in s.pcs && Proceed(s, t, s') && !s.pcs[t].Ready? && (s.pcs[t] == Flushing ==> s.reserved == [])
    ensures Idles(s, s') && s'.accepted == s.accepted && s'.reserved == s.reserved
  {
  }

  lemma Initially(s: State)
    requires Init(s)
    ensures Inv(s)
  {
    assert Encoded([]) == [];
  }

  /** With any number of flushers: the packets taken are the packets given to `Send`, in that order, and each is
      in one place, in the hands of a flush or among the locked buffers. */
  lemma {:induction false} Reachable(r: seq<State>, ls: seq<Label>, n: nat)
    requires Run(r, ls) && n < |r| && OnlyFlushes(ls)
    ensures Inv(r[n])
  {
    hide Do, Inv, Init;
    if n == 0 {
      Initially(r[0]);
    } else {
      Reachable(r, ls, n - 1);
      StepOf(r, ls, n);
      StepKeeps(r[n - 1], ls[n - 1].t, ls[n - 1].step, r[n]);
    }
  }

  // ---- When order is kept -------------------------------------------------------------------------------------

  /** t is about to queue its list while another thread still has an earlier one in hand. */
  ghost predicate Overtakes(s: State, t: Tid) {
    && Holds(s, t) && s.pcs[t].list != []
    && exists u :: Holds(s, u) && u != t && s.pcs[u].list != [] && s.pcs[u].list[0].n < s.pcs[t].list[0].n
  }

  /** Before the n-th state, some flush overtook another. */
  ghost predicate Overtaken(r: seq<State>, ls: seq<Label>, n: nat)
    requires n <= |r| && n <= |ls|
  {
    exists i :: 0 <= i < n && ls[i].step == Advance && Overtakes(r[i], ls[i].t)
  }

  /** In order so far: queueing a list keeps the order exactly if it overtakes nobody. */
  lemma AppendInOrderIff(s: State, t: Tid)
    requires Inv(s) && Holds(s, t) && s.locked <= s.taken
    ensures s.locked + s.pcs[t].list <= s.taken <==> !Overtakes(s, t)
  {
    hide SentOk;
    var list, n := s.pcs[t].list, |s.locked|;
    assert ListOk(list, s.taken);
    HeldIsNotLocked(s, t);
    if Overtakes(s, t) {
      var u :| Holds(s, u) && u != t && s.pcs[u].list != [] && s.pcs[u].list[0].n < list[0].n;
      HeldIsNotLocked(s, u);
      assert (s.locked + list)[n] == list[0] && list[0].n > n;
    } else if list[0].n > n {
      var u := FirstHeld(s);
    } else {
      assert s.locked + list == s.taken[..n + |list|];
    }
  }

  lemma HeldIsNotLocked(s: State, u: Tid)
    requires LockedOk(s) && ListsOk(s) && Numbered(s.taken) && Holds(s, u) && s.locked <= s.taken
    ensures s.pcs[u].list != [] && s.pcs[u].list[0].n >= |s.locked|
  {
    var list := s.pcs[u].list;
    assert ListOk(list, s.taken);
    if list[0].n < |s.locked| { assert s.locked[list[0].n].n == list[0].n && Within(list[0].n, list); }
  }

  /** Behind an ordered prefix, the next packet is the first of a list in somebody's hands. */
  lemma FirstHeld(s: State) returns (u: Tid)
    requires Inv(s) && s.locked <= s.taken && |s.locked| < |s.taken|
    ensures Holds(s, u) && s.pcs[u].list != [] && s.pcs[u].list[0].n == |s.locked|
  {
    var n := |s.locked|;
    assert Somewhere(s, n);
    assert forall j :: 0 <= j < n ==> s.locked[j] == s.taken[j] && s.locked[j].n == j;
    u :| Holds(s, u) && Within(n, s.pcs[u].list);
    HeldIsNotLocked(s, u);
  }

  lemma OrderStep(s: State, t: Tid, step: Step, s': State)
    requires Inv(s) && Do(s, t, step, s') && !step.CallSend? && Inv(s')
    ensures s'.locked <= s'.taken <==> s.locked <= s.taken && !(step == Advance && Overtakes(s, t))
  {
    hide Inv, Proceed, Cut, Encode;
    if step == Advance {
      OrderProceeds(s, t, s');
    }
  }

  lemma OrderProceeds(s: State, t: Tid, s': State)
    requires Inv(s) && t in s.pcs && Proceed(s, t, s')
    ensures s'.locked <= s'.taken <==> s.locked <= s.taken && !Overtakes(s, t)
  {
    hide Inv;
    if s.pcs[t].Ready? {
      if s.locked <= s.taken { AppendInOrderIff(s, t); }
    } else if s.pcs[t] == Flushing {
      TakingKeepsOrder(s);
    }
  }

  /** What is taken later does not mend an order that is broken. */
  lemma TakingKeepsOrder(s: State)
    requires Inv(s)
    ensures s.locked <= s.taken + s.reserved <==> s.locked <= s.taken
  {
    TakenNumbered(s);
    hide SentOk, ListsOk, NoneMissing;
    var all := s.taken + s.reserved;
    if |s.locked| > |s.taken| {
      assert s.locked[|s.taken|].n != |s.taken|;
      assert |s.taken| < |all| ==> all[|s.taken|].n == |s.taken|;
    }
  }

  /** For any number of flushers: the buffers are locked in the order of `Send` exactly as long as no flush has
      overtaken another. */
  lemma {:induction false} LockedInOrderIff(r: seq<State>, ls: seq<Label>, n: nat)
    requires Run(r, ls) && n < |r| && OnlyFlushes(ls)
    ensures r[n].locked <= r[n].taken <==> !Overtaken(r, ls, n)
  {
    hide Do, Inv, Overtakes;
    if n > 0 {
      LockedInOrderIff(r, ls, n - 1);
      Reachable(r, ls, n - 1);
      Reachable(r, ls, n);
      StepOf(r, ls, n);
      OrderStep(r[n - 1], ls[n - 1].t, ls[n - 1].step, r[n]);
    }
  }

  /** Everything that was locked leaves, in the order of `Send`, exactly as long as no flush has overtaken another
      and no `_clear` has found anything in the queue. */
  lemma CompleteAndInOrderIff(r: seq<State>, ls: seq<Label>, n: nat)
    requires Run(r, ls) && n < |r| && OnlyFlushes(ls)
    ensures Outgoing(r[n]) <= Encoded(r[n].accepted) && |Outgoing(r[n])| == |r[n].locked|
            <==> !Overtaken(r, ls, n) && !Dropped(r, ls, n)
  {
    hide Run, Overtaken, Dropped, Flat, Unsubmitted, Surviving, SendPath.RegionOk, SendPath.HolderOk, SendPath.BytesOk;
    hide SendPath.QueueOk, Encode, ListsOk, NoneMissing;
    var s := r[n];
    LockedInOrderIff(r, ls, n);
    NothingLostIff(r, ls, n);
    Reachable(r, ls, n);
    SendPath.Reachable(r, ls, n);
    AllAliveIff(r, ls, n);
    SurvivingLength(s.locked, s.alive);
    TakingKeepsOrder(s);
  }

  // ---- End to end ----------------------------------------------------------------------------------------------

  /** The bytes of the buffers, one after the other. */
  function Join(bufs: seq<Buf>): seq<Byte> {
    if bufs == [] then [] else bufs[0].data + Join(bufs[1..])
  }

  lemma {:induction false} JoinEncoded(ps: seq<Packet>, bufs: seq<Buf>)
    requires |bufs| == |ps| && forall i :: 0 <= i < |ps| ==> bufs[i].data == Encode(ps[i])
    ensures Join(bufs) == Wire(ps)
  {
    hide Encode;
    if ps != [] { JoinEncoded(ps[1..], bufs[1..]); }
  }

  /** As long as no flush has overtaken another and no `_clear` has dropped anything, the bytes submitted so far are
      those of the first n packets given to `Send`, and receiving them dispatches exactly those packets, at the
      offsets of their payloads. */
  lemma SubmittedIsAPrefixOfSent(r: seq<State>, ls: seq<Label>, m: nat) returns (n: nat)
    requires Run(r, ls) && m < |r| && OnlyFlushes(ls) && !Overtaken(r, ls, m) && !Dropped(r, ls, m)
    ensures n <= |r[m].accepted| && AllFit(r[m].accepted)
    ensures var b := Join(Flat(r[m].submitted));
            && b == Wire(r[m].accepted[..n])
            && Framed(b, 0) && EndOf(b, 0) == |b| && Dispatches(b, 0) == Layout(r[m].accepted[..n], 0)
  {
    var s := r[m];
    CompleteAndInOrderIff(r, ls, m);
    Reachable(r, ls, m);
    hide Run, Dropped, Overtaken, ListsOk, LockedOk, NoneMissing, Numbered;
    hide Flat, Join, Encode, Wire, Framed, EndOf, Dispatches, Layout;
    var flat := Flat(s.submitted);
    n := |flat|;
    assert flat <= Outgoing(s) <= Encoded(s.accepted);
    JoinEncoded(s.accepted[..n], flat);
    RoundTrip(s.accepted[..n]);
  }

  /** Only f flushes; any thread may send. */
  ghost predicate OneFlusher(ls: seq<Label>, f: Tid) {
    forall i :: 0 <= i < |ls| && ls[i].step.CallFlush? ==> ls[i].t == f
  }

  ghost predicate OthersIdle(s: State, f: Tid) {
    forall t :: t in s.pcs && t != f ==> s.pcs[t] == Idle
  }

  lemma {:induction false} OthersStayIdle(r: seq<State>, ls: seq<Label>, n: nat, f: Tid)
    requires Run(r, ls) && n < |r| && OnlyFlushes(ls) && OneFlusher(ls, f)
    ensures OthersIdle(r[n], f)
  {
    hide Do;
    if n > 0 {
      OthersStayIdle(r, ls, n - 1, f);
      StepOf(r, ls, n);
      OthersIdleKept(r[n - 1], ls[n - 1].t, ls[n - 1].step, r[n], f);
    }
  }

  lemma OthersIdleKept(s: State, t: Tid, step: Step, s': State, f: Tid)
    requires OthersIdle(s, f) && Do(s, t, step, s') && !step.CallSend? && (step.CallFlush? ==> t == f)
    ensures OthersIdle(s', f)
  {
    StepsTheRegion(s, t, step, s');
    hide RegionStep, Encode, Drop;
  }

  /** With one flusher nobody is ever overtaken, so that only a `_clear` can break the order. */
  lemma OneFlusherNeverOvertakes(r: seq<State>, ls: seq<Label>, n: nat, f: Tid)
    requires Run(r, ls) && n < |r| && OnlyFlushes(ls) && OneFlusher(ls, f)
    ensures !Overtaken(r, ls, n)
  {
    forall i | 0 <= i < n && ls[i].step == Advance ensures !Overtakes(r[i], ls[i].t) {
      OthersStayIdle(r, ls, i, f);
    }
  }
}
