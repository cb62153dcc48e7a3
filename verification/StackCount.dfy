/** Stacks of all threads, and counting the entries with a given property over them. */
module StackCount {

  type Stacks<F> = map<nat, seq<F>>

  predicate Nonempty<F>(stacks: Stacks<F>, t: nat) {
    t in stacks && |stacks[t]| > 0
  }

  function TopOf<F>(stacks: Stacks<F>, t: nat): F
    requires Nonempty(stacks, t)
  {
    stacks[t][|stacks[t]| - 1]
  }

  function Replace<F>(stacks: Stacks<F>, t: nat, f: F): Stacks<F>
    requires Nonempty(stacks, t)
  {
    stacks[t := stacks[t][|stacks[t]| - 1 := f]]
  }

  function Pop<F>(stacks: Stacks<F>, t: nat): Stacks<F>
    requires Nonempty(stacks, t)
  {
    stacks[t := stacks[t][..|stacks[t]| - 1]]
  }

  function Push<F>(stacks: Stacks<F>, t: nat, f: F): Stacks<F>
    requires t in stacks
  {
    stacks[t := stacks[t] + [f]]
  }

  ghost predicate At<F>(stacks: Stacks<F>, t: nat, i: int) {
    t in stacks && 0 <= i < |stacks[t]|
  }

  ghost function Places<F>(stacks: Stacks<F>, p: F -> bool): set<(nat, int)> {
    set t, i | t in stacks && 0 <= i < |stacks[t]| && p(stacks[t][i]) :: (t, i)
  }

  ghost function Count<F>(stacks: Stacks<F>, p: F -> bool): nat {
    |Places(stacks, p)|
  }

  function Bit(b: bool): int {
    if b then 1 else 0
  }

  lemma Popped<F>(stacks: Stacks<F>, t: nat, p: F -> bool)
    requires Nonempty(stacks, t)
    ensures Count(Pop(stacks, t), p) == Count(stacks, p) - Bit(p(TopOf(stacks, t)))
  {
    var n, rest := |stacks[t]| - 1, Pop(stacks, t);
    var before, after := Places(stacks, p), Places(rest, p);
    forall u: nat, i: int ensures (u, i) in after <==> (u, i) in before && (u, i) != (t, n) {
      if u in stacks && 0 <= i < |rest[u]| { assert rest[u][i] == stacks[u][i]; }
    }
    assert after == before - {(t, n)};
    assert (t, n) in before <==> p(TopOf(stacks, t));
  }

  lemma Pushed<F>(stacks: Stacks<F>, t: nat, f: F, p: F -> bool)
    requires t in stacks
    ensures Count(Push(stacks, t, f), p) == Count(stacks, p) + Bit(p(f))
  {
    var n, grown := |stacks[t]|, Push(stacks, t, f);
    var before, after := Places(stacks, p), Places(grown, p);
    forall u: nat, i: int ensures (u, i) in before <==> (u, i) in after && (u, i) != (t, n) {
      if u in stacks && 0 <= i < |stacks[u]| { assert grown[u][i] == stacks[u][i]; }
    }
    assert before == after - {(t, n)};
    assert (t, n) in after <==> p(f);
  }

  lemma Replaced<F>(stacks: Stacks<F>, t: nat, f: F, p: F -> bool)
    requires Nonempty(stacks, t)
    ensures Count(Replace(stacks, t, f), p) == Count(stacks, p) - Bit(p(TopOf(stacks, t))) + Bit(p(f))
  {
    var popped := Pop(stacks, t);
    Popped(stacks, t, p);
    Pushed(popped, t, f, p);
    assert Replace(stacks, t, f) == Push(popped, t, f) by {
      assert stacks[t][|stacks[t]| - 1 := f] == popped[t] + [f];
    }
  }

  lemma Occupied<F>(stacks: Stacks<F>, t: nat, i: int, p: F -> bool)
    requires At(stacks, t, i) && p(stacks[t][i])
    ensures Count(stacks, p) >= 1
  {
    assert (t, i) in Places(stacks, p);
  }

  lemma Unoccupied<F>(stacks: Stacks<F>, p: F -> bool)
    requires forall t, i :: At(stacks, t, i) ==> !p(stacks[t][i])
    ensures Count(stacks, p) == 0
  {
    assert Places(stacks, p) == {};
  }

  lemma Witness<F>(stacks: Stacks<F>, p: F -> bool) returns (t: nat, i: int)
    requires Count(stacks, p) >= 1
    ensures At(stacks, t, i) && p(stacks[t][i])
  {
    var at :| at in Places(stacks, p);
    t, i := at.0, at.1;
  }

  lemma Unique<F>(stacks: Stacks<F>, p: F -> bool, t: nat, i: int, u: nat, j: int)
    requires Count(stacks, p) <= 1
    requires At(stacks, t, i) && p(stacks[t][i])
    requires At(stacks, u, j) && p(stacks[u][j])
    ensures t == u && i == j
  {
    var ps := Places(stacks, p);
    assert (t, i) in ps && (u, j) in ps;
    assert ps == {(t, i)} + (ps - {(t, i)});
  }
}
