/** Small shared vocabulary. */
module Common {
  datatype Option<+T> = None | Some(value: T)

  /** A member of a set that is not empty. */
  lemma Member<T>(s: set<T>) returns (x: T)
    requires s != {}
    ensures x in s
  {
    x :| x in s;
  }

  lemma AtLeastOne<T>(s: set<T>, x: T)
    requires x in s
    ensures |s| >= 1
  {
    assert s == {x} + (s - {x});
  }

  lemma AtLeastTwo<T>(s: set<T>, x: T, y: T)
    requires x in s && y in s && x != y
    ensures |s| >= 2
  {
    assert s == {x, y} + (s - {x, y});
  }

  function Min(a: nat, b: nat): nat { if a <= b then a else b }

  lemma Associative<T>(a: seq<T>, b: seq<T>, c: seq<T>)
    ensures (a + b) + c == a + (b + c)
  {
  }

  lemma Cancels<T>(p: multiset<T>, q: multiset<T>, x: T)
    requires p + multiset{x} == q + multiset{x}
    ensures p == q
  {
    forall y ensures p[y] == q[y] {
      assert (p + multiset{x})[y] == (q + multiset{x})[y];
    }
  }
}

/**
 Runs of a state machine.  A machine is a total step function: an action that
 cannot happen in a state leaves that state alone, so every sequence of actions
 is a run and "for every run" is a quantifier over action sequences.
 */
module Runs {
  function Run<S, A>(step: (S, A) -> S, s: S, actions: seq<A>): S
    decreases |actions|
  {
    if actions == [] then s
    else step(Run(step, s, actions[..|actions| - 1]), actions[|actions| - 1])
  }

  lemma {:induction false} RunComposes<S, A>(step: (S, A) -> S, s: S, first: seq<A>, second: seq<A>)
    ensures Run(step, s, first + second) == Run(step, Run(step, s, first), second)
    decreases |second|
  {
    if second == [] {
      assert first + second == first;
    } else {
      var all, front := first + second, second[..|second| - 1];
      assert all[..|all| - 1] == first + front && all[|all| - 1] == second[|second| - 1];
      RunComposes(step, s, first, front);
    }
  }

  lemma RunOfOne<S, A>(step: (S, A) -> S, s: S, a: A)
    ensures Run(step, s, [a]) == step(s, a)
  {
    assert [a][..0] == [];
  }

  /** The first action of a run can be taken by hand. */
  lemma RunStartsWith<S, A>(step: (S, A) -> S, s: S, a: A, rest: seq<A>)
    ensures Run(step, s, [a] + rest) == Run(step, step(s, a), rest)
  {
    RunComposes(step, s, [a], rest);
    RunOfOne(step, s, a);
  }

  /** A run spelled out state by state. */
  ghost predicate Along<S, A>(step: (S, A) -> S, states: seq<S>, actions: seq<A>) {
    |states| == |actions| + 1 && forall k | 0 <= k < |actions| :: states[k + 1] == step(states[k], actions[k])
  }

  lemma {:induction false} RunAlong<S, A>(step: (S, A) -> S, states: seq<S>, actions: seq<A>)
    requires Along(step, states, actions)
    ensures Run(step, states[0], actions) == states[|actions|]
    decreases |actions|
  {
    if actions != [] {
      var n := |actions| - 1;
      RunAlong(step, states[..n + 1], actions[..n]);
      assert states[n + 1] == step(states[n], actions[n]);
    }
  }

  /** What holds at the start and survives every step holds after every run. */
  lemma {:induction false} RunInvariant<S(!new), A(!new)>(step: (S, A) -> S, inv: S -> bool, s: S, actions: seq<A>)
    requires inv(s)
    requires forall t, a :: inv(t) ==> inv(step(t, a))
    ensures inv(Run(step, s, actions))
    decreases |actions|
  {
    if actions != [] {
      RunInvariant(step, inv, s, actions[..|actions| - 1]);
    }
  }
}
