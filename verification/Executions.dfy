/** Runs of a protocol, given by its step function, and what carries over from steps to runs. */
module Executions {
  import opened Wrappers

  function Execute<S, A>(step: (S, A) -> Option<S>, s: S, actions: seq<A>): Option<S>
    decreases |actions|
  {
    if actions == [] then Some(s)
    else
      match step(s, actions[0])
      case None => None
      case Some(s') => Execute(step, s', actions[1..])
  }

  /** The run goes through, and only through states with `ok`. */
  ghost predicate StaysIn<S, A>(step: (S, A) -> Option<S>, ok: S -> bool, s: S, actions: seq<A>)
    decreases |actions|
  {
    && ok(s)
    && (actions == [] || (step(s, actions[0]).Some? && StaysIn(step, ok, step(s, actions[0]).value, actions[1..])))
  }

  ghost predicate ReachableFrom<S(!new), A(!new)>(step: (S, A) -> Option<S>, init: S -> bool, s: S) {
    exists s0, actions :: init(s0) && Execute(step, s0, actions) == Some(s)
  }

  lemma {:induction false} OneMore<S, A>(step: (S, A) -> Option<S>, s: S, actions: seq<A>, a: A)
    requires Execute(step, s, actions).Some?
    ensures Execute(step, s, actions + [a]) == step(Execute(step, s, actions).value, a)
    decreases |actions|
  {
    if actions == [] {
      assert [a][1..] == [] && [] + [a] == [a];
    } else {
      OneMore(step, step(s, actions[0]).value, actions[1..], a);
      assert (actions + [a])[1..] == actions[1..] + [a];
    }
  }

  lemma StepReaches<S(!new), A(!new)>(step: (S, A) -> Option<S>, init: S -> bool, s: S, a: A)
    requires ReachableFrom(step, init, s) && step(s, a).Some?
    ensures ReachableFrom(step, init, step(s, a).value)
  {
    var s0, actions: seq<A> :| init(s0) && Execute(step, s0, actions) == Some(s);
    OneMore(step, s0, actions, a);
    assert Execute(step, s0, actions + [a]) == Some(step(s, a).value);
  }

  lemma StartReaches<S(!new), A(!new)>(step: (S, A) -> Option<S>, init: S -> bool, s: S)
    requires init(s)
    ensures ReachableFrom(step, init, s)
  {
    var nothing: seq<A> := [];
    assert Execute(step, s, nothing) == Some(s);
  }

  /** What holds initially and what every step from states with `ok` keeps, every run through such
      states keeps. */
  lemma {:induction false} KeepsWithin<S(!new), A(!new)>(
    step: (S, A) -> Option<S>, ok: S -> bool, inv: S -> bool, s: S, actions: seq<A>)
    requires inv(s) && StaysIn(step, ok, s, actions)
    requires forall t, a :: inv(t) && ok(t) && step(t, a).Some? ==> inv(step(t, a).value)
    ensures Execute(step, s, actions).Some? && inv(Execute(step, s, actions).value)
    decreases |actions|
  {
    if actions != [] { KeepsWithin(step, ok, inv, step(s, actions[0]).value, actions[1..]); }
  }

  /** An invariant of every step holds after every run, and `later`, which every step satisfies,
      relates the states before and after. */
  lemma {:induction false} Keeps<S(!new), A(!new)>(
    step: (S, A) -> Option<S>, inv: S -> bool, later: (S, S) -> bool, s: S, actions: seq<A>)
    requires inv(s) && Execute(step, s, actions).Some?
    requires forall t, a :: inv(t) && step(t, a).Some? ==> inv(step(t, a).value) && later(t, step(t, a).value)
    requires forall t :: inv(t) ==> later(t, t)
    requires forall t, u, v :: inv(t) && inv(u) && inv(v) && later(t, u) && later(u, v) ==> later(t, v)
    ensures inv(Execute(step, s, actions).value) && later(s, Execute(step, s, actions).value)
    decreases |actions|
  {
    if actions != [] {
      var s' := step(s, actions[0]).value;
      Keeps(step, inv, later, s', actions[1..]);
      assert later(s, s');
    }
  }

  lemma ReachableKeeps<S(!new), A(!new)>(step: (S, A) -> Option<S>, init: S -> bool, inv: S -> bool, s: S)
    requires ReachableFrom<S, A>(step, init, s)
    requires forall t :: init(t) ==> inv(t)
    requires forall t, a :: inv(t) && step(t, a).Some? ==> inv(step(t, a).value)
    ensures inv(s)
  {
    var s0, actions: seq<A> :| init(s0) && Execute(step, s0, actions) == Some(s);
    Keeps(step, inv, (t, u) => true, s0, actions);
  }

  /** What holds of the empty history and what every step extends, holds of every run's history. */
  lemma KeepsHistory<S(!new), A(!new)>(
    step: (S, A) -> Option<S>, hist: (seq<A>, S) -> bool, s0: S, actions: seq<A>)
    requires hist([], s0) && Execute(step, s0, actions).Some?
    requires forall past, t, a :: Execute(step, s0, past) == Some(t) && hist(past, t) && step(t, a).Some? ==>
                                    hist(past + [a], step(t, a).value)
    ensures hist(actions, Execute(step, s0, actions).value)
  {
    ExtendsHistory(step, hist, s0, [], s0, actions);
    assert [] + actions == actions;
  }

  lemma {:induction false} ExtendsHistory<S(!new), A(!new)>(
    step: (S, A) -> Option<S>, hist: (seq<A>, S) -> bool, s0: S, past: seq<A>, s: S, actions: seq<A>)
    requires Execute(step, s0, past) == Some(s) && hist(past, s) && Execute(step, s, actions).Some?
    requires forall past, t, a :: Execute(step, s0, past) == Some(t) && hist(past, t) && step(t, a).Some? ==>
                                    hist(past + [a], step(t, a).value)
    ensures hist(past + actions, Execute(step, s, actions).value)
    decreases |actions|
  {
    if actions == [] {
      assert past + actions == past;
    } else {
      OneMore(step, s0, past, actions[0]);
      ExtendsHistory(step, hist, s0, past + [actions[0]], step(s, actions[0]).value, actions[1..]);
      assert (past + [actions[0]]) + actions[1..] == past + actions;
    }
  }
}
