/** Runs of a step function, whatever its states and steps are. */
module Runs {
  import opened Common

  /** `states` is what `steps` lead through. */
  ghost predicate Chain<S, A>(f: (S, A) -> Option<S>, steps: seq<A>, states: seq<S>) {
    |states| == |steps| + 1 && forall i :: 0 <= i < |steps| ==> f(states[i], steps[i]) == Some(states[i + 1])
  }

  lemma ChainGrows<S, A>(f: (S, A) -> Option<S>, steps: seq<A>, states: seq<S>, step: A, s: S)
    requires Chain(f, steps, states) && f(states[|steps|], step) == Some(s)
    ensures Chain(f, steps + [step], states + [s])
  {
  }

  /** Every step of a run passes `g`. */
  ghost predicate Every<S, A>(g: (S, A) -> bool, steps: seq<A>, states: seq<S>) {
    |states| == |steps| + 1 && forall i :: 0 <= i < |steps| ==> g(states[i], steps[i])
  }

  lemma EveryGrows<S, A>(g: (S, A) -> bool, steps: seq<A>, states: seq<S>, step: A, s: S)
    requires Every(g, steps, states) && g(states[|steps|], step)
    ensures Every(g, steps + [step], states + [s])
  {
  }

  /** A property of a state and of the steps that led to it, kept by every step. */
  ghost predicate Inductive<S(!new), A(!new)>(f: (S, A) -> Option<S>, p: (S, seq<A>) -> bool) {
    forall s, q, step :: p(s, q) && f(s, step).Some? ==> p(f(s, step).value, q + [step])
  }

  /** Such a property holds all along a run on which it holds at the start. */
  lemma {:induction false} Along<S(!new), A(!new)>(
      f: (S, A) -> Option<S>, p: (S, seq<A>) -> bool, steps: seq<A>, states: seq<S>, i: nat)
    requires Chain(f, steps, states) && Inductive(f, p) && i < |states| && p(states[0], [])
    ensures p(states[i], steps[..i])
  {
    if i == 0 {
      assert steps[..0] == [];
    } else {
      Along(f, p, steps, states, i - 1);
      assert f(states[i - 1], steps[i - 1]) == Some(states[i]);
      assert steps[..i] == steps[..i - 1] + [steps[i - 1]];
    }
  }

  /** What the first `i` steps of a run emit, in order. */
  function Emitted<S, A, E>(emit: (S, A) -> seq<E>, steps: seq<A>, states: seq<S>, i: nat): seq<E>
    requires i <= |steps| <= |states|
  {
    if i == 0 then [] else Emitted(emit, steps, states, i - 1) + emit(states[i - 1], steps[i - 1])
  }

  /** An output to which every step appends what it emits is what the run emitted. */
  lemma {:induction false} OutputIsEmitted<S(!new), A(!new), E(!new)>(
      f: (S, A) -> Option<S>, out: S -> seq<E>, emit: (S, A) -> seq<E>, steps: seq<A>, states: seq<S>, i: nat)
    requires Chain(f, steps, states) && i < |states| && out(states[0]) == []
    requires forall s, a :: f(s, a).Some? ==> out(f(s, a).value) == out(s) + emit(s, a)
    ensures out(states[i]) == Emitted(emit, steps, states, i)
  {
    if i > 0 {
      OutputIsEmitted(f, out, emit, steps, states, i - 1);
      assert f(states[i - 1], steps[i - 1]) == Some(states[i]);
    }
  }

  /** The weights of the first `i` steps of a run, added up. */
  function Tally<S, A>(weight: (S, A) -> int, steps: seq<A>, states: seq<S>, i: nat): int
    requires i <= |steps| <= |states|
  {
    if i == 0 then 0 else Tally(weight, steps, states, i - 1) + weight(states[i - 1], steps[i - 1])
  }

  /** A figure that every step changes by its weight is the tally of the run. */
  lemma {:induction false} FigureIsTally<S(!new), A(!new)>(
      f: (S, A) -> Option<S>, p: S -> bool, figure: S -> int, weight: (S, A) -> int,
      steps: seq<A>, states: seq<S>, i: nat)
    requires Chain(f, steps, states) && i < |states| && forall k :: 0 <= k < |states| ==> p(states[k])
    requires forall s, a :: p(s) && f(s, a).Some? ==> figure(f(s, a).value) == figure(s) + weight(s, a)
    ensures figure(states[i]) == figure(states[0]) + Tally(weight, steps, states, i)
  {
    if i > 0 {
      FigureIsTally(f, p, figure, weight, steps, states, i - 1);
      assert f(states[i - 1], steps[i - 1]) == Some(states[i]);
    }
  }

  lemma {:induction false} TallyMinus<S, A>(
      w: (S, A) -> int, w1: (S, A) -> int, w2: (S, A) -> int, steps: seq<A>, states: seq<S>, i: nat)
    requires i <= |steps| <= |states|
    requires forall k :: 0 <= k < |steps| ==>
               w(states[k], steps[k]) == w1(states[k], steps[k]) - w2(states[k], steps[k])
    ensures Tally(w, steps, states, i) == Tally(w1, steps, states, i) - Tally(w2, steps, states, i)
  {
    if i > 0 { TallyMinus(w, w1, w2, steps, states, i - 1); }
  }

  ghost predicate Preorder<S(!new)>(r: (S, S) -> bool) {
    (forall s :: r(s, s)) && forall s, s1, s2 :: r(s, s1) && r(s1, s2) ==> r(s, s2)
  }

  /** What relates every state to the next relates it to all later ones. */
  lemma {:induction false} Later<S(!new)>(r: (S, S) -> bool, states: seq<S>, i: nat, j: nat)
    requires Preorder(r) && i <= j < |states|
    requires forall k :: 0 <= k < |states| - 1 ==> r(states[k], states[k + 1])
    ensures r(states[i], states[j])
    decreases j
  {
    if i < j {
      Later(r, states, i, j - 1);
      assert r(states[j - 1], states[j - 1 + 1]);
    }
  }

  /** At most `n` steps that pass `g` lead to a state with `goal`. */
  ghost predicate Within<S(!new), A(!new)>(
      f: (S, A) -> Option<S>, g: (S, A) -> bool, goal: S -> bool, s: S, n: nat)
    decreases n
  {
    || goal(s)
    || (n > 0 && exists a :: g(s, a) && f(s, a).Some? && Within(f, g, goal, f(s, a).value, n - 1))
  }

  /** From every state with `p` short of the goal, a step that passes `g` keeps `p` and lowers the rank. */
  ghost predicate Descends<S(!new), A(!new)>(
      f: (S, A) -> Option<S>, g: (S, A) -> bool, goal: S -> bool, p: S -> bool, rank: S -> nat)
  {
    forall s :: p(s) && !goal(s) ==>
      exists a :: g(s, a) && f(s, a).Some? && p(f(s, a).value) && rank(f(s, a).value) < rank(s)
  }

  /** A rank that can always be lowered bounds the steps to the goal. */
  lemma {:induction false} RankBoundsSteps<S(!new), A(!new)>(
      f: (S, A) -> Option<S>, g: (S, A) -> bool, goal: S -> bool, p: S -> bool, rank: S -> nat, s: S, n: nat)
    requires Descends(f, g, goal, p, rank) && p(s) && rank(s) <= n
    ensures Within(f, g, goal, s, n)
    decreases n
  {
    if !goal(s) {
      var a :| g(s, a) && f(s, a).Some? && p(f(s, a).value) && rank(f(s, a).value) < rank(s);
      RankBoundsSteps(f, g, goal, p, rank, f(s, a).value, n - 1);
    }
  }
}
