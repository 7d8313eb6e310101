/**
 Runs of a labelled transition system. A machine is a function `next` that says, for a state
 and the label of a step, which state the step leads to, or `None` when it is not enabled there.
 */
module Runs {
  import opened Wrappers

  /** The state reached from `s` by taking `steps` in order, if every one of them is enabled. */
  function Run<S, L>(next: (S, L) -> Option<S>, s: S, steps: seq<L>): Option<S>
  {
    if steps == [] then
      Some(s)
    else
      match Run(next, s, steps[..|steps| - 1])
      case None => None
      case Some(t) => next(t, steps[|steps| - 1])
  }

  /** What every step keeps, every run keeps. */
  lemma {:induction false} Preserved<S(!new), L(!new)>(
      next: (S, L) -> Option<S>, inv: S -> bool, s: S, steps: seq<L>)
    requires inv(s)
    requires forall t, l :: inv(t) && next(t, l).Some? ==> inv(next(t, l).value)
    requires Run(next, s, steps).Some?
    ensures inv(Run(next, s, steps).value)
  {
    if steps == [] {
      assert Run(next, s, steps).value == s;
    } else {
      Preserved(next, inv, s, steps[..|steps| - 1]);
    }
  }

  /** One more step. */
  lemma RunSnoc<S, L>(next: (S, L) -> Option<S>, s: S, steps: seq<L>, l: L)
    requires Run(next, s, steps).Some?
    ensures Run(next, s, steps + [l]) == next(Run(next, s, steps).value, l)
  {
    assert (steps + [l])[..|steps|] == steps;
  }

  /** A run of `front` followed by `back` is a run of `back` from where `front` ends. */
  lemma {:induction false} RunConcat<S, L>(next: (S, L) -> Option<S>, s: S, front: seq<L>, back: seq<L>)
    requires Run(next, s, front).Some?
    ensures Run(next, s, front + back) == Run(next, Run(next, s, front).value, back)
  {
    if back == [] {
      assert front + back == front;
    } else {
      RunConcat(next, s, front, back[..|back| - 1]);
      assert (front + back)[..|front + back| - 1] == front + back[..|back| - 1];
    }
  }

  /** Every beginning of a run is a run. */
  lemma {:induction false} RunPrefix<S, L>(next: (S, L) -> Option<S>, s: S, steps: seq<L>, k: nat)
    requires Run(next, s, steps).Some? && k <= |steps|
    ensures Run(next, s, steps[..k]).Some?
    decreases |steps|
  {
    if k == |steps| {
      assert steps[..k] == steps;
    } else {
      RunPrefix(next, s, steps[..|steps| - 1], k);
      assert steps[..|steps| - 1][..k] == steps[..k];
    }
  }

  /** Step `k` of a run is taken in a state where it has the given effect. */
  predicate HappensAt<S, L>(next: (S, L) -> Option<S>, s: S, steps: seq<L>, effect: (S, L) -> bool, k: nat) {
    && k < |steps|
    && var t := Run(next, s, steps[..k]);
       t.Some? && effect(t.value, steps[k])
  }

  /** What happened at an earlier step does not depend on the last one. */
  lemma EarlierSteps<S, L>(next: (S, L) -> Option<S>, s: S, steps: seq<L>, effect: (S, L) -> bool, k: nat)
    requires k + 1 < |steps|
    ensures HappensAt(next, s, steps, effect, k) <==> HappensAt(next, s, steps[..|steps| - 1], effect, k)
  {
    assert steps[..|steps| - 1][..k] == steps[..k];
  }

  /**
   A flag that one step raises exactly by an effect, and that nothing lowers, is up after a run exactly if it
   was up before or one of the steps had the effect.
   */
  lemma {:induction false} RaisedIffItHappened<S(!new), L(!new)>(
      next: (S, L) -> Option<S>, inv: S -> bool, flag: S -> bool, effect: (S, L) -> bool, s: S, steps: seq<L>)
    requires inv(s) && Run(next, s, steps).Some?
    requires forall t, l :: inv(t) && next(t, l).Some? ==> inv(next(t, l).value)
    requires forall t, l :: inv(t) && next(t, l).Some? ==> (flag(next(t, l).value) <==> flag(t) || effect(t, l))
    ensures flag(Run(next, s, steps).value) <==>
            flag(s) || exists k: nat :: HappensAt(next, s, steps, effect, k)
  {
    if steps == [] {
      assert Run(next, s, steps).value == s;
    } else {
      var n := |steps| - 1;
      var front := steps[..n];
      var t := Run(next, s, front).value;
      Preserved(next, inv, s, front);
      RaisedIffItHappened(next, inv, flag, effect, s, front);
      assert flag(Run(next, s, steps).value) <==> flag(t) || effect(t, steps[n]);
      assert HappensAt(next, s, steps, effect, n) <==> effect(t, steps[n]);
      forall k: nat | k < n
        ensures HappensAt(next, s, steps, effect, k) <==> HappensAt(next, s, front, effect, k)
      {
        EarlierSteps(next, s, steps, effect, k);
      }
    }
  }
}
