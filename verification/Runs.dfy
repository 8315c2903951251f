/** Runs of a transition system: every interleaving is a sequence of actions. */
module Runs {
  import opened Core

  /** The state reached from `s` by `acts`, or None when one of the actions was not enabled. */
  ghost function Exec<S, A>(step: (S, A) -> Option<S>, s: S, acts: seq<A>): Option<S>
    decreases |acts|
  {
    if acts == [] then
      Some(s)
    else
      match Exec(step, s, acts[..|acts| - 1])
      case None => None
      case Some(m) => step(m, acts[|acts| - 1])
  }

  /** `inv` holds in every state a run passes through. */
  ghost predicate Throughout<S, A>(step: (S, A) -> Option<S>, inv: S -> bool, s: S, acts: seq<A>)
    decreases |acts|
  {
    if acts == [] then inv(s)
    else Throughout(step, inv, s, acts[..|acts| - 1]) && (Exec(step, s, acts).Some? ==> inv(Exec(step, s, acts).value))
  }

  /** What holds initially and is kept by every step holds in every reachable state. */
  lemma {:induction false} Invariance<S(!new), A(!new)>(step: (S, A) -> Option<S>, inv: S -> bool, s: S, acts: seq<A>)
    requires inv(s)
    requires forall m: S, a: A :: inv(m) && step(m, a).Some? ==> inv(step(m, a).value)
    ensures Exec(step, s, acts).Some? ==> inv(Exec(step, s, acts).value)
    decreases |acts|
  {
    if acts != [] {
      Invariance(step, inv, s, acts[..|acts| - 1]);
    }
  }

  /** One more action at the end of a run. */
  lemma Then<S, A>(step: (S, A) -> Option<S>, s: S, acts: seq<A>, m: S, a: A, next: S)
    requires Exec(step, s, acts) == Some(m) && step(m, a) == Some(next)
    ensures Exec(step, s, acts + [a]) == Some(next)
  {
    assert (acts + [a])[..|acts|] == acts;
  }
}
