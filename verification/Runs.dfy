// Runs of step systems.
module Runs {
  /** A run: `n` events lead from an initial state through `n` further states. */
  ghost predicate IsRun<S(!new), E(!new)>(init: S -> bool, next: (S, E, S) -> bool, states: seq<S>, events: seq<E>) {
    && |states| == |events| + 1 && init(states[0])
    && forall n :: 0 <= n < |events| ==> next(states[n], events[n], states[n + 1])
  }

  /** What holds initially and is kept by every step holds in every state of every run. */
  lemma {:induction false} Always<S(!new), E(!new)>(
    init: S -> bool, next: (S, E, S) -> bool, inv: S -> bool, states: seq<S>, events: seq<E>, n: nat)
    requires IsRun(init, next, states, events) && n < |states|
    requires forall s :: init(s) ==> inv(s)
    requires forall s, e, s' :: inv(s) && next(s, e, s') ==> inv(s')
    ensures inv(states[n])
  {
    if n > 0 {
      Always(init, next, inv, states, events, n - 1);
    }
  }
}
