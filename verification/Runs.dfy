/** Runs of a state machine, and what an invariant says about them. A machine is given by the states
    it may start in and its steps. */
module Runs {

  ghost predicate StepsAt<S(!new)>(run: seq<S>, step: (S, S) -> bool, k: nat)
    requires 1 <= k < |run|
  {
    step(run[k - 1], run[k])
  }

  ghost predicate IsRun<S(!new)>(run: seq<S>, init: S -> bool, step: (S, S) -> bool) {
    && |run| > 0 && init(run[0])
    && forall k: nat | 1 <= k < |run| :: StepsAt(run, step, k)
  }

  /** What holds in one state of a run and is kept by every step holds from then on. */
  lemma {:induction false} Onward<S(!new)>(run: seq<S>, i: nat, k: nat, init: S -> bool, step: (S, S) -> bool, inv: S -> bool)
    requires IsRun(run, init, step) && i <= k < |run| && inv(run[i])
    requires forall s, s' :: inv(s) && step(s, s') ==> inv(s')
    ensures inv(run[k])
  {
    if i < k {
      Onward(run, i, k - 1, init, step, inv);
      assert StepsAt(run, step, k);
    }
  }

  /** What holds at the start and is kept by every step holds in every state of every run. */
  lemma Keeps<S(!new)>(run: seq<S>, k: nat, init: S -> bool, step: (S, S) -> bool, inv: S -> bool)
    requires IsRun(run, init, step) && k < |run|
    requires forall s :: init(s) ==> inv(s)
    requires forall s, s' :: inv(s) && step(s, s') ==> inv(s')
    ensures inv(run[k])
  {
    Onward(run, 0, k, init, step, inv);
  }

  /** A run may go on with any step from its last state. */
  lemma Longer<S(!new)>(run: seq<S>, s: S, init: S -> bool, step: (S, S) -> bool)
    requires IsRun(run, init, step) && step(run[|run| - 1], s)
    ensures IsRun(run + [s], init, step)
  {
    forall k: nat | 1 <= k < |run + [s]|
      ensures StepsAt(run + [s], step, k)
    {
      assert k < |run| ==> StepsAt(run, step, k);
    }
  }
}
