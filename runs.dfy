module Runs {
  /** The states a step function passes through: `s0`, then each next state
      is the step applied to the previous one and the step's index. */
  function Run<S>(s0: S, step: (S, nat) -> S, k: nat): (t: seq<S>)
    ensures |t| == k + 1 && t[0] == s0
  {
    if k == 0 then [s0] else var p := Run(s0, step, k - 1); p + [step(p[k - 1], k - 1)]
  }

  /** Running further keeps the states already passed. */
  lemma {:induction false} RunPrefix<S>(s0: S, step: (S, nat) -> S, k: nat, j: nat)
    requires j <= k
    ensures Run(s0, step, k)[j] == Run(s0, step, j)[j]
  {
    if j < k {
      RunPrefix(s0, step, k - 1, j);
    }
  }

  /** Each state of a run is the step applied to the one before it. */
  lemma RunStep<S>(s0: S, step: (S, nat) -> S, k: nat, i: nat)
    requires i < k
    ensures Run(s0, step, k)[i + 1] == step(Run(s0, step, k)[i], i)
  {
    RunPrefix(s0, step, k, i + 1);
    RunPrefix(s0, step, k, i);
    RunPrefix(s0, step, i + 1, i);
  }
}
