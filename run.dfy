/** A run of the optimiser: the state after a sequence of `sd_target_function` calls and what
    each call did. */
module Run {
  import opened Evaluation

  ghost predicate AllWellFormed(calls: seq<Call>) {
    forall i :: 0 <= i < |calls| ==> WellFormed(calls[i])
  }

  /** The state after calls with verdicts `vs`, in order, starting from `s0`. */
  function Replay(s0: State, vs: seq<Verdict>): State
    decreases |vs|
  {
    if |vs| == 0 then s0 else Advance(Replay(s0, vs[..|vs| - 1]), vs[|vs| - 1])
  }

  function Verdicts(cfg: Config, calls: seq<Call>): (vs: seq<Verdict>)
    ensures |vs| == |calls|
    ensures forall i :: 0 <= i < |calls| ==> vs[i] == VerdictOf(cfg, calls[i])
  {
    seq(|calls|, i requires 0 <= i < |calls| => VerdictOf(cfg, calls[i]))
  }

  /** The state after making `calls` in order, starting from `s0`. */
  function After(cfg: Config, s0: State, calls: seq<Call>): State {
    Replay(s0, Verdicts(cfg, calls))
  }

  /** What the `j`-th call (0-based; iteration `j + 1` from a fresh optimiser) did. */
  function OutcomeAt(cfg: Config, show: real -> string, s0: State, calls: seq<Call>, j: nat): Outcome
    requires AllWellFormed(calls) && j < |calls|
  {
    Step(cfg, show, After(cfg, s0, calls[..j]), calls[j])
  }

  lemma VerdictsPrefix(cfg: Config, calls: seq<Call>, j: nat)
    requires j <= |calls|
    ensures Verdicts(cfg, calls[..j]) == Verdicts(cfg, calls)[..j]
  {
  }

  /** The state after the first `j + 1` calls is the one the `j`-th call left behind. */
  lemma AfterPrefixStep(cfg: Config, show: real -> string, s0: State, calls: seq<Call>, j: nat)
    requires AllWellFormed(calls) && j < |calls|
    ensures After(cfg, s0, calls[..j + 1]) == OutcomeAt(cfg, show, s0, calls, j).state
  {
    var vs := Verdicts(cfg, calls[..j + 1]);
    assert calls[..j + 1][..j] == calls[..j];
    VerdictsPrefix(cfg, calls[..j + 1], j);
    StepState(cfg, show, After(cfg, s0, calls[..j]), calls[j]);
  }

  /** One more call advances the state by that call's verdict. */
  lemma AfterSnoc(cfg: Config, s0: State, calls: seq<Call>, c: Call)
    ensures After(cfg, s0, calls + [c]) == Advance(After(cfg, s0, calls), VerdictOf(cfg, c))
  {
    VerdictsPrefix(cfg, calls + [c], |calls|);
    assert (calls + [c])[..|calls|] == calls;
  }

  /** One more call leaves the state `Step` computes from the state before it. */
  lemma AfterStep(cfg: Config, show: real -> string, s0: State, calls: seq<Call>, c: Call)
    requires AllWellFormed(calls) && WellFormed(c)
    ensures AllWellFormed(calls + [c])
    ensures After(cfg, s0, calls + [c]) == Step(cfg, show, After(cfg, s0, calls), c).state
  {
    assert forall i :: 0 <= i < |calls| ==> (calls + [c])[i] == calls[i];
    AfterSnoc(cfg, s0, calls, c);
    StepState(cfg, show, After(cfg, s0, calls), c);
  }
}
