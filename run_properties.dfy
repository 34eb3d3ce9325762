/** Properties of a run that hold across iterations: the counter, the phase tags, the best score
    and single-slot checkpoint retention. */
module RunProperties {
  import opened WeightSchema
  import opened Evaluation
  import opened Run

  /** Each call raises the counter by one. */
  lemma {:induction false} ReplayIterations(s0: State, vs: seq<Verdict>)
    ensures Replay(s0, vs).iteration == s0.iteration + |vs|
    decreases |vs|
  {
    if |vs| > 0 {
      ReplayIterations(s0, vs[..|vs| - 1]);
    }
  }

  /** `best_rolling_score` never decreases. */
  lemma {:induction false} ReplayBestMonotone(s0: State, vs: seq<Verdict>, j: nat)
    requires j <= |vs|
    ensures Replay(s0, vs[..j]).best <= Replay(s0, vs).best
    decreases |vs|
  {
    if j < |vs| {
      var m := |vs| - 1;
      assert vs[..m][..j] == vs[..j];
      ReplayBestMonotone(s0, vs[..m], j);
    } else {
      assert vs[..j] == vs;
    }
  }

  /** No completed call scored above the best, and the best never drops below its start. */
  lemma {:induction false} ReplayBestUpper(s0: State, vs: seq<Verdict>)
    ensures s0.best <= Replay(s0, vs).best
    ensures forall j :: 0 <= j < |vs| && vs[j].Completed? ==> vs[j].score <= Replay(s0, vs).best
    decreases |vs|
  {
    if |vs| > 0 {
      var m := |vs| - 1;
      var prev := vs[..m];
      ReplayBestUpper(s0, prev);
      forall j | 0 <= j < m && vs[j].Completed? ensures vs[j].score <= Replay(s0, vs).best {
        assert prev[j] == vs[j];
      }
    }
  }

  /** The best is the starting one or the score of some completed call. */
  lemma {:induction false} ReplayBestAttained(s0: State, vs: seq<Verdict>)
    ensures Replay(s0, vs).best == s0.best ||
      exists j :: 0 <= j < |vs| && vs[j].Completed? && Replay(s0, vs).best == vs[j].score
    decreases |vs|
  {
    if |vs| > 0 {
      var m := |vs| - 1;
      var prev := vs[..m];
      ReplayBestAttained(s0, prev);
      var b := Replay(s0, vs).best;
      if b != s0.best && b == Replay(s0, prev).best {
        var j :| 0 <= j < m && prev[j].Completed? && b == prev[j].score;
        assert prev[j] == vs[j];
      }
    }
  }

  /** From a fresh optimiser, iteration `j + 1` is tagged warmup exactly when `j + 1 <= init_points`. */
  lemma RunPhases(cfg: Config, show: real -> string, best0: real, calls: seq<Call>, j: nat)
    requires AllWellFormed(calls) && j < |calls|
    ensures OutcomeAt(cfg, show, Initial(best0), calls, j).phase == Warmup <==> j + 1 <= cfg.initPoints
    ensures OutcomeAt(cfg, show, Initial(best0), calls, j).state.iteration == j + 1
  {
    ReplayIterations(Initial(best0), Verdicts(cfg, calls[..j]));
  }

  /** `best_rolling_score` never decreases along a run. */
  lemma RunBestMonotone(cfg: Config, s0: State, calls: seq<Call>, j: nat)
    requires j <= |calls|
    ensures After(cfg, s0, calls[..j]).best <= After(cfg, s0, calls).best
  {
    VerdictsPrefix(cfg, calls, j);
    ReplayBestMonotone(s0, Verdicts(cfg, calls), j);
  }

  /** The best is at least every completed call's score and is the starting best or one of them. */
  lemma RunBestIsMaximum(cfg: Config, s0: State, calls: seq<Call>)
    ensures s0.best <= After(cfg, s0, calls).best
    ensures forall j :: 0 <= j < |calls| && Succeeds(cfg, calls[j]) ==> calls[j].avgScore <= After(cfg, s0, calls).best
    ensures After(cfg, s0, calls).best == s0.best ||
      exists j :: 0 <= j < |calls| && Succeeds(cfg, calls[j]) && After(cfg, s0, calls).best == calls[j].avgScore
  {
    var vs := Verdicts(cfg, calls);
    ReplayBestUpper(s0, vs);
    ReplayBestAttained(s0, vs);
    if After(cfg, s0, calls).best != s0.best {
      var j :| 0 <= j < |vs| && vs[j].Completed? && Replay(s0, vs).best == vs[j].score;
      assert Succeeds(cfg, calls[j]) && After(cfg, s0, calls).best == calls[j].avgScore;
    }
  }

  /** A call finds a new best exactly when it completes with a score strictly above the initial
      best and strictly above every earlier completed call's score: on a tie the first one stays. */
  lemma RunNewBestIff(cfg: Config, show: real -> string, s0: State, calls: seq<Call>, j: nat)
    requires AllWellFormed(calls) && j < |calls|
    ensures NewBest(OutcomeAt(cfg, show, s0, calls, j)) <==>
      && Succeeds(cfg, calls[j])
      && calls[j].avgScore > s0.best
      && forall i :: 0 <= i < j && Succeeds(cfg, calls[i]) ==> calls[i].avgScore < calls[j].avgScore
  {
    var prev := calls[..j];
    assert forall i :: 0 <= i < j ==> prev[i] == calls[i];
    var b := After(cfg, s0, prev).best;
    StepBest(cfg, show, After(cfg, s0, prev), calls[j]);
    RunBestIsMaximum(cfg, s0, prev);
  }

  /** With `best_rolling_score` starting at `0.0`, a score of zero or below is never a new best. */
  lemma RunNonPositiveNeverBest(cfg: Config, show: real -> string, calls: seq<Call>, j: nat)
    requires AllWellFormed(calls) && j < |calls|
    requires calls[j].avgScore <= 0.0
    ensures !NewBest(OutcomeAt(cfg, show, Initial(0.0), calls, j))
  {
    RunNewBestIff(cfg, show, Initial(0.0), calls, j);
  }

  /** After a call that got past reading its parameters, whether it completed or raised
      `IndexError`, `_clean` is set exactly when that call found no new best. */
  lemma CleanAfterCall(cfg: Config, show: real -> string, s0: State, calls: seq<Call>, j: nat)
    requires AllWellFormed(calls) && j < |calls| && ReadsWeights(cfg, calls[j])
    ensures After(cfg, s0, calls[..j + 1]).clean <==> !NewBest(OutcomeAt(cfg, show, s0, calls, j))
  {
    AfterPrefixStep(cfg, show, s0, calls, j);
    StepRetention(cfg, show, After(cfg, s0, calls[..j]), calls[j]);
  }

  /** A call that gets past reading its parameters asks for the removal of the previous checkpoint
      exactly when `_clean` was set before it, even when it later raises `IndexError`. */
  lemma RemovesIffClean(cfg: Config, show: real -> string, best0: real, calls: seq<Call>, j: nat)
    requires AllWellFormed(calls) && j < |calls| && ReadsWeights(cfg, calls[j])
    ensures RemovePrev(j + 1) in OutcomeAt(cfg, show, Initial(best0), calls, j).events <==>
      After(cfg, Initial(best0), calls[..j]).clean
  {
    ReplayIterations(Initial(best0), Verdicts(cfg, calls[..j]));
    StepRetention(cfg, show, After(cfg, Initial(best0), calls[..j]), calls[j]);
  }

  /** The first iteration that gets past reading its parameters removes the previous
      checkpoint, since `_clean` starts set. */
  lemma FirstIterationRemoves(cfg: Config, show: real -> string, best0: real, calls: seq<Call>)
    requires AllWellFormed(calls) && |calls| > 0 && ReadsWeights(cfg, calls[0])
    ensures RemovePrev(1) in OutcomeAt(cfg, show, Initial(best0), calls, 0).events
  {
    RemovesIffClean(cfg, show, best0, calls, 0);
    assert calls[..0] == [];
  }

  /** A later iteration that gets past reading its parameters removes the previous checkpoint
      exactly when the iteration before it, having also got past its parameters, found no new
      best. */
  lemma RemovesUnlessPreviousBest(cfg: Config, show: real -> string, best0: real, calls: seq<Call>, j: nat)
    requires AllWellFormed(calls) && 0 < j < |calls|
    requires ReadsWeights(cfg, calls[j]) && ReadsWeights(cfg, calls[j - 1])
    ensures RemovePrev(j + 1) in OutcomeAt(cfg, show, Initial(best0), calls, j).events <==>
      !NewBest(OutcomeAt(cfg, show, Initial(best0), calls, j - 1))
  {
    RemovesIffClean(cfg, show, best0, calls, j);
    CleanAfterCall(cfg, show, Initial(best0), calls, j - 1);
    assert calls[..j - 1 + 1] == calls[..j];
  }

  /** Single-slot retention: when iteration `j + 1` and the one before it both get past reading
      their parameters, iteration `j + 1` asks the merger to remove the previous checkpoint exactly
      when iteration `j` found no new best; the first iteration always asks, since `_clean` starts
      set. */
  lemma RunRemovesPrevious(cfg: Config, show: real -> string, best0: real, calls: seq<Call>, j: nat)
    requires AllWellFormed(calls) && j < |calls|
    requires ReadsWeights(cfg, calls[j])
    requires j > 0 ==> ReadsWeights(cfg, calls[j - 1])
    ensures RemovePrev(j + 1) in OutcomeAt(cfg, show, Initial(best0), calls, j).events <==>
      (j == 0 || !NewBest(OutcomeAt(cfg, show, Initial(best0), calls, j - 1)))
  {
    if j > 0 {
      RemovesUnlessPreviousBest(cfg, show, best0, calls, j);
    } else {
      FirstIterationRemoves(cfg, show, best0, calls);
    }
  }
}
