/** `Optimiser.plot_and_save`: the calls made once the search is over, for the best weights found. */
module Finalisation {
  import opened Wrappers
  import opened WeightSchema
  import opened Text
  import opened BestLog
  import opened Evaluation

  /** The calls `plot_and_save(scores, best_base_alpha, best_weights_alpha, best_base_beta,
      best_weights_beta, minimise)` makes, with the four best values gathered in `best`: the
      convergence plot, `best.log`, the alpha UNet drawing, the beta drawing in a two-axis mode,
      and the final merge with `best=True` when `save_best` is set. In a two-axis mode the beta
      weights are rendered, so they must be a list. */
  function FinalEvents(cfg: Config, show: real -> string, hasBeta: bool, scores: seq<real>, best: Weights, minimise: bool): (r: seq<Event>)
    requires hasBeta ==> best.beta.Some?
    ensures |r| == 3 + (if hasBeta then 1 else 0) + (if cfg.saveBest then 1 else 0)
    ensures forall e :: e in r ==> !e.RemovePrev? && e != KeepBest && !e.Generate? && !e.Score?
  {
    [ConvergencePlot(scores, minimise),
     SaveBestLog(IterationLogText(show, hasBeta, best)),
     DrawUnet(Alpha, Some(best.baseAlpha), best.alpha)] +
    (if hasBeta then [DrawUnet(Beta, best.baseBeta, best.beta.value)] else []) +
    (if cfg.saveBest then [Merge(best, true)] else [])
  }

  /** The final merge happens exactly when `save_best` is set; it is the last call, it is the
      only merge, and it uses the best weights. */
  lemma FinalMerge(cfg: Config, show: real -> string, hasBeta: bool, scores: seq<real>, best: Weights, minimise: bool)
    requires hasBeta ==> best.beta.Some?
    ensures var r := FinalEvents(cfg, show, hasBeta, scores, best, minimise);
      && ((exists i :: 0 <= i < |r| && r[i].Merge?) <==> cfg.saveBest)
      && (forall i :: 0 <= i < |r| && r[i].Merge? ==> i == |r| - 1 && r[i] == Merge(best, true))
  {
    var r := FinalEvents(cfg, show, hasBeta, scores, best, minimise);
    if cfg.saveBest {
      assert r[|r| - 1] == Merge(best, true);
    }
  }

  /** The convergence plot comes first; the alpha UNet is drawn from the best alpha values, and a
      beta UNet drawing, from the best beta values, is made exactly in a two-axis mode. */
  lemma FinalDrawings(cfg: Config, show: real -> string, hasBeta: bool, scores: seq<real>, best: Weights, minimise: bool)
    requires hasBeta ==> best.beta.Some?
    ensures var r := FinalEvents(cfg, show, hasBeta, scores, best, minimise);
      && r[0] == ConvergencePlot(scores, minimise)
      && r[2] == DrawUnet(Alpha, Some(best.baseAlpha), best.alpha)
      && (hasBeta ==> r[3] == DrawUnet(Beta, best.baseBeta, best.beta.value))
      && ((exists i :: 0 <= i < |r| && r[i].DrawUnet? && r[i].axis == Beta) <==> hasBeta)
  {
    var r := FinalEvents(cfg, show, hasBeta, scores, best, minimise);
    if hasBeta {
      assert r[3].DrawUnet? && r[3].axis == Beta;
    }
  }

  /** The final `best.log` reads back to the best weights as rendered: a beta section exactly when
      the base beta is truthy, holding the beta weights in a two-axis mode and one empty field
      otherwise, since `best_weights_str_beta` is then `""`. */
  lemma FinalLogReadsBack(cfg: Config, show: real -> string, hasBeta: bool, scores: seq<real>, best: Weights, minimise: bool)
    requires Plain(show)
    requires hasBeta ==> best.beta.Some?
    requires |best.alpha| >= 1 && (hasBeta ==> |best.beta.value| >= 1)
    ensures var r := FinalEvents(cfg, show, hasBeta, scores, best, minimise);
      r[1].SaveBestLog? &&
      ParseBestLog(r[1].text) ==
        Some(Record(show(best.baseAlpha), Shown(show, best.alpha),
                    if Truthy(best.baseBeta)
                    then Some(BetaSection(show(best.baseBeta.value), if hasBeta then Shown(show, best.beta.value) else [""]))
                    else None))
  {
    if hasBeta {
      ParseBestLogText(show, best.baseAlpha, best.alpha, best.baseBeta, best.beta.value);
    } else {
      PlainString(show, best.alpha);
      BestLogLines(show, best.baseAlpha, WeightsString(show, best.alpha), best.baseBeta, "");
      SplitJoin(Shown(show, best.alpha), ',');
      SplitWithoutSeparator("", ',');
    }
  }

  /** Given the weights of the iteration that found the best, `plot_and_save` rewrites `best.log`
      with the text that iteration wrote, and its final merge repeats that iteration's merge with
      `best=True`. */
  lemma FinalRepeatsBestIteration(cfg: Config, show: real -> string, s: State, c: Call, scores: seq<real>, minimise: bool)
    requires WellFormed(c) && NewBest(Step(cfg, show, s, c))
    ensures ExtractWeights(c.params, HasBeta(cfg.mergeMode)).Ok?
    ensures var w := ExtractWeights(c.params, HasBeta(cfg.mergeMode)).value;
      var o := Step(cfg, show, s, c);
      var r := FinalEvents(cfg, show, HasBeta(cfg.mergeMode), scores, w, minimise);
      && r[1] in o.events
      && o.events[1] == Merge(w, false)
      && (cfg.saveBest ==> r[|r| - 1] == Merge(w, true))
  {
    StepLogsBest(cfg, show, s, c);
  }
}
