/** The `Optimiser` object: the bookkeeping fields its methods update in place, with a ghost
    record of the calls it has served and of the calls it has made on its collaborators. */
module Optimisers {
  import opened Wrappers
  import opened Seqs
  import opened WeightSchema
  import opened BestLog
  import opened Evaluation
  import opened Run
  import opened Finalisation

  class Optimiser {
    const cfg: Config
    /** `str` on floats. */
    const show: real -> string
    const hasBeta: bool
    ghost const initialBest: real
    var iteration: nat
    var clean: bool
    var bestRollingScore: real
    /** Every `sd_target_function` call so far, with what the collaborators answered. */
    ghost var calls: seq<Call>
    /** The collaborator calls made so far that change something outside the optimiser: merges
        and checkpoint removal, model switches, generation, scoring, `best.log` and the plots.
        The prompter's `render_payloads` and the scorer's `average_score` are inputs, not events. */
    ghost var trace: seq<Event>

    function Snapshot(): State
      reads this
    {
      State(iteration, clean, bestRollingScore)
    }

    /** The fields are those the served calls leave behind, from the state `__post_init__` set. */
    ghost predicate Valid()
      reads this
    {
      && hasBeta == HasBeta(cfg.mergeMode)
      && AllWellFormed(calls)
      && Snapshot() == After(cfg, Initial(initialBest), calls)
    }

    /** `__post_init__`: iteration counter at zero, `_clean` set, `has_beta` from the merge mode. */
    constructor (cfg: Config, show: real -> string, bestRollingScore: real := 0.0)
      ensures Valid()
      ensures this.cfg == cfg && this.show == show && initialBest == bestRollingScore
      ensures Snapshot() == Initial(bestRollingScore)
      ensures calls == [] && trace == []
    {
      this.cfg := cfg;
      this.show := show;
      hasBeta := HasBeta(cfg.mergeMode);
      initialBest := bestRollingScore;
      this.bestRollingScore := bestRollingScore;
      iteration := 0;
      clean := true;
      calls := [];
      trace := [];
    }

    /** `cleanup`: remove the previous merge when `_clean` is set, otherwise set it. */
    method Cleanup()
      modifies this
      ensures Snapshot() == CleanupStep(old(Snapshot())).state
      ensures trace == old(trace) + CleanupStep(old(Snapshot())).events
      ensures calls == old(calls)
    {
      if clean {
        trace := trace + [RemovePrev(iteration)];
      } else {
        clean := true;
      }
    }

    /** `sd_target_function(**params)`, with the generator's replies in `batches` (one list per
        payload) and the scorer's average in `avgScore`. The fields, the calls made and the value
        returned are those `Step` describes; an exception is an `Err` result, after which the
        fields keep whatever the call had changed before raising. */
    method SdTargetFunction(params: map<string, real>, payloads: seq<Payload>, paths: seq<string>,
                            batches: seq<seq<Image>>, avgScore: real) returns (r: Result<real, EvalError>)
      requires Valid() && |batches| == |payloads|
      modifies this
      ensures Valid()
      ensures calls == old(calls) + [Call(params, payloads, paths, batches, avgScore)]
      ensures var o := Step(cfg, show, old(Snapshot()), Call(params, payloads, paths, batches, avgScore));
        && Snapshot() == o.state
        && trace == old(trace) + o.events
        && r == o.result
    {
      ghost var c := Call(params, payloads, paths, batches, avgScore);
      ghost var o := Step(cfg, show, Snapshot(), c);
      StepEvents(cfg, show, Snapshot(), c);
      AfterStep(cfg, show, Initial(initialBest), calls, c);
      ghost var after := After(cfg, Initial(initialBest), calls + [c]);
      assert after == o.state;

      iteration := iteration + 1;
      var ext := ExtractWeights(params, hasBeta);
      if ext.Err? {
        r := Err(MissingKey(ext.error));
      } else {
        r := MergeGenerateScore(ext.value, payloads, paths, batches, avgScore);
      }
      calls := calls + [c];
      assert Snapshot() == o.state && trace == old(trace) + o.events && r == o.result;
    }

    /** The rest of `sd_target_function` once the weights are read: merge, clean up, switch the
        generator's model, generate and score, and keep the merge when the score is a new best. */
    method MergeGenerateScore(w: Weights, payloads: seq<Payload>, paths: seq<string>,
                              batches: seq<seq<Image>>, avgScore: real) returns (r: Result<real, EvalError>)
      requires |batches| == |payloads| && (hasBeta ==> w.beta.Some?)
      modifies this
      ensures calls == old(calls) && iteration == old(iteration)
      ensures var n := iteration;
        var prefix := [CreateName(n), Merge(w, false)] + (if old(clean) then [RemovePrev(n)] else []) + [SwitchModel];
        if |paths| < |payloads| then
          && trace == old(trace) + (prefix + GenerateEvents(payloads[..|paths| + 1]))
          && clean && bestRollingScore == old(bestRollingScore)
          && r == Err(PathIndexOutOfRange(|paths|))
        else
          && trace == old(trace) + (prefix + GenerateEvents(payloads) +
                       [Score(Flatten(batches), ExpandPaths(payloads, paths, cfg.batchSize), n)] +
                       (if avgScore > old(bestRollingScore)
                        then [SaveBestLog(IterationLogText(show, hasBeta, w)), KeepBest] else []))
          && (if avgScore > old(bestRollingScore) then !clean && bestRollingScore == avgScore
              else clean && bestRollingScore == old(bestRollingScore))
          && r == Ok(avgScore)
    {
      ghost var t0 := trace;
      var n := iteration;
      ghost var prefix := [CreateName(n), Merge(w, false)] + (if clean then [RemovePrev(n)] else []) + [SwitchModel];
      MergeAndSwitch(w);

      var images, genPaths, complete := GenerateImages(payloads, paths, batches);
      if !complete {
        AppendAssoc(t0, prefix, GenerateEvents(payloads[..|paths| + 1]));
        return Err(PathIndexOutOfRange(|paths|));
      }
      AppendAssoc(t0, prefix, GenerateEvents(payloads));
      r := ScoreAndRecord(w, images, genPaths, avgScore);
      AppendAssoc(t0, prefix + GenerateEvents(payloads),
                  [Score(images, genPaths, n)] + RecordBest(State(n, true, old(bestRollingScore)), avgScore, IterationLogText(show, hasBeta, w)).events);
      AppendAssoc(prefix + GenerateEvents(payloads), [Score(images, genPaths, n)],
                  RecordBest(State(n, true, old(bestRollingScore)), avgScore, IterationLogText(show, hasBeta, w)).events);
    }

    /** The tail of `sd_target_function`: score the images, render the weights, and record a new
        best. */
    method ScoreAndRecord(w: Weights, images: seq<Image>, genPaths: seq<string>, avgScore: real) returns (r: Result<real, EvalError>)
      requires hasBeta ==> w.beta.Some?
      modifies this
      ensures var recorded := RecordBest(old(Snapshot()), avgScore, IterationLogText(show, hasBeta, w));
        && Snapshot() == recorded.state
        && trace == old(trace) + ([Score(images, genPaths, iteration)] + recorded.events)
      ensures calls == old(calls) && r == Ok(avgScore)
    {
      trace := trace + [Score(images, genPaths, iteration)];
      var weightsStr := WeightsString(show, w.alpha);
      var weightsBetaStr := if hasBeta then WeightsString(show, w.beta.value) else "";
      var text := BestLogText(show, w.baseAlpha, weightsStr, w.baseBeta, weightsBetaStr);
      assert text == IterationLogText(show, hasBeta, w);
      RecordIfBest(avgScore, text);
      AppendAssoc(old(trace), [Score(images, genPaths, iteration)], RecordBest(old(Snapshot()), avgScore, text).events);
      r := Ok(avgScore);
    }

    /** The start of `sd_target_function`'s cycle: name the output model, merge, clean up, and
        point the generator at the merge. */
    method MergeAndSwitch(w: Weights)
      modifies this
      ensures iteration == old(iteration) && bestRollingScore == old(bestRollingScore) && clean
      ensures trace == old(trace) + ([CreateName(iteration), Merge(w, false)] +
                                     (if old(clean) then [RemovePrev(iteration)] else []) + [SwitchModel])
      ensures calls == old(calls)
    {
      trace := trace + [CreateName(iteration), Merge(w, false)];
      Cleanup();
      trace := trace + [SwitchModel];
    }

    /** The new-best branch of `sd_target_function`: a score strictly above `best_rolling_score`
        becomes the best, `best.log` is written and the merge kept, and `_clean` is cleared so the
        next cleanup keeps it. */
    method RecordIfBest(avgScore: real, text: string)
      modifies this
      ensures Snapshot() == RecordBest(old(Snapshot()), avgScore, text).state
      ensures trace == old(trace) + RecordBest(old(Snapshot()), avgScore, text).events
      ensures calls == old(calls)
    {
      if avgScore > bestRollingScore {
        bestRollingScore := avgScore;
        trace := trace + [SaveBestLog(text), KeepBest];
        clean := false;
      }
    }

    /** The generation loop of `sd_target_function`, sending each payload to the generator and
        collecting the images and one path slot per image; it stops with `IndexError` at the first payload
        without a path, after that payload was sent. */
    method GenerateImages(payloads: seq<Payload>, paths: seq<string>, batches: seq<seq<Image>>)
      returns (images: seq<Image>, genPaths: seq<string>, complete: bool)
      requires |batches| == |payloads|
      modifies this
      ensures complete <==> |payloads| <= |paths|
      ensures complete ==> images == Flatten(batches) && genPaths == ExpandPaths(payloads, paths, cfg.batchSize)
      ensures trace == old(trace) + GenerateEvents(if complete then payloads else payloads[..|paths| + 1])
      ensures Snapshot() == old(Snapshot()) && calls == old(calls)
    {
      images, genPaths := [], [];
      var i := 0;
      while i < |payloads|
        invariant 0 <= i <= |payloads| && i <= |paths|
        invariant Snapshot() == old(Snapshot()) && calls == old(calls)
        invariant images == Flatten(batches[..i])
        invariant genPaths == ExpandPaths(payloads[..i], paths, cfg.batchSize)
        invariant trace == old(trace) + GenerateEvents(payloads[..i])
      {
        trace := trace + [Generate(payloads[i])];
        images := images + batches[i];
        assert GenerateEvents(payloads[..i + 1]) == GenerateEvents(payloads[..i]) + [Generate(payloads[i])];
        if i >= |paths| {
          assert payloads[..i + 1] == payloads[..|paths| + 1];
          return images, genPaths, false;
        }
        assert batches[..i + 1][..i] == batches[..i];
        assert PathBlocks(payloads[..i + 1], paths, cfg.batchSize)[..i] == PathBlocks(payloads[..i], paths, cfg.batchSize);
        genPaths := genPaths + PathBlock(paths[i], cfg.batchSize, payloads[i].batchSize);
        i := i + 1;
      }
      assert payloads[..i] == payloads && batches[..i] == batches;
      complete := true;
    }

    /** `plot_and_save`: the final calls for the best values found, leaving the fields alone. */
    method PlotAndSave(scores: seq<real>, best: Weights, minimise: bool)
      requires hasBeta ==> best.beta.Some?
      modifies this
      ensures trace == old(trace) + FinalEvents(cfg, show, hasBeta, scores, best, minimise)
      ensures Snapshot() == old(Snapshot()) && calls == old(calls)
    {
      trace := trace + FinalEvents(cfg, show, hasBeta, scores, best, minimise);
    }
  }
}
