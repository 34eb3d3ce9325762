/** One evaluation cycle of `Optimiser.sd_target_function`, as a function from the optimiser's
    bookkeeping state and the collaborators' answers to the new state, the calls made and the
    value returned. */
module Evaluation {
  import opened Wrappers
  import opened Seqs
  import opened WeightSchema
  import opened BestLog

  /** The configuration fields the core reads. */
  datatype Config = Config(initPoints: int, mergeMode: string, batchSize: int, saveBest: bool)

  datatype Phase = Warmup | Optimisation

  /** A rendered generation payload; the core reads only its `batch_size`. */
  datatype Payload = Payload(batchSize: int)

  /** An image returned by the generator, as an opaque handle. */
  datatype Image = Image(handle: nat)

  datatype Axis = Alpha | Beta

  /** The calls the optimiser makes on its collaborators, in the order it makes them. */
  datatype Event =
    | CreateName(iteration: nat)                             // merger.create_model_out_name
    | Merge(weights: Weights, best: bool)                    // merger.merge
    | RemovePrev(iteration: nat)                             // merger.remove_previous_ckpt
    | SwitchModel                                            // generator.switch_model(merger.model_out_name)
    | Generate(payload: Payload)                             // generator.batch_generate
    | Score(images: seq<Image>, paths: seq<string>, iteration: nat)  // scorer.batch_score
    | SaveBestLog(text: string)                              // save_best_log
    | KeepBest                                               // merger.keep_best_ckpt
    | ConvergencePlot(scores: seq<real>, minimise: bool)     // convergence_plot
    | DrawUnet(axis: Axis, base: Option<real>, blockWeights: seq<real>)  // draw_unet

  /** The exceptions the cycle itself raises: `KeyError` on a parameter, `IndexError` on `paths`. */
  datatype EvalError = MissingKey(key: string) | PathIndexOutOfRange(index: nat)

  /** `iteration`, `_clean` and `best_rolling_score`. */
  datatype State = State(iteration: nat, clean: bool, best: real)

  datatype Transition = Transition(state: State, events: seq<Event>)

  /** What one call receives: its keyword parameters, the prompter's payloads and paths, one
      list of images per payload from the generator, and the scorer's average score. */
  datatype Call = Call(params: map<string, real>, payloads: seq<Payload>, paths: seq<string>,
                       batches: seq<seq<Image>>, avgScore: real)

  datatype Outcome = Outcome(phase: Phase, state: State, events: seq<Event>, result: Result<real, EvalError>)

  /** The state `__post_init__` leaves, for a `best_rolling_score` that defaults to `0.0`. */
  function Initial(best: real): State {
    State(0, true, best)
  }

  predicate WellFormed(c: Call) {
    |c.batches| == |c.payloads|
  }

  function PhaseOf(iteration: nat, initPoints: int): Phase {
    if iteration <= initPoints then Warmup else Optimisation
  }

  /** `cleanup`: remove the previous merge when `_clean`, otherwise skip once and set `_clean`. */
  function CleanupStep(s: State): (r: Transition)
    ensures r.state.clean && r.state.iteration == s.iteration && r.state.best == s.best
    ensures r.events != [] <==> s.clean
    ensures |r.events| <= 1
    ensures forall e :: e in r.events ==> e == RemovePrev(s.iteration)
  {
    if s.clean then Transition(s, [RemovePrev(s.iteration)]) else Transition(s.(clean := true), [])
  }

  /** A kept checkpoint is spared exactly once: the `cleanup` after a skip removes again. */
  lemma CleanupSkipsOnce(s: State)
    requires !s.clean
    ensures CleanupStep(s).events == []
    ensures CleanupStep(CleanupStep(s).state).events == [RemovePrev(s.iteration)]
  {
  }

  /** The new-best branch of `sd_target_function`: a strictly better score becomes the best, is
      logged and its merge kept. */
  function RecordBest(s: State, avgScore: real, text: string): (r: Transition)
    ensures r.state.iteration == s.iteration
    ensures KeepBest in r.events <==> avgScore > s.best
    ensures r.state.best >= s.best && (r.state.best == s.best || r.state.best == avgScore)
    ensures r.state.clean <==> s.clean && KeepBest !in r.events
    ensures forall e :: e in r.events && e.SaveBestLog? ==> e.text == text
    ensures avgScore > s.best ==> r.state.best == avgScore && r.events == [SaveBestLog(text), KeepBest]
    ensures avgScore <= s.best ==> r.state == s && r.events == []
  {
    if avgScore > s.best then
      Transition(s.(best := avgScore, clean := false), [SaveBestLog(text), KeepBest])
    else Transition(s, [])
  }

  /** `[paths[i]] * cfg.batch_size * payload["batch_size"]`. */
  function PathBlock(path: string, batchSize: int, payloadBatchSize: int): seq<string> {
    PyRepeat(PyRepeat([path], batchSize), payloadBatchSize)
  }

  /** How many paths a payload contributes. */
  function CopyCount(batchSize: int, payloadBatchSize: int): nat {
    Max0(batchSize) * Max0(payloadBatchSize)
  }

  function PathBlocks(payloads: seq<Payload>, paths: seq<string>, batchSize: int): (r: seq<seq<string>>)
    requires |payloads| <= |paths|
    ensures |r| == |payloads|
    ensures forall i :: 0 <= i < |payloads| ==> r[i] == PathBlock(paths[i], batchSize, payloads[i].batchSize)
  {
    seq(|payloads|, (i: int) requires 0 <= i < |payloads| => PathBlock(paths[i], batchSize, payloads[i].batchSize))
  }

  /** `gen_paths` after the generation loop. */
  function ExpandPaths(payloads: seq<Payload>, paths: seq<string>, batchSize: int): seq<string>
    requires |payloads| <= |paths|
  {
    Flatten(PathBlocks(payloads, paths, batchSize))
  }

  function GenerateEvents(payloads: seq<Payload>): (r: seq<Event>)
    ensures |r| == |payloads|
    ensures forall i :: 0 <= i < |r| ==> r[i] == Generate(payloads[i])
  {
    seq(|payloads|, (i: int) requires 0 <= i < |payloads| => Generate(payloads[i]))
  }

  /** The `best.log` text `sd_target_function` renders for the weights of this iteration. */
  function IterationLogText(show: real -> string, hasBeta: bool, w: Weights): string
    requires hasBeta ==> w.beta.Some?
  {
    BestLogText(show, w.baseAlpha, WeightsString(show, w.alpha), w.baseBeta,
                if hasBeta then WeightsString(show, w.beta.value) else "")
  }

  /** Whether this call runs to its `return`: every parameter key is present and the prompter
      gave a path for every payload. */
  predicate Succeeds(cfg: Config, c: Call) {
    ExtractWeights(c.params, HasBeta(cfg.mergeMode)).Ok? && |c.payloads| <= |c.paths|
  }

  /** Whether this call gets past reading its parameters: every key the merge mode needs is
      present, so it merges, cleans up and generates even when it later raises `IndexError`. */
  predicate ReadsWeights(cfg: Config, c: Call) {
    ExtractWeights(c.params, HasBeta(cfg.mergeMode)).Ok?
  }

  /** The extraction result in the shape `ExtractWeights` guarantees. */
  predicate Extracted(ext: Result<Weights, string>, hasBeta: bool) {
    ext.Ok? ==> (ext.value.beta.Some? <==> hasBeta)
  }

  /** `sd_target_function` in state `s`. */
  function Step(cfg: Config, show: real -> string, s: State, c: Call): (o: Outcome)
    requires WellFormed(c)
    ensures o.state.iteration == s.iteration + 1
    ensures o.phase == (if s.iteration + 1 <= cfg.initPoints then Warmup else Optimisation)
    ensures o.result.Ok? <==> Succeeds(cfg, c)
    ensures o.result.Ok? ==> o.result.value == c.avgScore
  {
    Cycle(cfg, s, c, ExtractWeights(c.params, HasBeta(cfg.mergeMode)), StepLogText(cfg, show, c))
  }

  /** What this call would write to `best.log`, once its parameters are read. */
  function StepLogText(cfg: Config, show: real -> string, c: Call): string {
    var ext := ExtractWeights(c.params, HasBeta(cfg.mergeMode));
    if ext.Ok? then IterationLogText(show, HasBeta(cfg.mergeMode), ext.value) else ""
  }

  /** The cycle once the parameters have been read into `ext`. */
  function Cycle(cfg: Config, s: State, c: Call, ext: Result<Weights, string>, text: string): (o: Outcome)
    requires WellFormed(c) && Extracted(ext, HasBeta(cfg.mergeMode))
    ensures o.state.iteration == s.iteration + 1
    ensures o.phase == (if s.iteration + 1 <= cfg.initPoints then Warmup else Optimisation)
    ensures o.result.Ok? <==> ext.Ok? && |c.payloads| <= |c.paths|
    ensures o.result.Ok? ==> o.result.value == c.avgScore
  {
    var n := s.iteration + 1;
    var counted := s.(iteration := n);
    match ext
    case Err(key) => Outcome(PhaseOf(n, cfg.initPoints), counted, [], Err(MissingKey(key)))
    case Ok(w) =>
      var cleaned := CleanupStep(counted);
      var prefix := [CreateName(n), Merge(w, false)] + cleaned.events + [SwitchModel];
      if |c.paths| < |c.payloads| then
        Outcome(PhaseOf(n, cfg.initPoints), cleaned.state,
                prefix + GenerateEvents(c.payloads[..|c.paths| + 1]), Err(PathIndexOutOfRange(|c.paths|)))
      else
        var scored := prefix + GenerateEvents(c.payloads) +
                      [Score(Flatten(c.batches), ExpandPaths(c.payloads, c.paths, cfg.batchSize), n)];
        var recorded := RecordBest(cleaned.state, c.avgScore, text);
        Outcome(PhaseOf(n, cfg.initPoints), recorded.state, scored + recorded.events, Ok(c.avgScore))
  }

  /** Whether the call found a new best. */
  predicate NewBest(o: Outcome) {
    KeepBest in o.events
  }

  lemma NoCheckpointCallIn(ps: seq<Payload>)
    ensures forall e :: e in GenerateEvents(ps) ==> e.Generate?
  {
    var g := GenerateEvents(ps);
    forall e | e in g ensures e.Generate? { var i :| 0 <= i < |g| && g[i] == e; }
  }

  lemma CycleBest(cfg: Config, s: State, c: Call, ext: Result<Weights, string>, text: string)
    requires WellFormed(c) && Extracted(ext, HasBeta(cfg.mergeMode))
    ensures var o := Cycle(cfg, s, c, ext, text);
      && (NewBest(o) <==> ext.Ok? && |c.payloads| <= |c.paths| && c.avgScore > s.best)
      && o.state.best == (if NewBest(o) then c.avgScore else s.best)
  {
    if ext.Ok? {
      if |c.paths| < |c.payloads| {
        AbortedEvents(cfg, s, c, ext, text);
        NoCheckpointCallIn(c.payloads[..|c.paths| + 1]);
      } else {
        CompletedEvents(cfg, s, c, ext, text);
        NoCheckpointCallIn(c.payloads);
      }
    }
  }


  lemma CycleLogsBest(cfg: Config, s: State, c: Call, ext: Result<Weights, string>, text: string)
    requires WellFormed(c) && Extracted(ext, HasBeta(cfg.mergeMode))
    ensures var o := Cycle(cfg, s, c, ext, text);
      && (forall e :: e in o.events && e.SaveBestLog? ==> e.text == text)
      && (NewBest(o) ==> SaveBestLog(text) in o.events)
      && (ext.Ok? ==> |o.events| >= 2 && o.events[1] == Merge(ext.value, false))
  {
    NoCheckpointCallIn(c.payloads);
    if |c.paths| < |c.payloads| { NoCheckpointCallIn(c.payloads[..|c.paths| + 1]); }
  }



  lemma CycleRetention(cfg: Config, s: State, c: Call, ext: Result<Weights, string>, text: string)
    requires WellFormed(c) && Extracted(ext, HasBeta(cfg.mergeMode))
    ensures var o := Cycle(cfg, s, c, ext, text);
      ext.Ok? ==>
        && (RemovePrev(s.iteration + 1) in o.events <==> s.clean)
        && (forall e :: e in o.events && e.RemovePrev? ==> e.iteration == s.iteration + 1)
        && (o.state.clean <==> !NewBest(o))
    ensures ext.Err? ==>
      Cycle(cfg, s, c, ext, text).state == s.(iteration := s.iteration + 1) && Cycle(cfg, s, c, ext, text).events == []
  {
    if ext.Ok? {
      CycleBest(cfg, s, c, ext, text);
      if |c.paths| < |c.payloads| {
        AbortedEvents(cfg, s, c, ext, text);
        NoCheckpointCallIn(c.payloads[..|c.paths| + 1]);
      } else {
        CompletedEvents(cfg, s, c, ext, text);
        NoCheckpointCallIn(c.payloads);
      }
    }
  }


  /** How far a call got: it failed reading its parameters, it failed on a short list of paths
      after the merge, or it completed with a score. */
  datatype Verdict = Unread | Aborted | Completed(score: real)

  function VerdictOf(cfg: Config, c: Call): Verdict {
    if ExtractWeights(c.params, HasBeta(cfg.mergeMode)).Err? then Unread
    else if |c.payloads| <= |c.paths| then Completed(c.avgScore)
    else Aborted
  }

  /** The bookkeeping state after a call with verdict `v`: the counter rises by one; a completed
      call with a score strictly above the incumbent makes it the best and clears `_clean`; a
      call that got past reading its parameters otherwise leaves `_clean` set; a call that failed
      on a missing key changes only the counter. */
  function Advance(s: State, v: Verdict): State {
    var n := s.iteration + 1;
    match v
    case Unread => s.(iteration := n)
    case Aborted => State(n, true, s.best)
    case Completed(score) => if score > s.best then State(n, false, score) else State(n, true, s.best)
  }

  /** The state `sd_target_function` leaves behind is the one `Advance` describes. */
  lemma StepState(cfg: Config, show: real -> string, s: State, c: Call)
    requires WellFormed(c)
    ensures Step(cfg, show, s, c).state == Advance(s, VerdictOf(cfg, c))
    ensures VerdictOf(cfg, c).Completed? <==> Succeeds(cfg, c)
    ensures VerdictOf(cfg, c).Completed? ==> VerdictOf(cfg, c).score == c.avgScore
  {
    CycleRetention(cfg, s, c, ExtractWeights(c.params, HasBeta(cfg.mergeMode)), StepLogText(cfg, show, c));
    CycleBest(cfg, s, c, ExtractWeights(c.params, HasBeta(cfg.mergeMode)), StepLogText(cfg, show, c));
  }

  /** Best tracking: a new best happens exactly when the call completes with a score strictly
      above the incumbent; the best then becomes that score, and otherwise it stays. */
  lemma StepBest(cfg: Config, show: real -> string, s: State, c: Call)
    requires WellFormed(c)
    ensures NewBest(Step(cfg, show, s, c)) <==> Succeeds(cfg, c) && c.avgScore > s.best
    ensures Step(cfg, show, s, c).state.best == if NewBest(Step(cfg, show, s, c)) then c.avgScore else s.best
    ensures Step(cfg, show, s, c).state.best >= s.best
  {
    CycleBest(cfg, s, c, ExtractWeights(c.params, HasBeta(cfg.mergeMode)), StepLogText(cfg, show, c));
  }

  /** The only `best.log` a call writes is its own weights' text, written when it finds a new
      best; the merge it makes uses the weights it read. */
  lemma StepLogsBest(cfg: Config, show: real -> string, s: State, c: Call)
    requires WellFormed(c)
    ensures var o := Step(cfg, show, s, c);
      var ext := ExtractWeights(c.params, HasBeta(cfg.mergeMode));
      && (NewBest(o) ==> ext.Ok? && SaveBestLog(IterationLogText(show, HasBeta(cfg.mergeMode), ext.value)) in o.events)
      && (forall e :: e in o.events && e.SaveBestLog? ==> ext.Ok? && e.text == IterationLogText(show, HasBeta(cfg.mergeMode), ext.value))
      && (ext.Ok? ==> |o.events| >= 2 && o.events[1] == Merge(ext.value, false))
  {
    var ext := ExtractWeights(c.params, HasBeta(cfg.mergeMode));
    CycleLogsBest(cfg, s, c, ext, StepLogText(cfg, show, c));
    CycleBest(cfg, s, c, ext, StepLogText(cfg, show, c));
    CycleRetention(cfg, s, c, ext, StepLogText(cfg, show, c));
  }

  /** Retention: a call that got past reading its parameters removes the previous merge exactly
      when `_clean` was set, naming its own iteration, and leaves `_clean` set exactly when it did
      not find a new best; a call that failed on a missing key changes only the counter. */
  lemma StepRetention(cfg: Config, show: real -> string, s: State, c: Call)
    requires WellFormed(c)
    ensures var o := Step(cfg, show, s, c);
      ExtractWeights(c.params, HasBeta(cfg.mergeMode)).Ok? ==>
        && (RemovePrev(s.iteration + 1) in o.events <==> s.clean)
        && (forall e :: e in o.events && e.RemovePrev? ==> e.iteration == s.iteration + 1)
        && (o.state.clean <==> !NewBest(o))
    ensures ExtractWeights(c.params, HasBeta(cfg.mergeMode)).Err? ==>
      Step(cfg, show, s, c).state == s.(iteration := s.iteration + 1) && Step(cfg, show, s, c).events == []
  {
    CycleRetention(cfg, s, c, ExtractWeights(c.params, HasBeta(cfg.mergeMode)), StepLogText(cfg, show, c));
  }

  /** `all` lists a completed cycle's calls in order, where `k` is 3 when cleanup removes and 2
      otherwise: `CreateName(n)` at 0, `Merge(w, false)` at 1, `RemovePrev(n)` at 2 when `clean`,
      `SwitchModel` at `k`, one `Generate` per payload in payload order, then `score`; nothing up
      to `score` writes `best.log` or keeps the checkpoint, and `tail` follows it. */
  ghost predicate CompletedCallOrder(all: seq<Event>, n: nat, w: Weights, clean: bool, payloads: seq<Payload>,
                                     score: Event, tail: seq<Event>) {
    var k := if clean then 3 else 2;
    && |all| >= k + 2 + |payloads|
    && all[0] == CreateName(n)
    && all[1] == Merge(w, false)
    && (clean ==> all[2] == RemovePrev(n))
    && all[k] == SwitchModel
    && (forall i :: 0 <= i < |payloads| ==> all[k + 1 + i] == Generate(payloads[i]))
    && all[k + 1 + |payloads|] == score
    && (forall i :: 0 <= i <= k + 1 + |payloads| ==> !all[i].SaveBestLog? && all[i] != KeepBest)
    && all[k + 2 + |payloads|..] == tail
  }

  /** Call order of a completed call: the name for the iteration, the merge of the weights read,
      the removal of the previous merge when `_clean`, the model switch, one generation per
      payload, the scoring of all images with their paths, and only then, on a new best, the
      `best.log` save of this iteration's weights and keeping the checkpoint. */
  lemma StepCallOrder(cfg: Config, show: real -> string, s: State, c: Call)
    requires WellFormed(c) && Succeeds(cfg, c)
    ensures var w := ExtractWeights(c.params, HasBeta(cfg.mergeMode)).value;
      CompletedCallOrder(Step(cfg, show, s, c).events, s.iteration + 1, w, s.clean, c.payloads,
                         Score(Flatten(c.batches), ExpandPaths(c.payloads, c.paths, cfg.batchSize), s.iteration + 1),
                         if c.avgScore > s.best then [SaveBestLog(IterationLogText(show, HasBeta(cfg.mergeMode), w)), KeepBest]
                         else [])
  {
    var ext := ExtractWeights(c.params, HasBeta(cfg.mergeMode));
    CycleCallOrder(cfg, s, c, ext, StepLogText(cfg, show, c));
  }

  lemma CycleCallOrder(cfg: Config, s: State, c: Call, ext: Result<Weights, string>, text: string)
    requires WellFormed(c) && Extracted(ext, HasBeta(cfg.mergeMode))
    requires ext.Ok? && |c.payloads| <= |c.paths|
    ensures CompletedCallOrder(Cycle(cfg, s, c, ext, text).events, s.iteration + 1, ext.value, s.clean, c.payloads,
                               Score(Flatten(c.batches), ExpandPaths(c.payloads, c.paths, cfg.batchSize), s.iteration + 1),
                               if c.avgScore > s.best then [SaveBestLog(text), KeepBest] else [])
  {
    var n := s.iteration + 1;
    CompletedEvents(cfg, s, c, ext, text);
    EventLayout(Cycle(cfg, s, c, ext, text).events, n, ext.value, s.clean, c.payloads,
                Score(Flatten(c.batches), ExpandPaths(c.payloads, c.paths, cfg.batchSize), n),
                if c.avgScore > s.best then [SaveBestLog(text), KeepBest] else []);
  }

  lemma CompletedEvents(cfg: Config, s: State, c: Call, ext: Result<Weights, string>, text: string)
    requires WellFormed(c) && Extracted(ext, HasBeta(cfg.mergeMode))
    requires ext.Ok? && |c.payloads| <= |c.paths|
    ensures var n := s.iteration + 1;
      Cycle(cfg, s, c, ext, text).events ==
        [CreateName(n), Merge(ext.value, false)] + (if s.clean then [RemovePrev(n)] else []) + [SwitchModel] +
        GenerateEvents(c.payloads) + [Score(Flatten(c.batches), ExpandPaths(c.payloads, c.paths, cfg.batchSize), n)] +
        (if c.avgScore > s.best then [SaveBestLog(text), KeepBest] else [])
  {
  }

  lemma AbortedEvents(cfg: Config, s: State, c: Call, ext: Result<Weights, string>, text: string)
    requires WellFormed(c) && Extracted(ext, HasBeta(cfg.mergeMode))
    requires ext.Ok? && |c.paths| < |c.payloads|
    ensures var n := s.iteration + 1;
      Cycle(cfg, s, c, ext, text).events ==
        [CreateName(n), Merge(ext.value, false)] + (if s.clean then [RemovePrev(n)] else []) + [SwitchModel] +
        GenerateEvents(c.payloads[..|c.paths| + 1])
  {
  }

  /** Every call `sd_target_function` makes, in order, for each of its three ways out: a missing
      key (nothing called), too few paths (the payloads up to and including the first one without
      a path are sent to the generator), or a completed cycle. */
  lemma StepEvents(cfg: Config, show: real -> string, s: State, c: Call)
    requires WellFormed(c)
    ensures var o := Step(cfg, show, s, c);
      var ext := ExtractWeights(c.params, HasBeta(cfg.mergeMode));
      var n := s.iteration + 1;
      && (ext.Err? ==> o.state == s.(iteration := n) && o.events == [] && o.result == Err(MissingKey(ext.error)))
      && (ext.Ok? && |c.paths| < |c.payloads| ==>
            && o.state == State(n, true, s.best)
            && o.events == [CreateName(n), Merge(ext.value, false)] + (if s.clean then [RemovePrev(n)] else []) +
                           [SwitchModel] + GenerateEvents(c.payloads[..|c.paths| + 1])
            && o.result == Err(PathIndexOutOfRange(|c.paths|)))
      && (ext.Ok? && |c.payloads| <= |c.paths| ==>
            && o.state == (if c.avgScore > s.best then State(n, false, c.avgScore) else State(n, true, s.best))
            && o.events == [CreateName(n), Merge(ext.value, false)] + (if s.clean then [RemovePrev(n)] else []) +
                           [SwitchModel] + GenerateEvents(c.payloads) +
                           [Score(Flatten(c.batches), ExpandPaths(c.payloads, c.paths, cfg.batchSize), n)] +
                           (if c.avgScore > s.best
                            then [SaveBestLog(IterationLogText(show, HasBeta(cfg.mergeMode), ext.value)), KeepBest]
                            else [])
            && o.result == Ok(c.avgScore))
  {
    var ext := ExtractWeights(c.params, HasBeta(cfg.mergeMode));
    if ext.Ok? {
      if |c.paths| < |c.payloads| {
        AbortedEvents(cfg, s, c, ext, StepLogText(cfg, show, c));
      } else {
        CompletedEvents(cfg, s, c, ext, StepLogText(cfg, show, c));
      }
    }
  }

  /** The positions of the calls in a completed cycle's event list. */
  lemma EventLayout(all: seq<Event>, n: nat, w: Weights, clean: bool, payloads: seq<Payload>, score: Event, tail: seq<Event>)
    requires !score.SaveBestLog? && score != KeepBest
    requires all == [CreateName(n), Merge(w, false)] + (if clean then [RemovePrev(n)] else []) + [SwitchModel] +
                    GenerateEvents(payloads) + [score] + tail
    ensures CompletedCallOrder(all, n, w, clean, payloads, score, tail)
  {
    var k := if clean then 3 else 2;
    var prefix := [CreateName(n), Merge(w, false)] + (if clean then [RemovePrev(n)] else []) + [SwitchModel];
    var gens := GenerateEvents(payloads);
    var head := prefix + gens + [score];
    assert |prefix| == k + 1 && prefix[0] == CreateName(n) && prefix[1] == Merge(w, false) && prefix[k] == SwitchModel;
    assert clean ==> prefix[2] == RemovePrev(n);
    assert forall i :: 0 <= i <= k ==> !prefix[i].SaveBestLog? && prefix[i] != KeepBest;
    assert all == head + tail;
    assert all[|head|..] == tail;
    forall i | 0 <= i < |head|
      ensures all[i] == head[i]
      ensures all[i] == if i <= k then prefix[i] else if i < k + 1 + |gens| then gens[i - k - 1] else score
    {
    }
  }

  /** The length of `gen_paths` after the generation loop: the payloads' copy counts summed. */
  function TotalCount(payloads: seq<Payload>, batchSize: int): nat
    decreases |payloads|
  {
    if |payloads| == 0 then 0
    else TotalCount(payloads[..|payloads| - 1], batchSize) + CopyCount(batchSize, payloads[|payloads| - 1].batchSize)
  }

  lemma PathBlockShape(path: string, batchSize: int, payloadBatchSize: int)
    ensures |PathBlock(path, batchSize, payloadBatchSize)| == CopyCount(batchSize, payloadBatchSize)
    ensures forall t :: 0 <= t < |PathBlock(path, batchSize, payloadBatchSize)| ==>
      PathBlock(path, batchSize, payloadBatchSize)[t] == path
  {
    PyRepeatUniform([path], path, batchSize);
    PyRepeatUniform(PyRepeat([path], batchSize), path, payloadBatchSize);
  }

  lemma {:induction false} ExpandPathsLength(payloads: seq<Payload>, paths: seq<string>, batchSize: int)
    requires |payloads| <= |paths|
    ensures |ExpandPaths(payloads, paths, batchSize)| == TotalCount(payloads, batchSize)
    decreases |payloads|
  {
    if |payloads| > 0 {
      var m := |payloads| - 1;
      ExpandPathsLength(payloads[..m], paths, batchSize);
      assert PathBlocks(payloads, paths, batchSize)[..m] == PathBlocks(payloads[..m], paths, batchSize);
      PathBlockShape(paths[m], batchSize, payloads[m].batchSize);
    }
  }

  /** `gen_paths` is laid out in payload order: the slots of payload `i` start after those of the
      payloads before it, and every one of them holds `paths[i]`. */
  lemma ExpandPathsInOrder(payloads: seq<Payload>, paths: seq<string>, batchSize: int, i: nat, t: nat)
    requires |payloads| <= |paths|
    requires i < |payloads| && t < CopyCount(batchSize, payloads[i].batchSize)
    ensures TotalCount(payloads[..i], batchSize) + t < |ExpandPaths(payloads, paths, batchSize)|
    ensures ExpandPaths(payloads, paths, batchSize)[TotalCount(payloads[..i], batchSize) + t] == paths[i]
  {
    var blocks := PathBlocks(payloads, paths, batchSize);
    PathBlockShape(paths[i], batchSize, payloads[i].batchSize);
    assert blocks[..i] == PathBlocks(payloads[..i], paths, batchSize);
    ExpandPathsLength(payloads[..i], paths, batchSize);
    FlattenAt(blocks, i, t);
  }

  /** When the generator returns as many images per payload as there are path slots for it, the
      image list and `gen_paths` have the same length and each image of payload `i` is paired with
      `paths[i]`. */
  lemma ImagesPairWithPaths(cfg: Config, c: Call, i: nat, t: nat)
    requires WellFormed(c) && |c.payloads| <= |c.paths|
    requires forall j :: 0 <= j < |c.batches| ==> |c.batches[j]| == CopyCount(cfg.batchSize, c.payloads[j].batchSize)
    requires i < |c.batches| && t < |c.batches[i]|
    ensures |Flatten(c.batches)| == |ExpandPaths(c.payloads, c.paths, cfg.batchSize)|
    ensures |Flatten(c.batches[..i])| + t < |Flatten(c.batches)|
    ensures Flatten(c.batches)[|Flatten(c.batches[..i])| + t] == c.batches[i][t]
    ensures ExpandPaths(c.payloads, c.paths, cfg.batchSize)[|Flatten(c.batches[..i])| + t] == c.paths[i]
  {
    var blocks := PathBlocks(c.payloads, c.paths, cfg.batchSize);
    forall j | 0 <= j < |blocks| ensures |c.batches[j]| == |blocks[j]| {
      PathBlockShape(c.paths[j], cfg.batchSize, c.payloads[j].batchSize);
    }
    PathBlockShape(c.paths[i], cfg.batchSize, c.payloads[i].batchSize);
    assert blocks[i][t] == c.paths[i];
    FlattenAligned(c.batches, blocks, i, t);
  }
}
