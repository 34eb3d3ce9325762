# Bayesian merger optimiser: the evaluation bookkeeping, in Dafny

`sd_webui_bayesian_merger` searches for per-block blend weights between two Stable Diffusion
checkpoints. The search library calls `Optimiser.sd_target_function(**params)` once per
candidate. Each call does the following, in order:

1. reads the proposed weights from the keyword arguments;
2. asks the merger to name and build a merged checkpoint;
3. lets `cleanup` delete the previous merge, unless that merge was the best so far;
4. points the generator at the new merge, generates one batch of images per prompt payload and
   pairs every image with its prompt's output path;
5. has the scorer score the images;
6. keeps the merge and writes `best.log` when the average score is strictly above
   `best_rolling_score`.

When the search ends, `plot_and_save` draws the convergence plot and the UNet diagrams and
rewrites `best.log` from the best weights. When `save_best` is set, it also merges those weights
one last time with `best=True`.

This project models that bookkeeping:

- the fields `iteration`, `_clean`, `best_rolling_score` and `has_beta`;
- the order of the collaborator calls that build, keep or remove checkpoints, generate,
  score, write `best.log` and plot, with the arguments the core computes for them;
- the weight schema;
- the exact text of `best.log`.

Every collaborator call that changes something outside the optimiser is an `Event` appended to a
ghost `trace`. The answers the collaborators
give are inputs of the call:

- the prompter's `payloads` and `paths`;
- one image list per payload from the generator;
- the scorer's average.

Modules, in dependency order:

- `Wrappers`: `Option` and `Result`.
- `Text`: Python's `join`, `split` and `str(int)`.
- `Seqs`: Python's `list * int`, and the flattening that repeated `extend` performs.
- `WeightSchema`: reading `block_0 … block_24`, `base_alpha` and, in the merge modes
  `sum_twice` and `triple_sum`, `base_beta` and `block_i_beta`.
  - A missing key is `Err(key)`, for the first key whose lookup raises `KeyError`.
- `BestLog`: the text `save_best_log` writes, plus a reader for it, used to state that the text
  identifies the weights.
- `Evaluation`: one call of `sd_target_function` as a function
  `Step(cfg, show, state, call): Outcome`.
  - The outcome holds the phase tag, the new state, the events and the returned value.
  - The exceptions are `MissingKey` (`KeyError`) and `PathIndexOutOfRange` (`IndexError`).
  - Lemmas cover best tracking, retention, call order and path expansion.
  - `Advance` abstracts the state change of one call by its `Verdict`: unread, aborted, or
    completed with a score.
- `Run`: `After(cfg, s0, calls)` is the state after a sequence of calls, and `OutcomeAt` is what
  the `j`-th of them did.
- `RunProperties`: properties across iterations.
  - the counter and the phase;
  - the best never decreasing, and being the maximum score;
  - ties keeping the incumbent;
  - single-slot checkpoint retention.
- `Finalisation`: the calls of `plot_and_save`.
- `Optimisers`: the class `Optimiser`.
  - Its fields hold the mutable state.
  - The ghost `calls` and `trace` record what was served and what was called.
  - `Valid()` ties the fields to `After(cfg, Initial(best0), calls)`.
  - Each method is proved against the functions above.
  - `GenerateImages` is the generation loop. Its invariants say that the image list is the
    flattening of the batches so far, and that `gen_paths` is the path expansion of the payloads
    so far.

Python's `str` on floats is a parameter `show: real -> string` of the model. It is assumed only to
produce neither a comma nor a newline (`Plain(show)`), and only where the text is read back.

Two behaviours of the code are worth knowing:

- **The beta section of best.log.** The beta section follows `if beta:`
  (`sd_webui_bayesian_merger/optimiser.py:218`), which tests the base beta, not the merge mode.
  - A two-axis run whose best `base_beta` is `0.0` therefore gets a `best.log` without beta
    weights (`FalsyBetaDropsSection`).
  - `plot_and_save` passes its `best_base_beta` even in a single-axis mode. A truthy value there
    writes a beta section with an empty weights line (`FinalLogReadsBack`).
- **Parameter keys.** Reading the parameters (`sd_webui_bayesian_merger/optimiser.py:68-72`) raises
  `KeyError` only on a missing key. Extra keys are ignored (`ExtractWeightsSucceeds`).

## Model

| member | source | states |
|---|---|---|
| WeightSchema.HasBeta | sd_webui_bayesian_merger/optimiser.py:36 | defined: the merge mode has a beta axis iff it is `sum_twice` or `triple_sum` (no contract of its own; `ExtractWeights` states its effect) |
| WeightSchema.LookupAll | sd_webui_bayesian_merger/optimiser.py:68-72 | the list comprehension succeeds iff every key is present; the result then has one value per key, `params[keys[i]]` at `i`; a failure names the first missing key in reading order |
| WeightSchema.ReadBlocks | sd_webui_bayesian_merger/optimiser.py:68-72 | reading the per-block weights succeeds iff all 25 block keys are present and then yields 25 values, element `i` = `params["block_{i}" + suffix]`; a failure names the first missing block key |
| WeightSchema.ExtractWeights | sd_webui_bayesian_merger/optimiser.py:68-75 | `weights_alpha[i] == params["block_{i}"]` over 25 blocks, `base_alpha` read; beta values present iff the mode is two-axis, read from `base_beta` and `block_{i}_beta`; `None` otherwise |
| WeightSchema.ExtractWeightsSucceeds | sd_webui_bayesian_merger/optimiser.py:68-75 | reading succeeds iff every key the mode requires is present (extra keys are ignored) |
| WeightSchema.ExtractWeightsFailure | sd_webui_bayesian_merger/optimiser.py:68-75 | the `KeyError` names the first missing key in reading order: alpha blocks, `base_alpha`, `base_beta`, beta blocks |
| Seqs.PyRepeat | sd_webui_bayesian_merger/optimiser.py:92 | defined: Python's `list * int`, empty for a factor `<= 0`; `PyRepeatUniform` states its contents |
| Seqs.PyRepeatUniform | sd_webui_bayesian_merger/optimiser.py:92 | Python's `xs * k` on a list whose elements all equal `x` holds `len(xs) * max(k, 0)` copies of `x` and nothing else, so a factor `<= 0` gives an empty list |
| Text.SplitJoin | sd_webui_bayesian_merger/optimiser.py:108 | the comma join of fields without commas splits back into exactly those fields |
| BestLog.Truthy | sd_webui_bayesian_merger/optimiser.py:218 | defined: `if beta:` holds iff the base beta is a float other than `0.0` (`None` and `0.0` are falsy) |
| BestLog.WeightsString | sd_webui_bayesian_merger/optimiser.py:108 | defined: `",".join(map(str, ws))` as `Join` of the rendered values; `ParseBestLogText` proves it splits back |
| BestLog.BestLogText | sd_webui_bayesian_merger/optimiser.py:210-219 | the text starts with `alpha`, a blank line and the weights, and is longer than that exactly when the base beta is truthy, so the beta section is appended only then |
| BestLog.BestLogLines | sd_webui_bayesian_merger/optimiser.py:217-219 | the text is the lines `alpha`, blank, `weights`, then `beta`, blank, `weights_beta` only when `beta` is truthy |
| BestLog.BestLogJoinsLines | sd_webui_bayesian_merger/optimiser.py:210-219 | the text is exactly the newline join of the lines `alpha`, blank, `weights`, then `beta`, blank, `weights_beta` only when `beta` is truthy |
| BestLog.ParseBestLogText | sd_webui_bayesian_merger/optimiser.py:210-219 | reading back a `best.log` written for weight vectors yields `str` of every base value and weight, and a beta section iff the base beta was truthy |
| BestLog.BestLogDeterminesWeights | sd_webui_bayesian_merger/optimiser.py:210-219 | equal `best.log` texts come from equal rendered base values and weight lists (beta ones too when written) and agree on whether beta was truthy |
| BestLog.FalsyBetaDropsSection | sd_webui_bayesian_merger/optimiser.py:218-219 | a base beta of `0.0` or `None` leaves exactly `alpha\n\nweights`, the beta weights dropped |
| Evaluation.PhaseOf | sd_webui_bayesian_merger/optimiser.py:65 | defined: warmup iff `iteration <= init_points`; `Step` and `RunPhases` state it per call |
| Evaluation.CleanupStep | sd_webui_bayesian_merger/optimiser.py:38-43 | `cleanup` always leaves `_clean` set and the counter and best alone; it makes at most one call, it makes one iff `_clean` was set, and that call is `remove_previous_ckpt(iteration)` |
| Evaluation.CleanupSkipsOnce | sd_webui_bayesian_merger/optimiser.py:38-43 | with `_clean` cleared, `cleanup` skips the removal once, and the `cleanup` after it removes again |
| Evaluation.RecordBest | sd_webui_bayesian_merger/optimiser.py:119-125 | keeps the checkpoint iff `avg_score > best_rolling_score`; on a new best the best becomes `avg_score` and the calls are exactly `save_best_log(text)` then `keep_best_ckpt()`, otherwise the state is unchanged and nothing is called; the best never drops; `_clean` ends set iff it was set and nothing was kept; the counter is unchanged |
| Evaluation.PathBlock | sd_webui_bayesian_merger/optimiser.py:92 | defined: `[paths[i]] * self.cfg.batch_size * payload["batch_size"]` as two `PyRepeat`s; `PathBlockShape` states its length and contents |
| Evaluation.IterationLogText | sd_webui_bayesian_merger/optimiser.py:108-122 | defined: the `best.log` text `save_best_log` is called with, from `weights_str` and `weights_beta_str` (`""` in a single-axis mode); `StepLogsBest`, `ParseBestLogText` and `FinalLogReadsBack` state what it holds |
| Evaluation.ExpandPaths | sd_webui_bayesian_merger/optimiser.py:86-92 | defined: `gen_paths` after the loop as the flattening of one path block per payload; `ExpandPathsLength` and `ExpandPathsInOrder` state its shape |
| Evaluation.Step | sd_webui_bayesian_merger/optimiser.py:57-127 | each call raises `iteration` by exactly one; the phase is warmup iff `iteration <= init_points`; it returns normally iff every key is present and there is a path per payload, and then returns exactly `avg_score` |
| Evaluation.StepState | sd_webui_bayesian_merger/optimiser.py:57-127 | the new `iteration`, `_clean` and `best_rolling_score` are `Advance` of the call's verdict: counter only on `KeyError`; `_clean` set on `IndexError`; on completion a strictly higher score becomes the best and clears `_clean`, otherwise `_clean` is set |
| Evaluation.StepBest | sd_webui_bayesian_merger/optimiser.py:119-120 | a new best iff the call completes with `avg_score > best_rolling_score` (strictly, so a tie keeps the incumbent); the best becomes that score, else is unchanged; it never decreases |
| Evaluation.StepLogsBest | sd_webui_bayesian_merger/optimiser.py:108-122 | the only `best.log` text a call writes is its own weights' text, written whenever it finds a new best; its merge uses the weights it read |
| Evaluation.StepRetention | sd_webui_bayesian_merger/optimiser.py:38-43 | past the weights, a call asks to remove the previous checkpoint iff `_clean` was set, naming the current iteration, and leaves `_clean` set iff it found no new best; a `KeyError` changes only the counter and calls nothing |
| Evaluation.StepCallOrder | sd_webui_bayesian_merger/optimiser.py:77-127 | a completed call's calls satisfy `CompletedCallOrder`: `CreateName(n)`, `Merge(w, False)` with the weights read, `RemovePrev(n)` when clean, `SwitchModel`, one `Generate` per payload in order, `Score(images, gen_paths, n)`; nothing before the score saves or keeps; after it exactly `SaveBestLog` of this iteration's text and `KeepBest` iff a new best, else nothing |
| Evaluation.PathBlockShape | sd_webui_bayesian_merger/optimiser.py:92 | each payload contributes `max(batch_size,0) * max(payload["batch_size"],0)` copies of its own path |
| Evaluation.ExpandPathsLength | sd_webui_bayesian_merger/optimiser.py:86-92 | `len(gen_paths)` is the sum of the payloads' copy counts |
| Evaluation.ExpandPathsInOrder | sd_webui_bayesian_merger/optimiser.py:86-92 | `gen_paths` lists payloads in order: slot `t` of payload `i`, after the earlier payloads' slots, holds `paths[i]` |
| Evaluation.ImagesPairWithPaths | sd_webui_bayesian_merger/optimiser.py:84-100 | when each batch has as many images as its path slots, `images` and `gen_paths` passed to the scorer have equal length and image `t` of payload `i` sits at the same position as a copy of `paths[i]` |
| RunProperties.ReplayIterations | sd_webui_bayesian_merger/optimiser.py:58 | after `k` calls the counter has risen by exactly `k` |
| RunProperties.ReplayBestMonotone | sd_webui_bayesian_merger/optimiser.py:119-120 | the best after a prefix of the calls is at most the best after all of them |
| RunProperties.ReplayBestUpper | sd_webui_bayesian_merger/optimiser.py:119-120 | the best is at least the starting best and at least every completed call's score |
| RunProperties.ReplayBestAttained | sd_webui_bayesian_merger/optimiser.py:119-120 | the best is the starting best or the score of some completed call |
| RunProperties.RunPhases | sd_webui_bayesian_merger/optimiser.py:58-65 | from a fresh optimiser the `j`-th call runs iteration `j + 1`, tagged warmup iff `j + 1 <= init_points` |
| RunProperties.RunBestMonotone | sd_webui_bayesian_merger/optimiser.py:119-120 | `best_rolling_score` never decreases along a run |
| RunProperties.RunBestIsMaximum | sd_webui_bayesian_merger/optimiser.py:119-120 | `best_rolling_score` is the maximum of the starting best and every completed call's score |
| RunProperties.RunNewBestIff | sd_webui_bayesian_merger/optimiser.py:119-120 | call `j` is a new best iff it completes with a score above the starting best and strictly above every earlier completed score, so the first of tied scores stays |
| RunProperties.RunNonPositiveNeverBest | sd_webui_bayesian_merger/optimiser.py:26 | with the default start of `0.0`, a score `<= 0` is never a new best |
| RunProperties.CleanAfterCall | sd_webui_bayesian_merger/optimiser.py:79-125 | after a call that got past reading its parameters, whether it completed or raised `IndexError`, `_clean` is set iff that call found no new best |
| RunProperties.RemovesIffClean | sd_webui_bayesian_merger/optimiser.py:38-41 | a call that got past reading its parameters (completing or raising `IndexError` later) emits `RemovePrev` for its own iteration iff `_clean` was set before it |
| RunProperties.FirstIterationRemoves | sd_webui_bayesian_merger/optimiser.py:35-41 | from a fresh optimiser, iteration 1 removes the previous checkpoint whenever it gets past reading its parameters, since `_clean` starts set |
| RunProperties.RemovesUnlessPreviousBest | sd_webui_bayesian_merger/optimiser.py:38-43 | when iterations `n - 1` and `n` both got past reading their parameters, iteration `n` removes the previous checkpoint iff iteration `n - 1` found no new best |
| RunProperties.RunRemovesPrevious | sd_webui_bayesian_merger/optimiser.py:35-43 | for iterations that get past reading their parameters: iteration `n` removes the previous checkpoint iff iteration `n - 1` found no new best, and iteration 1 always does since `_clean` starts set |
| Finalisation.FinalEvents | sd_webui_bayesian_merger/optimiser.py:137-207 | `plot_and_save` makes 3 calls, plus one for the beta drawing in a two-axis mode and one for the final merge when `save_best`; it never removes, keeps, generates or scores |
| Finalisation.FinalMerge | sd_webui_bayesian_merger/optimiser.py:199-207 | a final merge happens iff `save_best`, is the last call, and is `merge(best weights, best=True)` |
| Finalisation.FinalDrawings | sd_webui_bayesian_merger/optimiser.py:150-197 | the first call is `convergence_plot(scores, minimise)`; the alpha UNet is drawn from `best_base_alpha` and the best alpha weights; a beta drawing is made iff the mode is two-axis, and it uses `best_base_beta` and the best beta weights |
| Finalisation.FinalLogReadsBack | sd_webui_bayesian_merger/optimiser.py:161-178 | the final `best.log` reads back to the best base values and weights, with a beta section iff the best base beta is truthy (holding the beta weights in a two-axis mode, one empty field otherwise) |
| Finalisation.FinalRepeatsBestIteration | sd_webui_bayesian_merger/optimiser.py:161-207 | for the weights of the iteration that found the best, `plot_and_save` writes the very `best.log` text that iteration wrote, and its final merge repeats that iteration's merge with `best=True` |
| Optimisers.Optimiser.constructor | sd_webui_bayesian_merger/optimiser.py:28-36 | `iteration = 0`, `_clean = True`, `best_rolling_score` as given (default `0.0`), `has_beta` iff the mode is `sum_twice` or `triple_sum`; nothing called yet |
| Optimisers.Optimiser.Cleanup | sd_webui_bayesian_merger/optimiser.py:38-43 | when `_clean`, calls `remove_previous_ckpt(iteration)` and leaves `_clean`; otherwise sets `_clean` and calls nothing |
| Optimisers.Optimiser.SdTargetFunction | sd_webui_bayesian_merger/optimiser.py:57-127 | the new fields, the calls appended to the trace and the value returned are those of `Step` on the old fields, and the fields stay those of the whole run so far |
| Optimisers.Optimiser.MergeAndSwitch | sd_webui_bayesian_merger/optimiser.py:77-81 | appends `CreateName`, `Merge(w, False)`, cleanup's removal when clean, and `SwitchModel`; `_clean` ends set |
| Optimisers.Optimiser.GenerateImages | sd_webui_bayesian_merger/optimiser.py:84-92 | the loop sends each payload in order; with a path per payload it returns the flattened batches and the path expansion; otherwise it stops after sending the first payload without a path |
| Optimisers.Optimiser.MergeGenerateScore | sd_webui_bayesian_merger/optimiser.py:77-127 | after the weights are read: the whole call list and the new fields for the `IndexError` and completed cases |
| Optimisers.Optimiser.ScoreAndRecord | sd_webui_bayesian_merger/optimiser.py:94-127 | scores the images, renders the weight strings into the iteration's `best.log` text and records a new best as `RecordBest` says; returns `avg_score` |
| Optimisers.Optimiser.RecordIfBest | sd_webui_bayesian_merger/optimiser.py:119-125 | a strictly higher score becomes `best_rolling_score`, writes `best.log`, keeps the checkpoint and clears `_clean`; otherwise nothing changes |
| Optimisers.Optimiser.PlotAndSave | sd_webui_bayesian_merger/optimiser.py:137-207 | appends the calls `FinalEvents` lists and changes no field |

## Left out

- The collaborators (`Generator`, `Merger`, `AestheticScorer`, `Prompter`, `draw_unet`, `convergence_plot`), which are HTTP, tensor, ML and plotting code. They appear only as events, and their answers are inputs of a call.
- `start_logging`, the Hydra output directory, file paths and file handles. These are I/O: `best.log` is modelled as the text written, and the plot file names are not modelled.
- `print` and `tqdm` output, including the phase banners. They have no effect on state; the phase tag is returned in the `Outcome` instead.
- Python `str` on floats, which is a library routine; it is the parameter `show`.
- `load_log`, which is `json.loads` on each line, a library call. A malformed line makes it raise, and that error is not modelled either.
- The abstract `optimise` and `postprocess`, which have no bodies.
- Floating-point semantics. Scores and weights are `real`, so NaN and rounding are not modelled.
- Exceptions raised inside collaborators. The model covers only the two raised by the cycle itself, `KeyError` and `IndexError`.
- Payload contents other than `batch_size`, which is the only field the core reads.
- A payload without a `batch_size` key. `sd_target_function` raises `KeyError` while building `gen_paths`, after that payload has been sent to the generator. The model gives every payload a `batch_size`, so this path is not modelled.
- `Merge(w, false)` assumes that `Merger.merge`'s `best` parameter defaults to `False`, because `sd_target_function` calls `merge` without it. The merger is not part of this model.
- PlotAndSave: requires beta weights in a two-axis mode, since `",".join(map(str, None))` would raise `TypeError` there; that error path is not modelled.
- RunRemovesPrevious: stated only for iterations where both it and the one before got past reading their parameters. When the earlier one raised `KeyError`, `_clean` is inherited from further back; `RemovesIffClean` and `StepRetention` cover that case in terms of `_clean`.
- `NUM_TOTAL_BLOCKS` is assumed to be 25 (12 input blocks, 1 middle block, 12 output blocks). It is imported from `sd_webui_bayesian_merger/merger.py`, which is not part of this model.
- `prompter.render_payloads()` and `scorer.average_score(...)` are not events. They only read, and `average_score` is external numerics, so their results are inputs of the call.
- `generator.switch_model` is recorded without its argument `merger.model_out_name`, which the merger computes internally.
- `draw_unet` is recorded without `model_a`, `model_b` and `figname`, and `convergence_plot` without `figname`. These are file names and labels derived from the configuration and the Hydra output directory.
- Images are opaque handles. The model does not check that the generator returns `batch_size * payload["batch_size"]` images per payload; `ImagesPairWithPaths` assumes it.
