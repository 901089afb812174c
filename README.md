# SNMNMF control layer in Dafny

This project models the exact control layer of `Snmnmf` in
`mf/methods/factorization/snmnmf.py`. That is the sparse network-regularised
multiple non-negative matrix factorization of V (s x m) and V1 (s x n) into a
shared basis W and the coefficient matrices H and H1. The floating-point matrix
arithmetic is kept abstract. What is modelled and proved is the logic around it:

- the stopping rule `is_satisfied`;
- the per-run iteration loop of `factorize`, with the caching of p_obj and c_obj
  at evaluation points;
- the multi-run driver: shape check, seeding, callback and tracking hooks, and
  best-run selection;
- the data-flow order of the multiplicative update;
- the objective call that also sets `err_avg`.

Modules:

- `Types` (types.dfy) holds the shared vocabulary. Matrices are opaque
  sequences of rows. A `Factors` triple holds (W, H, H1). `Oracles` holds the
  uninterpreted formulas:
  - `fW(W, H, H1)`, `fH(W', H, H1)` and `fH1(W', H, H1)` for the update;
  - `objective`, which yields the objective value together with `err_avg`;
  - `seed(data, rank, idx, run)` for the seeding collaborator.
- `Stopping` (stopping.dfy) holds `is_satisfied` as a decision over scalars. It
  also holds a separate rule table, tried in priority order, and a proof that
  the two agree.
- `Iteration` (iteration.dfy) is a pure semantics of one run. `Body` is one pass
  of the `while` loop, `Iterate` is k passes, and `StopsAt` is "the loop stops
  after exactly n updates". The lemmas cover the budget, monotonicity of the
  checked objectives, factors that follow the plain updates, and the lag of the
  checked objective when test_conv is set.
- `Selection` (selection.dfy) covers the keep-the-lowest-objective fold over the
  runs and the snapshot that `factorize` hands back.
- `Factorization` (snmnmf.dfy) holds the `Snmnmf` class. Its fields are W, H, H1,
  err_avg, n_iter and final_obj, plus a ghost log of calls to the external
  collaborators: seeding, error tracking, callback and factor tracking. Its
  imperative methods mirror the source:
  - `Objective`, `Update` and `SeedFactors`;
  - `Advance`, one loop body;
  - `Converge`, the `while` loop;
  - `RunOnce`, `Conclude` and `RunAndSelect`, one pass of the `for run` loop;
  - `RunAll`, the `for run` loop;
  - `Factorize`.

  Each of these is proved against the pure functions of `Iteration` and
  `Selection`.

Options that Python treats as falsy when unset (None or 0) are the value 0 here.
A `max_iter` of 0 therefore means "no iteration budget", and a `test_conv` of 0
means "evaluate at every iteration". The failure modes of `factorize` form the
`Error` datatype:

- `ShapeMismatch` is the `MFError` raised at line 77.
- `NoRuns` is the `UnboundLocalError` raised by `return mffit` when `n_run` is 0.
- `OutOfFuel` is the model's own bound for a loop that has no `max_iter` (see
  Left out).

## Model

| member | source | states |
|---|---|---|
| Stopping.IsSatisfied | mf/methods/factorization/snmnmf.py:111-134 | Off an evaluation point the loop continues whatever the scalars. At an evaluation point an err_avg below 1e-5 stops it before any other rule. At iteration 0 only err_avg decides: a set max_iter is at least 1, and the residual and rise rules need an earlier check. Continuing at an evaluation point holds exactly when: not converged, budget left, improvement at least min_residuals (when set), and no rise of the objective. |
| Stopping.FirstApplying | mf/methods/factorization/snmnmf.py:124-134 | The first-match-wins evaluation of a rule list: the rule found applies and no rule before it in the list does, and None means no rule of the list applies. |
| Stopping.IsSatisfiedFollowsPriority | mf/methods/factorization/snmnmf.py:124-134 | `is_satisfied` continues exactly when, in the priority order (non-evaluation point, convergence, budget, too small an improvement, rise), no rule applies or the non-evaluation rule decides. |
| Iteration.Body | mf/methods/factorization/snmnmf.py:88-94 | One loop body applies one update and counts it. Off an evaluation point p_obj, c_obj and err_avg are carried over unchanged. At one, p_obj takes the old c_obj, and c_obj and err_avg are those of the new factors. |
| Iteration.StopsAtBound | mf/methods/factorization/snmnmf.py:124-129 | With max_iter set, the check at StopBound (max_iter rounded up to a multiple of test_conv) stops the loop whatever the scalars are. |
| Iteration.Step | mf/methods/factorization/snmnmf.py:159-171 | The data-flow order of one update: the new W comes from the old W, H and H1; the new H and the new H1 both come from the new W and the OLD H and H1. |
| Iteration.Start | mf/methods/factorization/snmnmf.py:85 | A run enters its loop at iteration 0 with p_obj and c_obj both the objective of the seeded factors, and err_avg as that evaluation set it. |
| Iteration.Iterate | mf/methods/factorization/snmnmf.py:87-92 | The state after k loop bodies; its counter `iter` has grown by k. |
| Iteration.StopsAt | mf/methods/factorization/snmnmf.py:88 | The `while` loop stops after exactly n updates. A loop can only end at a check that is an evaluation point. |
| Iteration.StopDecidedByRule | mf/methods/factorization/snmnmf.py:124-134 | In a loop that stops after n updates, check j is decided by a stopping rule of the table (convergence, budget, too small an improvement, rise) exactly when j = n. |
| Iteration.IterateFollowsUpdates | mf/methods/factorization/snmnmf.py:88-92 | The objective caching never disturbs the factors: after k loop bodies the factors are those of k plain updates. |
| Iteration.StopIndexUnique | mf/methods/factorization/snmnmf.py:88 | A run stops at one iteration count only. |
| Iteration.StopsWithinBudget | mf/methods/factorization/snmnmf.py:88-92 | With max_iter set, a run applies at most StopBound updates. With test_conv unset as well, it applies at most max_iter. |
| Iteration.EvaluatedObjectiveIsCurrent | mf/methods/factorization/snmnmf.py:89-91 | With test_conv unset, every check sees the objective and err_avg of the current factors. |
| Iteration.PreviousObjective | mf/methods/factorization/snmnmf.py:89 | With test_conv unset, p_obj at check k is the c_obj of check k - 1. |
| Iteration.ContinuingCheckDoesNotRise | mf/methods/factorization/snmnmf.py:132-133 | With test_conv unset, a check after iteration 0 that continues sees an objective no larger than the previous check's. |
| Iteration.ObjectivesNonIncreasing | mf/methods/factorization/snmnmf.py:89-91 | With test_conv unset, the objectives seen by the continuing checks of a run never increase. |
| Iteration.RiseEndsRun | mf/methods/factorization/snmnmf.py:132-133 | With test_conv unset, a check whose objective rose above the previous one is the one that ends the run. |
| Iteration.LastEvaluated | mf/methods/factorization/snmnmf.py:89-92 | Names the number of updates after which the objective seen at check j was computed. It lies between 1 and j, and equals j when test_conv is unset. |
| Iteration.LastEvaluatedStep | mf/methods/factorization/snmnmf.py:89-92 | That number jumps to j after an evaluating body and stays put after a non-evaluating one. |
| Iteration.CheckedObjectiveLags | mf/methods/factorization/snmnmf.py:89-92 | At check j, c_obj and err_avg are the objective values of the factors after LastEvaluated(j) updates. With test_conv set they lag behind the current factors. |
| Selection.KeptIndex | mf/methods/factorization/snmnmf.py:86-107 | The run kept by the `c_obj <= best_obj or run == 0` fold has the least final objective, and every later run's objective is strictly larger: ties go to the later run. |
| Selection.KeptIndexUnique | mf/methods/factorization/snmnmf.py:103-107 | Being a minimum with only strictly larger objectives after it determines the kept run. |
| Selection.KeptIndexAppend | mf/methods/factorization/snmnmf.py:103-107 | A further run replaces the kept one exactly when its objective is at most the best so far. |
| Selection.KeptSnapshot | mf/methods/factorization/snmnmf.py:103-109 | The snapshot of the kept run: its final objective is one of the runs' objectives and at most every one of them. |
| Selection.KeptSnapshotIsLastMinimal | mf/methods/factorization/snmnmf.py:103-109 | The kept snapshot is the whole snapshot (factors, objective and n_iter) of a run whose objective is the least and after which every run has a strictly larger one. |
| Selection.ReturnedSnapshot | mf/methods/factorization/snmnmf.py:95-109 | What `return mffit` hands back as written: without a callback the kept snapshot; with one, the last run's factors and objective. In both cases n_iter is the kept run's. |
| Selection.ScriptedSelections | mf/methods/factorization/snmnmf.py:86-107 | With two runs: objectives 10.0 then 7.0 keep run 1, objectives 5.0 then 8.0 keep run 0, and equal objectives keep run 1. |
| Selection.CallbackReturnsLastRun | mf/methods/factorization/snmnmf.py:95-109 | With a callback and final objectives 5.0 then 8.0, `factorize` returns run 1's factors and objective 8.0 with run 0's n_iter, while the kept run has objective 5.0. |
| Selection.CallbackSnapshotBestOnlyWhenLastIsMinimal | mf/methods/factorization/snmnmf.py:95-109 | With a callback, the returned objective is the kept one exactly when the last run's objective is the minimum. |
| Factorization.SeedRun | mf/methods/factorization/snmnmf.py:80-84 | A run starts from W and H of seeding V with idx 0, and H1 the coefficients of seeding V1 with idx 1, whose basis is dropped. |
| Factorization.RetainedAppend | mf/methods/factorization/snmnmf.py:95-107 | One finished run moves mffit, best_obj, n_iter and final_obj from their state after the earlier runs to their state after one more, as lines 95-107 do. |
| Factorization.RetainedResult | mf/methods/factorization/snmnmf.py:103-109 | Once a run has finished, mffit is the returned snapshot (the kept run's when there is no callback). n_iter is the kept run's. final_obj is the kept run's objective, or the last run's when a callback overwrote it, and without a callback it is at most every run's objective. |
| Factorization.RunsWithinBudget | mf/methods/factorization/snmnmf.py:88-92 | With max_iter set, every run of `factorize` applies at most StopBound updates; with test_conv unset as well, at most max_iter. |
| Factorization.EventsAppend | mf/methods/factorization/snmnmf.py:79-101 | The collaborator calls of one more run follow those of the earlier runs. |
| Factorization.RunLog | mf/methods/factorization/snmnmf.py:80-101 | The calls one run makes, in order: two seedings (idx 0 on V, idx 1 on V1), one error record per loop body, then the callback and the factor record, extend the log of the earlier runs. |
| Factorization.ConcludeStep | mf/methods/factorization/snmnmf.py:95-107 | The end of a run, as the callback, tracking and selection leave it, preserves the description of the selection variables and of the log over the runs so far. |
| Factorization.Snmnmf.Objective | mf/methods/factorization/snmnmf.py:173-184 | Returns the objective oracle's value for the current factors and sets err_avg to the oracle's error measure, changing nothing else. |
| Factorization.Snmnmf.Update | mf/methods/factorization/snmnmf.py:156-171 | W is recomputed from the old H and H1. The new H1 and the new H both come from the new W and the OLD H and H1. The new factors are one `Step` of the old. |
| Factorization.Snmnmf.SeedFactors | mf/methods/factorization/snmnmf.py:80-84 | W and H come from seeding V with idx 0, and H1 from seeding V1 with idx 1, whose basis is dropped. Both seedings are logged in that order. |
| Factorization.Snmnmf.Advance | mf/methods/factorization/snmnmf.py:89-92 | The fields and locals after one loop body (without its tracking call) are `Body` of those before. |
| Factorization.Snmnmf.Converge | mf/methods/factorization/snmnmf.py:85-94 | The state at loop exit is `Iterate` of the entry state for the number of updates applied. Every earlier check continued, and the last one stops unless the fuel ran out. The fuel runs out only when max_iter is unset. One error record is logged per body when tracking is on. |
| Factorization.Snmnmf.RunOnce | mf/methods/factorization/snmnmf.py:80-94 | A run from seeding to loop exit leaves an outcome satisfying RunSpec: the pure loop from the seeded factors stops after exactly the reported number of updates, with the reported factors, c_obj and err_avg. |
| Factorization.Snmnmf.Conclude | mf/methods/factorization/snmnmf.py:95-107 | With a callback, final_obj is set and a snapshot taken with the old n_iter. The factor record is logged when tracking. The run is kept when it is run 0 or its c_obj is at most best_obj, and then best_obj, n_iter, final_obj and the snapshot are the run's. Otherwise they are unchanged, except that the callback's snapshot and final_obj stay. |
| Factorization.Snmnmf.RunAndSelect | mf/methods/factorization/snmnmf.py:79-107 | One pass of the `for run` loop extends the run outcomes by one satisfying RunSpec, keeps the selection invariant and extends the log by that run's calls. |
| Factorization.Snmnmf.RunAll | mf/methods/factorization/snmnmf.py:79-107 | After the `for run` loop the outcomes of all n_run runs satisfy RunSpec. The selection variables and the log are those given by the outcomes. The factors and err_avg are the last run's. Nothing changes when n_run is 0. |
| Factorization.Snmnmf.Factorize | mf/methods/factorization/snmnmf.py:70-109 | Mismatched row counts fail before any seeding, with nothing changed. n_run = 0 fails at `return mffit`. With max_iter set it succeeds. On success every run satisfies RunSpec, and the result is the snapshot as written (the kept run's without a callback). Without a callback final_obj is the least final objective; with max_iter set and test_conv unset, n_iter is at most max_iter. Factors and err_avg are the last run's; the log lists every run's calls in order. |

## Left out

- The update formulas (lines 159-169) and the objective formulas (lines 175-184) are uninterpreted oracles. Matrix products, element-wise division, traces and the `mf.utils.linalg` helpers are not modelled, so nonnegativity, convergence and floating-point behaviour (NaN, rounding) are not claimed. Scalars are exact `real`s, not floats.
- Seeding (`self.seed.initialize`) is an oracle of the data matrix, rank, `idx` option and run index. The `options` dictionary's `update` and `pop` of `idx` appear only as that `idx` argument.
- The tracker and the callback are entries of a ghost log. What they do with the values is not modelled.
- `mf_fit.Mf_fit(self)` is modelled as a copy of (W, H, H1, final_obj, n_iter). If the library object refers to the model instead of copying it, later changes would show through earlier snapshots, and this model does not capture that aliasing.
- `set_params` (lines 136-154) is not modelled: option defaults, random sparse A and B, and sparse/dense conversion. That includes the tracker's creation condition, and what happens when `track_factor` is set with `n_run == 1` and no tracker exists.
- `__init__`, `__str__` and `__repr__` (lines 64-68, 186-190) are not modelled beyond a constructor that stores V, V1, the options and the oracles. `Nmf_mm.__init__` is not part of this model.
- Negative `max_iter` or `test_conv` values are not modelled: both are `nat`, and 0 stands for "unset". `min_residuals` is a `real` with 0.0 meaning unset.
- Factorization.Snmnmf.Factorize: when max_iter is unset, the source loop need not terminate. The model stops a run after `fuel` updates and returns `OutOfFuel`. Termination without max_iter, and behaviour beyond the fuel, are not modelled.
- Factorization.Snmnmf.Converge: the fuel bound of the same loop ends it with `exhausted` set, which the source never does.

## Findings

| source | as written | input that shows it | evidently intended | confidence | as-written member | corrected member |
|---|---|---|---|---|---|---|
| mf/methods/factorization/snmnmf.py:95-109 | With a callback configured, every run rebinds the local `mffit` and sets `final_obj` to its own `c_obj` before the selection test. A run that is not kept still leaves its snapshot in `mffit`, and `return mffit` hands back the last run's factors and objective, paired with the kept run's n_iter. | Two runs, a callback, final objectives 5.0 then 8.0: the returned fit has objective 8.0, while the kept run (run 0) has 5.0. | The snapshot of the run with the lowest objective (the last of equal ones), as the comment at line 102 says and as the run without a callback returns. | high, not executed | Selection.CallbackReturnsLastRun | Selection.KeptSnapshot |

`Factorization.Snmnmf.Factorize` models the code as written: its result is
`Selection.ReturnedSnapshot`. Its contract connects that result to
`Selection.KeptSnapshot` whenever no callback is configured.
`Selection.KeptSnapshotIsLastMinimal` states the whole corrected snapshot, factors
and n_iter included. With a callback,
`Selection.CallbackSnapshotBestOnlyWhenLastIsMinimal` states exactly when the two
agree.
