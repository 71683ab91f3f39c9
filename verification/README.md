# CatBoost eval-metrics: approx accumulation and pass selection, in Dafny

This project models two pieces of CatBoost's sequential logic and proves properties of them.

1. **Approx accumulation** (`catboost/libs/algo/approx_updater_helpers.h`). A tree's leaf delta is folded into a running prediction, the *approx*. Losses that store exponentiated approxes multiply the delta in. All other losses add it. The neutral approx is 1 or 0 to match. The same header holds the accumulation loops `CalcPairwiseWeights`, `SumLeafWeights` and `AddElementwise`, the per-dimension vector `UpdateApprox`, `ApplyLearningRate` and `ExpApproxIf`.
2. **The eval-metrics mode** (`catboost/app/mode_eval_metrics.cpp`). This covers:
   - splitting the comma-separated metric list and rejecting an empty one;
   - defaulting `EndIteration` and `TmpDir`;
   - the guard against a model with categorical features but no column description;
   - target preprocessing;
   - choosing the dataset passes for additive metrics and for non-additive metrics (calc-on-parts or calc-on-whole).

Modules:

- `RealSums` (`real_sums.dfy`): sums and products of `seq<real>`.
- `ApproxUpdaterHelpers` (`approx_updater_helpers.dfy`): the header's rules and loops.
- `MetricsDescription` (`metrics_description.dfy`): the metric-list split and `CreateMetrics`.
- `ModeEvalMetrics` (`mode_eval_metrics.dfy`): option defaulting, preprocessing and the passes.

Numbers are `real`. `double`/`float` rounding is not modelled. Collaborators whose code is not part of this model are function parameters or abstract state:

- `fast_exp` and `FastLogf` become the parameters `fastExp` and `fastLog`.
- `CreateMetricsFromDescription` returns either the metrics or the unrecognised identifier.
- `PrepareTargetCompressed` is the parameter `compress`.
- The model-dependent iteration count of the plot calcer is the parameter `iterationsCount`.
- The block reader is the sequence of blocks it delivers. Every pass delivers the same blocks.

The mode's run is recorded as a trace of the calls it makes: dataset passes, calcer calls, the calc-on-whole computation and `SaveResult`. `Summarize` condenses a trace into:

- the blocks fed in each phase, in order;
- the datasets handed to calc-on-whole;
- how often the dataset was streamed for each purpose.

`EvaluatePasses` pins the trace itself, in order, to the schedule `PassTrace`; `PassTraceSummary` states the orchestration guarantees over that schedule's summary.

Two behaviours of the code are worth stating plainly, because the model follows them exactly:

- Calc-on-whole re-reads the dataset whenever the retained list is empty (`mode_eval_metrics.cpp:174`), not whenever no additive pass ran. With additive and non-additive metrics present and calc-on-parts off, an empty dataset is therefore streamed twice: once by the additive pass and once by the re-read. With calc-on-parts on, it is streamed once by the additive pass and once per needed calc-on-parts pass. `PassTraceSummary` states the single-pass guarantee of the calc-on-whole path for a non-empty dataset only.
- `mode_eval_metrics.cpp` does not check the iteration bounds itself. It only replaces an `EndIteration` of 0 by the tree count (`mode_eval_metrics.cpp:125-127`) and hands `FirstIteration`, `EndIteration` and `Step` to `CreateMetricCalcer`; whatever that constructor checks is not part of this model. The tree count is a `size_t` stored into a `ui32` field, so `ApplyDefaults` truncates it modulo 2^32.

## Model

| member | source | states |
|---|---|---|
| ApproxUpdaterHelpers.NeutralApprox | catboost/libs/algo/approx_updater_helpers.h:25-28 | the neutral approx is a two-sided identity of the combination rule, for both the multiplicative and the additive rule |
| ApproxUpdaterHelpers.GetNeutralApprox | catboost/libs/algo/approx_updater_helpers.h:35-41 | the runtime overload agrees with the compile-time instance for both flag values, so updating its result with any delta gives that delta |
| ApproxUpdaterHelpers.NeutralApproxUnique | catboost/libs/algo/approx_updater_helpers.h:20-28 | any value that leaves every delta unchanged under the rule is the neutral approx |
| ApproxUpdaterHelpers.NeutralThenScaledDelta | catboost/libs/algo/approx_updater_helpers.h:30-41 | updating the neutral approx with an `ApplyLearningRate`-scaled delta gives that scaled delta, for either rule |
| ApproxUpdaterHelpers.ScaledAdditiveFold | catboost/libs/algo/approx_updater_helpers.h:20-33 | additive rule: folding deltas that `ApplyLearningRate` scaled one by one adds the learning rate times their total |
| ApproxUpdaterHelpers.FoldApproxSplit | catboost/libs/algo/approx_updater_helpers.h:20-23 | folding trees [0,k) and then [k,m) into an approx equals folding [0,m) directly, for either rule |
| ApproxUpdaterHelpers.FoldApproxClosedForm | catboost/libs/algo/approx_updater_helpers.h:20-23 | a fold equals the start plus the sum of the deltas (additive), or the start times their product (multiplicative) |
| ApproxUpdaterHelpers.FoldApproxOrderIndependent | catboost/libs/algo/approx_updater_helpers.h:20-23 | two groups of trees give the same approx whichever group is folded first |
| ApproxUpdaterHelpers.FoldApproxFromNeutral | catboost/libs/algo/approx_updater_helpers.h:20-28 | folding from any start equals combining that start with the fold from the neutral approx |
| ApproxUpdaterHelpers.IsStoreExpApprox | catboost/libs/algo/approx_updater_helpers.h:56-68 | true exactly for Logloss, LogLinQuantile, Poisson, CrossEntropy, PairLogit, PairLogitPairwise, YetiRank and YetiRankPairwise; the matching neutral approx is 1 for those and 0 for every other loss |
| ApproxUpdaterHelpers.ExpApproxIf | catboost/libs/algo/approx_updater_helpers.h:43-47 | the length is kept; without the flag the approx is unchanged; with it, every element is replaced by its exponent |
| ApproxUpdaterHelpers.UpdateApproxExp | catboost/libs/algo/approx_updater_helpers.h:20-23 | `UpdateApprox`'s multiplicative rule on exponentiated values is its additive rule seen through any function that turns sums into products |
| ApproxUpdaterHelpers.FoldApproxExp | catboost/libs/algo/approx_updater_helpers.h:43-47 | storing exponentiated approxes loses nothing: folding `ExpApproxIf`-exponentiated deltas multiplicatively into an exponentiated start gives the exponential of the additive fold |
| ApproxUpdaterHelpers.ExpApproxIfMulti | catboost/libs/algo/approx_updater_helpers.h:49-53 | every dimension keeps its length; without the flag the multi-dimensional approx is unchanged, and with it every element is exponentiated |
| ApproxUpdaterHelpers.UpdateApproxDims | catboost/libs/algo/approx_updater_helpers.h:83-98 | needs as many delta dimensions as approx dimensions; keeps the dimension count and each dimension's length; every index of every dimension gets the update function applied exactly once, to its original value |
| ApproxUpdaterHelpers.AddElementwise | catboost/libs/algo/approx_updater_helpers.h:137-143 | needs equal sizes; keeps the length; each element becomes its old value plus the matching value |
| RealSums.SumPointwise | catboost/libs/algo/approx_updater_helpers.h:137-143 | an element-wise sum of two equally long vectors has as total the sum of their totals, so AddElementwise conserves the total weight |
| ApproxUpdaterHelpers.AddElementwiseNested | catboost/libs/algo/approx_updater_helpers.h:129-135 | the generic overload on vectors of vectors: shapes are kept and every inner element is increased by the matching value |
| ApproxUpdaterHelpers.SumLeafWeights | catboost/libs/algo/approx_updater_helpers.h:117-127 | when every permuted document maps to a leaf below `leafCount`: the result has `leafCount` entries, each the total weight of the documents in that leaf, and the entries add up to the sum of `learnWeights` |
| ApproxUpdaterHelpers.AddPair | catboost/libs/algo/approx_updater_helpers.h:76-77 | one pair adds its weight at both of its ends and nowhere else, so the total grows by twice the weight |
| ApproxUpdaterHelpers.AddCompetitors | catboost/libs/algo/approx_updater_helpers.h:75-78 | the competitor loop of one document adds, at every position, the weight of the pairs ending there; the total grows by twice the competitors' weight |
| ApproxUpdaterHelpers.AddQuery | catboost/libs/algo/approx_updater_helpers.h:74-79 | the document loop of one query adds, at every position, the weight of the query's pairs ending there; the total grows by twice the query's pair weight |
| ApproxUpdaterHelpers.CalcPairwiseWeights | catboost/libs/algo/approx_updater_helpers.h:70-81 | with in-range indices: the length is kept; the old contents are discarded; every position holds the weight of the pairs of queries [0, queriesCount) ending there; the total is twice their competitor weight; positions no pair touches are 0 |
| ApproxUpdaterHelpers.UntouchedQueriesWeight | catboost/libs/algo/approx_updater_helpers.h:70-81 | a position that no pair of the queries points at receives no weight |
| MetricsDescription.SplitFrom | catboost/app/mode_eval_metrics.cpp:80-83 | scanning with a partial token yields non-empty, comma-free tokens that spell the partial token followed by the input with its commas removed |
| MetricsDescription.SplitSkipEmpty | catboost/app/mode_eval_metrics.cpp:80-83 | the tokens are non-empty and comma-free, and together they spell the description with its commas removed, in source order |
| MetricsDescription.SplitJoin | catboost/app/mode_eval_metrics.cpp:80-83 | splitting non-empty, comma-free tokens joined by commas gives back exactly those tokens |
| MetricsDescription.SplitFromDoubledSeparator | catboost/app/mode_eval_metrics.cpp:81 | a doubled comma anywhere in the description splits exactly like a single comma, so an empty token between two commas is skipped |
| MetricsDescription.SplitSkipsLeadingSeparator | catboost/app/mode_eval_metrics.cpp:81 | a leading comma is skipped: the description splits as it would without it |
| MetricsDescription.SplitFromTrailingSeparator | catboost/app/mode_eval_metrics.cpp:81 | a trailing comma only closes the token being read, so it splits like the end of the input, whatever has been read so far |
| MetricsDescription.SplitSkipsTrailingSeparator | catboost/app/mode_eval_metrics.cpp:81 | a trailing comma is skipped: the description splits as it would without it |
| MetricsDescription.SplitTwoMetrics | catboost/app/mode_eval_metrics.cpp:80-83 | "Logloss,AUC" gives exactly ["Logloss", "AUC"] |
| MetricsDescription.SplitSkipsDoubledSeparator | catboost/app/mode_eval_metrics.cpp:80-83 | "Logloss,,AUC" gives exactly ["Logloss", "AUC"] |
| MetricsDescription.SplitEmptyIff | catboost/app/mode_eval_metrics.cpp:80-84 | the token list is empty exactly when the description is empty or consists only of commas |
| MetricsDescription.CreateMetrics | catboost/app/mode_eval_metrics.cpp:76-88 | fails with the no-metric configuration error exactly when the description is empty or only commas; otherwise the result is exactly what metric construction makes of the tokens: its metrics, or the unknown-metric error for the identifier it rejects |
| ModeEvalMetrics.ApplyDefaults | catboost/app/mode_eval_metrics.cpp:125-130 | only `EndIteration` and `TmpDir` can change; a zero `EndIteration` becomes the tree count modulo 2^32 and a non-zero one is kept; `TmpDir` "-" becomes the generated name and any other value is kept |
| ModeEvalMetrics.ApplyDefaultsIdempotent | catboost/app/mode_eval_metrics.cpp:125-130 | defaulting again with the same tree count and generated name changes nothing |
| ModeEvalMetrics.PreprocessTarget | catboost/app/mode_eval_metrics.cpp:56-60 | targets are compressed only when the label converter is initialized, and otherwise left unchanged |
| ModeEvalMetrics.StreamDataset | catboost/app/mode_eval_metrics.cpp:62-74 | one pass preprocesses every block in stream order; when asked, it hands each block to the calcer and keeps every block, in the same order |
| ModeEvalMetrics.AdditivePass | catboost/app/mode_eval_metrics.cpp:151-161 | runs only when an additive metric exists, then feeds every preprocessed block and finishes once; blocks are kept, in stream order, only when a non-additive metric exists and calc-on-parts is off |
| ModeEvalMetrics.CalcOnParts | catboost/app/mode_eval_metrics.cpp:163-171 | streams the dataset once per needed pass until every iteration is processed; the loop terminates with the processed-iterations counter exactly at the iteration count (or unchanged when nothing was left) and leaves the calcer otherwise unchanged |
| ModeEvalMetrics.PassesNeededStep | catboost/app/mode_eval_metrics.cpp:164-170 | each calc-on-parts pass reduces the number of passes still needed by exactly one |
| ModeEvalMetrics.CalcOnWhole | catboost/app/mode_eval_metrics.cpp:173-178 | the dataset is read again only when nothing was retained, and the computation receives the retained blocks or the freshly read ones |
| ModeEvalMetrics.EvaluatePasses | catboost/app/mode_eval_metrics.cpp:150-179 | the calls are exactly `PassTrace`, in order: the additive pass (feed every preprocessed block, then finish) iff an additive metric exists, then either the calc-on-parts passes or calc-on-whole, then SaveResult; blocks are retained iff both kinds exist and calc-on-parts is off; after calc-on-parts every iteration is processed and nothing else about the calcer changed; on every other path the calcer is returned unchanged |
| ModeEvalMetrics.PassTraceSummary | catboost/app/mode_eval_metrics.cpp:150-179 | over that schedule: the additive pass runs once iff an additive metric exists; calc-on-whole runs once, on the whole preprocessed dataset in stream order, iff a non-additive metric exists and calc-on-parts is off; calc-on-parts passes run only when selected and as many as are needed to process every iteration, each feeding the whole dataset; the two strategies never both run; the calc-on-whole dataset is re-read iff nothing was retained, so a non-empty dataset is streamed once on that path; SaveResult comes once |
| ModeEvalMetrics.RunPasses | catboost/app/mode_eval_metrics.cpp:137-179 | a fresh calcer for the created metrics, with no iteration processed, runs exactly the pass schedule |
| ModeEvalMetrics.RunEvalMetrics | catboost/app/mode_eval_metrics.cpp:120-179 | the run fails with the categorical-feature error iff the model uses categorical features and no column description is set; past that guard it succeeds iff metric creation on the defaulted description succeeds, and otherwise fails with creation's error (the no-metric error iff the description is only commas); on success the options are the defaulted ones, the metrics are exactly the created ones, the trace is the pass schedule of a fresh calcer for them, and the additive and calc-on-whole guarantees hold |

## Left out

- `UpdateAvrgApprox` and `NormalizeLeafValues`: only their declarations are in the header; their bodies are not part of this model.
- `ApplyLearningRate` and `ExpApproxIf`: the exponentiating branch of `ApplyLearningRate` calls `fast_exp`/`FastLogf`, and `ExpApproxIf` calls `FastExpInplace`. These are approximate floating-point routines and become uninterpreted parameters. So nothing is proved about those branches' numeric results beyond their shape, except through `FoldApproxExp`, which assumes an exact exponential.
- `UpdateApproxDims`: `ParallelFor` and the `TLocalExecutor` thread pool are replaced by a sequential loop. The update function is modelled as computing one index's new value from the dimension's delta, that index's old value and the index. This is the independence the parallel loop relies on. An update function that reads other indices of the approx is not covered.
- `AddElementwiseNested`: the generic `AddElementwise` is modelled only at the vector-of-double-vectors instantiation.
- The `ELossFunction` enumeration's own definition is not part of this model. `LossFunction` lists a representative set of its values, including all eight multiplicative ones.
- `TQueryInfo` fields other than `Begin` and `Competitors`, and a competitor's sample weight, are not read by `CalcPairwiseWeights` and are not modelled.
- Command-line parsing (`NLastGetopt`), `ReadModel`, `GetModelClassNames`, `BuildLabelsHelper` and the executor's thread count are I/O or foreign calls. Their results are parameters.
- `ReadAndProceedPoolInBlocks` is modelled by the sequence of blocks it delivers, with `ReadBlockSize` and file access left out.
- `TTempDir` creation is modelled by the generated name being a parameter.
- `SaveResult`/`ClearTempFiles` appear only as the final `SaveResult` call in the trace. Result files, the `saveStats` flag and temporary files are not modelled.
- Logging and verbosity are not modelled.
- `TMetricsPlotCalcer`'s internals are not part of this model. These include applying trees, metric statistics, calc-on-whole computation and the checkpoint count for first/end/step. The calcer is an abstract state: which metric kinds exist, the iteration count, and a processed-iterations counter.
- `PlotCalcer.FinishNonAdditivePass`: one calc-on-parts pass is assumed to advance the processed-iterations counter by the `processedIterationsStep` of 50 that the mode passes in, capped at the iteration count. This is what makes the loop at lines 164-170 terminate in the model. The calcer's real bookkeeping is not part of this model.
- `RunEvalMetrics`: failures raised inside collaborators are not modelled. `ReadModel`, `CreateMetricCalcer`'s own parameter checks, the block reader and `SaveResult` can all fail in the program; in the model they cannot, so success is characterized only relative to the categorical-feature guard and `CreateMetrics`.
- `HasAdditiveMetric` and `HasNonAdditiveMetric` are taken to mean "some created metric is (non-)additive". The calcer's own implementation is not part of this model.
- `ProceedDataSetForAdditiveMetrics` also receives whether the block has query ids. That flag is a function of the block and is not recorded separately in the trace.
- `CreateMetricsFromDescription` and the metrics themselves are an abstract collaborator. That includes which metrics are additive, such as Logloss being additive and AUC not.
