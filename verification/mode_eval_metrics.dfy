/** The orchestration of the eval-metrics mode (catboost/app/mode_eval_metrics.cpp):
    option defaulting, the categorical-feature guard, target preprocessing and
    the choice of dataset passes for additive and non-additive metrics.
    The plot calcer, the block reader, the label converter's compression and
    metric construction are abstract collaborators; the run is recorded as a
    trace of the calls the mode makes on them. */
module ModeEvalMetrics {
  import opened MetricsDescription

  /** Unsigned 32-bit option values (ui32 in the source). */
  type Ui32 = x: int | 0 <= x < 0x1_0000_0000

  const Ui32Modulus: nat := 0x1_0000_0000

  /** The TmpDir value that asks for a generated directory. */
  const GenerateTmpDir: string := "-"

  /** The processedIterationsStep the mode passes to the plot calcer. */
  const ProcessedIterationsStep: nat := 50

  /** TModeEvalMetricsParams. */
  datatype EvalMetricsParams = EvalMetricsParams(
    step: Ui32,
    firstIteration: Ui32,
    endIteration: Ui32,
    readBlockSize: int,
    metricsDescription: string,
    resultDirectory: string,
    tmpDir: string)

  /** What the mode reads from the loaded model. */
  datatype ModelInfo = ModelInfo(treeCount: nat, approxDimension: int, usedCatFeaturesCount: nat)

  // ---------------------------------------------------------------------
  // Option defaulting
  // ---------------------------------------------------------------------

  /** An unset (zero) EndIteration becomes the model's tree count, stored
      into the ui32 field (so truncated modulo 2^32), and TmpDir "-" becomes
      the name of a generated temporary directory. */
  function ApplyDefaults(params: EvalMetricsParams, treeCount: nat, generatedTmpDir: string)
    : (r: EvalMetricsParams)
    ensures r.(endIteration := params.endIteration, tmpDir := params.tmpDir) == params
    ensures params.endIteration != 0 ==> r.endIteration == params.endIteration
    ensures params.endIteration == 0 ==> r.endIteration == treeCount % Ui32Modulus
    ensures params.endIteration == 0 && treeCount < Ui32Modulus ==> r.endIteration == treeCount
    ensures params.tmpDir != GenerateTmpDir ==> r.tmpDir == params.tmpDir
    ensures params.tmpDir == GenerateTmpDir ==> r.tmpDir == generatedTmpDir
  {
    var endIteration: Ui32 := if params.endIteration == 0 then treeCount % Ui32Modulus else params.endIteration;
    var tmpDir := if params.tmpDir == GenerateTmpDir then generatedTmpDir else params.tmpDir;
    params.(endIteration := endIteration, tmpDir := tmpDir)
  }

  /** Defaulting twice with the same model and generated name changes nothing more. */
  lemma ApplyDefaultsIdempotent(params: EvalMetricsParams, treeCount: nat, generatedTmpDir: string)
    ensures ApplyDefaults(ApplyDefaults(params, treeCount, generatedTmpDir), treeCount, generatedTmpDir)
            == ApplyDefaults(params, treeCount, generatedTmpDir)
  {
  }

  // ---------------------------------------------------------------------
  // Dataset blocks and target preprocessing
  // ---------------------------------------------------------------------

  /** A dataset block (TPool) as far as the orchestration looks into it. */
  datatype Pool = Pool(targets: seq<real>, queryIds: seq<nat>)

  /** The label converter: only whether it was initialized matters here. */
  datatype LabelConverter = LabelConverter(initialized: bool)

  /** PreprocessTarget: compress the targets only when the label converter is
      initialized; `compress` stands for PrepareTargetCompressed. */
  function PreprocessTarget(labelConverter: LabelConverter, targets: seq<real>, compress: seq<real> -> seq<real>)
    : (r: seq<real>)
    ensures !labelConverter.initialized ==> r == targets
    ensures labelConverter.initialized ==> r == compress(targets)
  {
    if labelConverter.initialized then compress(targets) else targets
  }

  /** A block as a callback sees it after target preprocessing. */
  function PreprocessPool(labelConverter: LabelConverter, pool: Pool, compress: seq<real> -> seq<real>): Pool {
    pool.(targets := PreprocessTarget(labelConverter, pool.targets, compress))
  }

  /** Every block of the dataset after preprocessing, in stream order. */
  function Preprocessed(labelConverter: LabelConverter, compress: seq<real> -> seq<real>, blocks: seq<Pool>)
    : (r: seq<Pool>)
    ensures |r| == |blocks|
  {
    seq(|blocks|, i requires 0 <= i < |blocks| => PreprocessPool(labelConverter, blocks[i], compress))
  }

  // ---------------------------------------------------------------------
  // The plot calcer, abstractly
  // ---------------------------------------------------------------------

  /** The state of TMetricsPlotCalcer the mode depends on. Its
      processed-iterations counter stands in for the calcer's own bookkeeping:
      one calc-on-parts pass advances it by ProcessedIterationsStep, capped at
      the number of iterations to evaluate. */
  datatype PlotCalcer = PlotCalcer(
    hasAdditiveMetric: bool,
    hasNonAdditiveMetric: bool,
    iterationsCount: nat,
    processedIterations: nat)
  {
    predicate AreAllIterationsProcessed() {
      processedIterations >= iterationsCount
    }

    /** FinishProceedDataSetForNonAdditiveMetrics. */
    function FinishNonAdditivePass(): (r: PlotCalcer)
      requires !AreAllIterationsProcessed()
      ensures r.(processedIterations := processedIterations) == this
      ensures processedIterations < r.processedIterations <= iterationsCount
    {
      this.(processedIterations :=
        if processedIterations + ProcessedIterationsStep < iterationsCount
        then processedIterations + ProcessedIterationsStep
        else iterationsCount)
    }
  }

  /** Number of calc-on-parts passes needed to process every iteration. */
  function PassesNeeded(calcer: PlotCalcer): nat {
    if calcer.AreAllIterationsProcessed() then 0
    else (calcer.iterationsCount - calcer.processedIterations + ProcessedIterationsStep - 1) / ProcessedIterationsStep
  }

  lemma PassesNeededStep(calcer: PlotCalcer)
    requires !calcer.AreAllIterationsProcessed()
    ensures PassesNeeded(calcer.FinishNonAdditivePass()) + 1 == PassesNeeded(calcer)
  {
  }

  predicate HasAdditiveMetric(metrics: seq<Metric>) {
    exists i :: 0 <= i < |metrics| && metrics[i].isAdditive
  }

  predicate HasNonAdditiveMetric(metrics: seq<Metric>) {
    exists i :: 0 <= i < |metrics| && !metrics[i].isAdditive
  }

  // ---------------------------------------------------------------------
  // Traces of collaborator calls
  // ---------------------------------------------------------------------

  /** Why the dataset is being streamed. */
  datatype Purpose = ForAdditive | ForParts | ForWhole

  datatype Phase = Additive | NonAdditive

  /** One call the mode makes on its collaborators. `Proceed(Additive, b)`
      also passes whether `b` has query ids, which is a function of `b`. */
  datatype Call =
    | StreamPass(purpose: Purpose)
    | Proceed(phase: Phase, block: Pool)
    | Finish(phase: Phase)
    | ComputeNonAdditive(parts: seq<Pool>)
    | SaveResult

  function ProceedAll(phase: Phase, pools: seq<Pool>): (r: seq<Call>)
    ensures |r| == |pools|
  {
    seq(|pools|, i requires 0 <= i < |pools| => Proceed(phase, pools[i]))
  }

  /** What a trace did, call kind by call kind: the blocks handed to the
      calcer in each phase (in call order), the datasets handed to each
      calc-on-whole computation, and how often the dataset was streamed for
      each purpose, each phase was finished and the result was saved. */
  datatype Summary = Summary(
    additiveFed: seq<Pool>,
    nonAdditiveFed: seq<Pool>,
    wholeComputations: seq<seq<Pool>>,
    additivePasses: nat,
    partsPasses: nat,
    wholePasses: nat,
    additiveFinishes: nat,
    nonAdditiveFinishes: nat,
    saves: nat)
  {
    /** Number of times the dataset was streamed. */
    function PassCount(): nat {
      additivePasses + partsPasses + wholePasses
    }
  }

  const NoCalls: Summary := Summary([], [], [], 0, 0, 0, 0, 0, 0)

  /** The summary of one trace followed by another. */
  function Combine(a: Summary, b: Summary): Summary {
    Summary(a.additiveFed + b.additiveFed, a.nonAdditiveFed + b.nonAdditiveFed,
            a.wholeComputations + b.wholeComputations,
            a.additivePasses + b.additivePasses, a.partsPasses + b.partsPasses, a.wholePasses + b.wholePasses,
            a.additiveFinishes + b.additiveFinishes, a.nonAdditiveFinishes + b.nonAdditiveFinishes,
            a.saves + b.saves)
  }

  function CallSummary(call: Call): Summary {
    match call
    case StreamPass(ForAdditive) => NoCalls.(additivePasses := 1)
    case StreamPass(ForParts) => NoCalls.(partsPasses := 1)
    case StreamPass(ForWhole) => NoCalls.(wholePasses := 1)
    case Proceed(Additive, block) => NoCalls.(additiveFed := [block])
    case Proceed(NonAdditive, block) => NoCalls.(nonAdditiveFed := [block])
    case Finish(Additive) => NoCalls.(additiveFinishes := 1)
    case Finish(NonAdditive) => NoCalls.(nonAdditiveFinishes := 1)
    case ComputeNonAdditive(parts) => NoCalls.(wholeComputations := [parts])
    case SaveResult => NoCalls.(saves := 1)
  }

  function Summarize(trace: seq<Call>): Summary
    decreases |trace|
  {
    if |trace| == 0 then NoCalls else Combine(CallSummary(trace[0]), Summarize(trace[1..]))
  }

  /** `n` copies of `s`, one after another. */
  function Repeat<T>(s: seq<T>, n: nat): seq<T>
    decreases n
  {
    if n == 0 then [] else Repeat(s, n - 1) + s
  }

  /** The calls of the additive pass over the preprocessed dataset. */
  function AdditivePassCalls(dataset: seq<Pool>): seq<Call> {
    [StreamPass(ForAdditive)] + ProceedAll(Additive, dataset) + [Finish(Additive)]
  }

  /** The calls of one calc-on-parts pass over the preprocessed dataset. */
  function PartsPassCalls(dataset: seq<Pool>): seq<Call> {
    [StreamPass(ForParts)] + ProceedAll(NonAdditive, dataset) + [Finish(NonAdditive)]
  }

  lemma CombineAssociative(a: Summary, b: Summary, c: Summary)
    ensures Combine(a, Combine(b, c)) == Combine(Combine(a, b), c)
  {
    assert a.additiveFed + (b.additiveFed + c.additiveFed) == (a.additiveFed + b.additiveFed) + c.additiveFed;
    assert a.nonAdditiveFed + (b.nonAdditiveFed + c.nonAdditiveFed)
           == (a.nonAdditiveFed + b.nonAdditiveFed) + c.nonAdditiveFed;
    assert a.wholeComputations + (b.wholeComputations + c.wholeComputations)
           == (a.wholeComputations + b.wholeComputations) + c.wholeComputations;
  }

  lemma CombineNoCalls(a: Summary)
    ensures Combine(NoCalls, a) == a && Combine(a, NoCalls) == a
  {
    assert [] + a.additiveFed == a.additiveFed == a.additiveFed + [];
    assert [] + a.nonAdditiveFed == a.nonAdditiveFed == a.nonAdditiveFed + [];
    assert [] + a.wholeComputations == a.wholeComputations == a.wholeComputations + [];
  }

  lemma {:induction false} SummarizeAppend(a: seq<Call>, b: seq<Call>)
    ensures Summarize(a + b) == Combine(Summarize(a), Summarize(b))
    decreases |a|
  {
    if |a| == 0 {
      assert a + b == b;
      CombineNoCalls(Summarize(b));
    } else {
      assert (a + b)[0] == a[0];
      assert (a + b)[1..] == a[1..] + b;
      SummarizeAppend(a[1..], b);
      CombineAssociative(CallSummary(a[0]), Summarize(a[1..]), Summarize(b));
    }
  }

  lemma {:induction false} SummarizeProceedAll(phase: Phase, pools: seq<Pool>)
    ensures Summarize(ProceedAll(phase, pools))
            == if phase == Additive then NoCalls.(additiveFed := pools) else NoCalls.(nonAdditiveFed := pools)
    decreases |pools|
  {
    if |pools| > 0 {
      assert ProceedAll(phase, pools)[1..] == ProceedAll(phase, pools[1..]);
      SummarizeProceedAll(phase, pools[1..]);
      assert [pools[0]] + pools[1..] == pools;
    }
  }

  lemma SummarizeSingle(call: Call)
    ensures Summarize([call]) == CallSummary(call)
  {
    assert [call][1..] == [];
    CombineNoCalls(CallSummary(call));
  }

  /** A pass: open, feed every block of the dataset, finish. */
  lemma SummarizePass(open: Call, phase: Phase, dataset: seq<Pool>, finish: Call)
    ensures Summarize([open] + ProceedAll(phase, dataset) + [finish])
            == Combine(Combine(CallSummary(open), Summarize(ProceedAll(phase, dataset))), CallSummary(finish))
  {
    var body := ProceedAll(phase, dataset);
    SummarizeSingle(open);
    SummarizeSingle(finish);
    SummarizeAppend([open], body);
    SummarizeAppend([open] + body, [finish]);
  }

  lemma SummarizeAdditivePass(dataset: seq<Pool>)
    ensures Summarize(AdditivePassCalls(dataset))
            == NoCalls.(additiveFed := dataset, additivePasses := 1, additiveFinishes := 1)
  {
    SummarizeProceedAll(Additive, dataset);
    SummarizePass(StreamPass(ForAdditive), Additive, dataset, Finish(Additive));
    assert [] + dataset + [] == dataset;
  }

  lemma SummarizePartsPass(dataset: seq<Pool>)
    ensures Summarize(PartsPassCalls(dataset))
            == NoCalls.(nonAdditiveFed := dataset, partsPasses := 1, nonAdditiveFinishes := 1)
  {
    SummarizeProceedAll(NonAdditive, dataset);
    SummarizePass(StreamPass(ForParts), NonAdditive, dataset, Finish(NonAdditive));
    assert [] + dataset + [] == dataset;
  }

  /** `n` calc-on-parts passes feed the dataset `n` times and finish `n` times. */
  lemma {:induction false} SummarizePartsPasses(dataset: seq<Pool>, n: nat)
    ensures Summarize(Repeat(PartsPassCalls(dataset), n))
            == NoCalls.(nonAdditiveFed := Repeat(dataset, n), partsPasses := n, nonAdditiveFinishes := n)
    decreases n
  {
    if n > 0 {
      SummarizePartsPasses(dataset, n - 1);
      SummarizePartsPass(dataset);
      SummarizeAppend(Repeat(PartsPassCalls(dataset), n - 1), PartsPassCalls(dataset));
    }
  }

  // ---------------------------------------------------------------------
  // Passes
  // ---------------------------------------------------------------------

  /** One ReadAndProceedPoolInBlocks pass: every block is preprocessed, then
      (when `feed`) handed to the calcer in `phase` and (when `retain`) kept. */
  method StreamDataset(purpose: Purpose, feed: bool, phase: Phase, retain: bool,
                       labelConverter: LabelConverter, compress: seq<real> -> seq<real>, blocks: seq<Pool>)
    returns (calls: seq<Call>, kept: seq<Pool>)
    ensures calls == [StreamPass(purpose)]
                     + (if feed then ProceedAll(phase, Preprocessed(labelConverter, compress, blocks)) else [])
    ensures kept == if retain then Preprocessed(labelConverter, compress, blocks) else []
  {
    calls := [StreamPass(purpose)];
    kept := [];
    var i := 0;
    while i < |blocks|
      invariant 0 <= i <= |blocks|
      invariant calls == [StreamPass(purpose)]
                         + (if feed then ProceedAll(phase, Preprocessed(labelConverter, compress, blocks[..i])) else [])
      invariant kept == if retain then Preprocessed(labelConverter, compress, blocks[..i]) else []
    {
      var pool := PreprocessPool(labelConverter, blocks[i], compress);
      assert Preprocessed(labelConverter, compress, blocks[..i + 1])
             == Preprocessed(labelConverter, compress, blocks[..i]) + [pool];
      if feed {
        calls := calls + [Proceed(phase, pool)];
      }
      if retain {
        kept := kept + [pool];
      }
      i := i + 1;
    }
    assert blocks[..i] == blocks;
  }

  /** Lines 151-161: the additive pass, which also retains the blocks when a
      non-additive metric will be computed on the whole dataset. */
  method AdditivePass(calcer: PlotCalcer, calcOnParts: bool,
                      labelConverter: LabelConverter, compress: seq<real> -> seq<real>, blocks: seq<Pool>)
    returns (calls: seq<Call>, retained: seq<Pool>)
    ensures calls == if calcer.hasAdditiveMetric
                     then AdditivePassCalls(Preprocessed(labelConverter, compress, blocks)) else []
    ensures retained == if calcer.hasAdditiveMetric && calcer.hasNonAdditiveMetric && !calcOnParts
                        then Preprocessed(labelConverter, compress, blocks) else []
  {
    calls := [];
    retained := [];
    if calcer.hasAdditiveMetric {
      calls, retained := StreamDataset(ForAdditive, true, Additive, calcer.hasNonAdditiveMetric && !calcOnParts,
                                       labelConverter, compress, blocks);
      calls := calls + [Finish(Additive)];
    }
  }

  /** Lines 163-171: re-stream the dataset until the calcer reports every
      iteration processed. */
  method CalcOnParts(calcer: PlotCalcer, labelConverter: LabelConverter, compress: seq<real> -> seq<real>,
                     blocks: seq<Pool>)
    returns (calls: seq<Call>, final: PlotCalcer)
    ensures final.AreAllIterationsProcessed()
    // the capped advance lands exactly on the iteration count, unless nothing was left to process
    ensures final.processedIterations ==
            if calcer.AreAllIterationsProcessed() then calcer.processedIterations else calcer.iterationsCount
    ensures final.(processedIterations := calcer.processedIterations) == calcer
    ensures calls == Repeat(PartsPassCalls(Preprocessed(labelConverter, compress, blocks)), PassesNeeded(calcer))
  {
    var dataset := Preprocessed(labelConverter, compress, blocks);
    calls := [];
    final := calcer;
    var passes := 0;
    while !final.AreAllIterationsProcessed()
      invariant final.(processedIterations := calcer.processedIterations) == calcer
      invariant calcer.AreAllIterationsProcessed() ==> final == calcer
      invariant !calcer.AreAllIterationsProcessed() ==> final.processedIterations <= calcer.iterationsCount
      invariant passes + PassesNeeded(final) == PassesNeeded(calcer)
      invariant calls == Repeat(PartsPassCalls(dataset), passes)
      decreases final.iterationsCount - final.processedIterations
    {
      var pass, _ := StreamDataset(ForParts, true, NonAdditive, false, labelConverter, compress, blocks);
      calls := calls + pass + [Finish(NonAdditive)];
      PassesNeededStep(final);
      final := final.FinishNonAdditivePass();
      passes := passes + 1;
    }
  }

  /** Lines 173-178: compute on the retained blocks, reading the dataset again
      only when nothing was retained. */
  method CalcOnWhole(retained: seq<Pool>, labelConverter: LabelConverter, compress: seq<real> -> seq<real>,
                     blocks: seq<Pool>)
    returns (calls: seq<Call>)
    ensures calls == WholeCalls(retained, Preprocessed(labelConverter, compress, blocks))
  {
    var datasetParts := retained;
    calls := [];
    if datasetParts == [] {
      var read;
      read, datasetParts := StreamDataset(ForWhole, false, NonAdditive, true, labelConverter, compress, blocks);
      calls := read;
    }
    calls := calls + [ComputeNonAdditive(datasetParts)];
  }

  /** Lines 150-179: the passes over the dataset for a calcer with the given
      metric kinds, ending with SaveResult. What the schedule amounts to
      (which passes run, how often, on what) is PassTraceSummary. */
  method EvaluatePasses(calcer: PlotCalcer, calcOnParts: bool,
                        labelConverter: LabelConverter, compress: seq<real> -> seq<real>, blocks: seq<Pool>)
    returns (trace: seq<Call>, retained: seq<Pool>, final: PlotCalcer)
    // the calls in order: the additive pass, then the calc-on-parts passes or calc-on-whole, then SaveResult
    ensures trace == PassTrace(calcer, calcOnParts, Preprocessed(labelConverter, compress, blocks))
    // a block is retained exactly when both kinds exist and calc-on-parts is off
    ensures retained == if calcer.hasAdditiveMetric && calcer.hasNonAdditiveMetric && !calcOnParts
                        then Preprocessed(labelConverter, compress, blocks) else []
    // calc-on-parts runs until every iteration is processed; nothing else about the calcer changes
    ensures calcer.hasNonAdditiveMetric && calcOnParts ==> final.AreAllIterationsProcessed()
    ensures final.(processedIterations := calcer.processedIterations) == calcer
    // only the calc-on-parts loop advances the calcer
    ensures !(calcer.hasNonAdditiveMetric && calcOnParts) ==> final == calcer
  {
    var additive;
    additive, retained := AdditivePass(calcer, calcOnParts, labelConverter, compress, blocks);
    var parts: seq<Call> := [];
    final := calcer;
    if calcer.hasNonAdditiveMetric && calcOnParts {
      parts, final := CalcOnParts(calcer, labelConverter, compress, blocks);
    }
    var whole: seq<Call> := [];
    if calcer.hasNonAdditiveMetric && !calcOnParts {
      whole := CalcOnWhole(retained, labelConverter, compress, blocks);
    }
    trace := additive + parts + whole + [SaveResult];
  }

  /** The blocks the additive pass keeps for calc-on-whole. */
  function Retained(calcer: PlotCalcer, calcOnParts: bool, dataset: seq<Pool>): seq<Pool> {
    if calcer.hasAdditiveMetric && calcer.hasNonAdditiveMetric && !calcOnParts then dataset else []
  }

  /** The calls of calc-on-whole: a fresh read when nothing was retained, then the computation. */
  function WholeCalls(retained: seq<Pool>, dataset: seq<Pool>): seq<Call> {
    if retained == [] then [StreamPass(ForWhole), ComputeNonAdditive(dataset)] else [ComputeNonAdditive(retained)]
  }

  /** The calls of lines 150-179, in order, for a calcer and a preprocessed dataset. */
  function PassTrace(calcer: PlotCalcer, calcOnParts: bool, dataset: seq<Pool>): seq<Call> {
    (if calcer.hasAdditiveMetric then AdditivePassCalls(dataset) else [])
    + (if calcer.hasNonAdditiveMetric && calcOnParts then Repeat(PartsPassCalls(dataset), PassesNeeded(calcer)) else [])
    + (if calcer.hasNonAdditiveMetric && !calcOnParts then WholeCalls(Retained(calcer, calcOnParts, dataset), dataset)
       else [])
    + [SaveResult]
  }

  /** What the pass schedule does, counted: one additive pass exactly when an
      additive metric exists; calc-on-parts passes until every iteration is
      processed, or one calc-on-whole computation on the whole dataset, never
      both; a re-read for calc-on-whole exactly when nothing was retained; one
      SaveResult at the end. */
  lemma PassTraceSummary(calcer: PlotCalcer, calcOnParts: bool, dataset: seq<Pool>)
    ensures var s := Summarize(PassTrace(calcer, calcOnParts, dataset));
            var parts := calcer.hasNonAdditiveMetric && calcOnParts;
            var whole := calcer.hasNonAdditiveMetric && !calcOnParts;
            && s.additiveFed == (if calcer.hasAdditiveMetric then dataset else [])
            && s.additivePasses == (if calcer.hasAdditiveMetric then 1 else 0)
            && s.additiveFinishes == s.additivePasses
            && s.wholeComputations == (if whole then [dataset] else [])
            && s.wholePasses == (if whole && Retained(calcer, calcOnParts, dataset) == [] then 1 else 0)
            && s.partsPasses == (if parts then PassesNeeded(calcer) else 0)
            && s.nonAdditiveFinishes == s.partsPasses
            && s.nonAdditiveFed == Repeat(dataset, s.partsPasses)
            && (s.wholeComputations == [] || s.partsPasses == 0)
            && (whole && |dataset| > 0 ==> s.PassCount() == 1)
            && s.saves == 1
  {
    var retained := Retained(calcer, calcOnParts, dataset);
    var additive := if calcer.hasAdditiveMetric then AdditivePassCalls(dataset) else [];
    var n := if calcer.hasNonAdditiveMetric && calcOnParts then PassesNeeded(calcer) else 0;
    var parts := if calcer.hasNonAdditiveMetric && calcOnParts then Repeat(PartsPassCalls(dataset), n) else [];
    assert parts == Repeat(PartsPassCalls(dataset), n);
    var whole := if calcer.hasNonAdditiveMetric && !calcOnParts then WholeCalls(retained, dataset) else [];
    assert PassTrace(calcer, calcOnParts, dataset) == additive + parts + whole + [SaveResult];
    RunSummary(dataset, additive, parts, whole, n, retained);
  }

  /** The summary of a run assembled from its four segments. */
  lemma RunSummary(dataset: seq<Pool>, additive: seq<Call>, parts: seq<Call>, whole: seq<Call>, n: nat,
                   retained: seq<Pool>)
    requires additive == [] || additive == AdditivePassCalls(dataset)
    requires parts == Repeat(PartsPassCalls(dataset), n)
    requires whole == [] || (retained == [] && whole == [StreamPass(ForWhole), ComputeNonAdditive(dataset)])
             || (retained == dataset && retained != [] && whole == [ComputeNonAdditive(retained)])
    ensures Summarize(additive + parts + whole + [SaveResult])
            == Summary(if additive == [] then [] else dataset,
                       Repeat(dataset, n),
                       if whole == [] then [] else [dataset],
                       if additive == [] then 0 else 1,
                       n,
                       if whole == [] || retained != [] then 0 else 1,
                       if additive == [] then 0 else 1,
                       n,
                       1)
  {
    var hasAdditive := additive != [];
    var hasWhole := whole != [];
    var reread := whole != [] && retained == [];
    var a := if hasAdditive then NoCalls.(additiveFed := dataset, additivePasses := 1, additiveFinishes := 1)
             else NoCalls;
    var p := NoCalls.(nonAdditiveFed := Repeat(dataset, n), partsPasses := n, nonAdditiveFinishes := n);
    var w := NoCalls.(wholeComputations := if hasWhole then [dataset] else [], wholePasses := if reread then 1 else 0);
    if hasAdditive {
      SummarizeAdditivePass(dataset);
    }
    assert Summarize(additive) == a;
    SummarizePartsPasses(dataset, n);
    assert Summarize(parts) == p;
    WholeSummary(dataset, whole, retained);
    assert Summarize(whole) == w;
    SummarizeSingle(SaveResult);
    var ap := additive + parts;
    var apw := ap + whole;
    SummarizeAppend(additive, parts);
    SummarizeAppend(ap, whole);
    SummarizeAppend(apw, [SaveResult]);
    assert Summarize(apw + [SaveResult]) == Combine(Combine(Combine(a, p), w), NoCalls.(saves := 1));
    CombineSegments(dataset, n, hasAdditive, hasWhole, reread);
  }

  lemma CombineSegments(dataset: seq<Pool>, n: nat, hasAdditive: bool, hasWhole: bool, reread: bool)
    ensures var a := if hasAdditive then NoCalls.(additiveFed := dataset, additivePasses := 1, additiveFinishes := 1)
                     else NoCalls;
            var p := NoCalls.(nonAdditiveFed := Repeat(dataset, n), partsPasses := n, nonAdditiveFinishes := n);
            var w := NoCalls.(wholeComputations := if hasWhole then [dataset] else [],
                              wholePasses := if reread then 1 else 0);
            Combine(Combine(Combine(a, p), w), NoCalls.(saves := 1))
            == Summary(if hasAdditive then dataset else [], Repeat(dataset, n), if hasWhole then [dataset] else [],
                       if hasAdditive then 1 else 0, n, if reread then 1 else 0, if hasAdditive then 1 else 0, n, 1)
  {
    var fed: seq<Pool> := if hasAdditive then dataset else [];
    var whole: seq<seq<Pool>> := if hasWhole then [dataset] else [];
    assert fed + [] + [] + [] == fed;
    assert [] + Repeat(dataset, n) + [] + [] == Repeat(dataset, n);
    assert [] + [] + whole + [] == whole;
  }

  lemma WholeRetainedSummary(dataset: seq<Pool>)
    ensures Summarize([ComputeNonAdditive(dataset)]) == NoCalls.(wholeComputations := [dataset])
  {
    SummarizeSingle(ComputeNonAdditive(dataset));
  }

  lemma WholeRereadSummary(dataset: seq<Pool>)
    ensures Summarize([StreamPass(ForWhole), ComputeNonAdditive(dataset)])
            == NoCalls.(wholeComputations := [dataset], wholePasses := 1)
  {
    var t := [StreamPass(ForWhole), ComputeNonAdditive(dataset)];
    assert t[1..] == [ComputeNonAdditive(dataset)];
    WholeRetainedSummary(dataset);
    var first := CallSummary(StreamPass(ForWhole));
    assert first == NoCalls.(wholePasses := 1);
    assert Summarize(t) == Combine(first, NoCalls.(wholeComputations := [dataset]));
    assert [] + [dataset] == [dataset];
  }

  lemma WholeSummary(dataset: seq<Pool>, whole: seq<Call>, retained: seq<Pool>)
    requires whole == [] || (retained == [] && whole == [StreamPass(ForWhole), ComputeNonAdditive(dataset)])
             || (retained == dataset && retained != [] && whole == [ComputeNonAdditive(retained)])
    ensures Summarize(whole) == NoCalls.(wholeComputations := if whole == [] then [] else [dataset],
                                         wholePasses := if whole == [] || retained != [] then 0 else 1)
  {
    if whole == [] {
    } else if retained == [] {
      WholeRereadSummary(dataset);
    } else {
      WholeRetainedSummary(dataset);
    }
  }

  // ---------------------------------------------------------------------
  // The whole mode
  // ---------------------------------------------------------------------

  /** What a successful run leaves behind. */
  datatype RunOutcome = RunOutcome(params: EvalMetricsParams, metrics: seq<Metric>, trace: seq<Call>)

  /** The plot calcer the mode builds for the created metrics and the defaulted
      options; no iteration is processed yet. */
  function RunCalcer(metrics: seq<Metric>, params: EvalMetricsParams,
                     iterationsCount: (Ui32, Ui32, Ui32) -> nat): PlotCalcer {
    PlotCalcer(HasAdditiveMetric(metrics), HasNonAdditiveMetric(metrics),
               iterationsCount(params.firstIteration, params.endIteration, params.step), 0)
  }

  /** mode_eval_metrics after option parsing: the categorical-feature guard,
      defaulting, metric creation, the calcer (its iteration count comes from
      the abstract `iterationsCount` of first/end iteration and step), then the
      passes. */
  method RunEvalMetrics(params: EvalMetricsParams, model: ModelInfo, cdFilePathInited: bool,
                        generatedTmpDir: string, calcOnParts: bool,
                        createMetricsFromDescription: (seq<string>, int) -> Created,
                        iterationsCount: (Ui32, Ui32, Ui32) -> nat,
                        labelConverter: LabelConverter, compress: seq<real> -> seq<real>, blocks: seq<Pool>)
    returns (r: Result<RunOutcome>)
    ensures r == Err(CatFeaturesWithoutColumnDescription)
            <==> model.usedCatFeaturesCount > 0 && !cdFilePathInited
    ensures (model.usedCatFeaturesCount == 0 || cdFilePathInited) ==>
              (r == Err(NoMetricInDescription(params.metricsDescription))
               <==> forall i :: 0 <= i < |params.metricsDescription| ==> params.metricsDescription[i] == MetricSeparator)
    // past the guard, the run succeeds exactly when metric creation does, and otherwise fails with its error
    ensures (model.usedCatFeaturesCount == 0 || cdFilePathInited) ==>
              var created := CreateMetrics(ApplyDefaults(params, model.treeCount, generatedTmpDir).metricsDescription,
                                           model.approxDimension, createMetricsFromDescription);
              && (r.Ok? <==> created.Ok?)
              && (created.Err? ==> r == Err(created.error))
    ensures r.Ok? ==> r.value.params == ApplyDefaults(params, model.treeCount, generatedTmpDir)
    // the metrics are the ones created from the defaulted description
    ensures r.Ok? ==> CreateMetrics(r.value.params.metricsDescription, model.approxDimension, createMetricsFromDescription)
                      == Ok(r.value.metrics)
    // the passes are the schedule for a fresh calcer over those metrics
    ensures r.Ok? ==> r.value.trace == PassTrace(RunCalcer(r.value.metrics, r.value.params, iterationsCount), calcOnParts,
                                                 Preprocessed(labelConverter, compress, blocks))
    ensures r.Ok? ==>
              var dataset := Preprocessed(labelConverter, compress, blocks);
              var s := Summarize(r.value.trace);
              && s.additiveFed == (if HasAdditiveMetric(r.value.metrics) then dataset else [])
              && s.wholeComputations == (if HasNonAdditiveMetric(r.value.metrics) && !calcOnParts then [dataset] else [])
              && (!HasNonAdditiveMetric(r.value.metrics) ==> s.nonAdditiveFed == [] && s.partsPasses == 0)
              && |r.value.trace| > 0 && r.value.trace[|r.value.trace| - 1] == SaveResult
  {
    if !(model.usedCatFeaturesCount == 0 || cdFilePathInited) {
      return Err(CatFeaturesWithoutColumnDescription);
    }
    var defaulted := ApplyDefaults(params, model.treeCount, generatedTmpDir);
    var created := CreateMetrics(defaulted.metricsDescription, model.approxDimension, createMetricsFromDescription);
    if created.Err? {
      return Err(created.error);
    }
    var metrics := created.value;
    var trace := RunPasses(metrics, defaulted, iterationsCount, calcOnParts, labelConverter, compress, blocks);
    PassTraceSummary(RunCalcer(metrics, defaulted, iterationsCount), calcOnParts,
                     Preprocessed(labelConverter, compress, blocks));
    return Ok(RunOutcome(defaulted, metrics, trace));
  }

  /** Lines 140-179 after metric creation: a fresh calcer for the metrics, then
      the passes. */
  method RunPasses(metrics: seq<Metric>, params: EvalMetricsParams, iterationsCount: (Ui32, Ui32, Ui32) -> nat,
                   calcOnParts: bool, labelConverter: LabelConverter, compress: seq<real> -> seq<real>,
                   blocks: seq<Pool>)
    returns (trace: seq<Call>)
    ensures trace == PassTrace(RunCalcer(metrics, params, iterationsCount), calcOnParts,
                               Preprocessed(labelConverter, compress, blocks))
  {
    var calcer := RunCalcer(metrics, params, iterationsCount);
    var retained, final;
    trace, retained, final := EvaluatePasses(calcer, calcOnParts, labelConverter, compress, blocks);
  }
}
