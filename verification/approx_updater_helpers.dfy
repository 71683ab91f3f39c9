/** How a tree's leaf deltas are folded into running predictions ("approxes"),
    and the small accumulation loops that sit next to that rule in
    catboost/libs/algo/approx_updater_helpers.h. Numbers are `real`: the
    rounding of `double`/`float` is not modelled. */
module ApproxUpdaterHelpers {
  import opened RealSums

  // ---------------------------------------------------------------------
  // Scalar combination rule
  // ---------------------------------------------------------------------

  /** UpdateApprox<StoreExpApprox>: losses that store exponentiated approxes
      multiply the delta in, all others add it. */
  function UpdateApprox(storeExpApprox: bool, approx: real, approxDelta: real): real {
    if storeExpApprox then approx * approxDelta else approx + approxDelta
  }

  /** GetNeutralApprox<StoreExpApprox>(): the identity of the combination rule. */
  function NeutralApprox(storeExpApprox: bool): (r: real)
    ensures forall d :: UpdateApprox(storeExpApprox, r, d) == d
    ensures forall a :: UpdateApprox(storeExpApprox, a, r) == a
  {
    if storeExpApprox then 1.0 else 0.0
  }

  /** The runtime overload GetNeutralApprox(bool), which dispatches to the
      compile-time instance selected by the flag. */
  function GetNeutralApprox(storeExpApproxes: bool): (r: real)
    ensures r == NeutralApprox(storeExpApproxes)
    ensures forall d :: UpdateApprox(storeExpApproxes, r, d) == d
  {
    if storeExpApproxes then NeutralApprox(true) else NeutralApprox(false)
  }

  /** The neutral approx is the only left identity of either rule. */
  lemma NeutralApproxUnique(storeExpApprox: bool, e: real)
    requires forall d :: UpdateApprox(storeExpApprox, e, d) == d
    ensures e == NeutralApprox(storeExpApprox)
  {
    assert UpdateApprox(storeExpApprox, e, 1.0) == 1.0;
  }

  /** ApplyLearningRate<StoreExpApprox>. The exponentiated branch goes through
      the approximate `fast_exp`/`FastLogf` routines, which are passed in
      uninterpreted. */
  function ApplyLearningRate(storeExpApprox: bool, approxDelta: real, learningRate: real,
                             fastExp: real -> real, fastLog: real -> real): real
  {
    if storeExpApprox then fastExp(fastLog(approxDelta) * learningRate) else approxDelta * learningRate
  }

  /** Starting from the neutral approx, one tree's scaled delta is the new
      approx, for either rule. */
  lemma NeutralThenScaledDelta(storeExpApprox: bool, approxDelta: real, learningRate: real,
                               fastExp: real -> real, fastLog: real -> real)
    ensures UpdateApprox(storeExpApprox, GetNeutralApprox(storeExpApprox),
                         ApplyLearningRate(storeExpApprox, approxDelta, learningRate, fastExp, fastLog))
            == ApplyLearningRate(storeExpApprox, approxDelta, learningRate, fastExp, fastLog)
  {
  }

  // ---------------------------------------------------------------------
  // Folding a sequence of trees into one approx
  // ---------------------------------------------------------------------

  /** Applies the per-tree deltas to `approx` in tree order. */
  function FoldApprox(storeExpApprox: bool, approx: real, deltas: seq<real>): real
    decreases |deltas|
  {
    if |deltas| == 0 then approx
    else FoldApprox(storeExpApprox, UpdateApprox(storeExpApprox, approx, deltas[0]), deltas[1..])
  }

  /** Folding trees [0, k) and then [k, m) is folding [0, m) at once. */
  lemma {:induction false} FoldApproxSplit(storeExpApprox: bool, approx: real, deltas: seq<real>, k: nat)
    requires k <= |deltas|
    ensures FoldApprox(storeExpApprox, FoldApprox(storeExpApprox, approx, deltas[..k]), deltas[k..])
            == FoldApprox(storeExpApprox, approx, deltas)
    decreases k
  {
    if k > 0 {
      var next := UpdateApprox(storeExpApprox, approx, deltas[0]);
      assert deltas[..k][1..] == deltas[1..][..k - 1];
      assert deltas[k..] == deltas[1..][k - 1..];
      FoldApproxSplit(storeExpApprox, next, deltas[1..], k - 1);
    }
  }

  /** Closed form of a fold: the start plus the sum of the deltas, or the start
      times their product. */
  lemma {:induction false} FoldApproxClosedForm(storeExpApprox: bool, approx: real, deltas: seq<real>)
    ensures !storeExpApprox ==> FoldApprox(storeExpApprox, approx, deltas) == approx + Sum(deltas)
    ensures storeExpApprox ==> FoldApprox(storeExpApprox, approx, deltas) == approx * Product(deltas)
    decreases |deltas|
  {
    if |deltas| > 0 {
      var next := UpdateApprox(storeExpApprox, approx, deltas[0]);
      FoldApproxClosedForm(storeExpApprox, next, deltas[1..]);
      if storeExpApprox {
        assert (approx * deltas[0]) * Product(deltas[1..]) == approx * (deltas[0] * Product(deltas[1..]));
      }
    }
  }

  /** The order in which two groups of trees are folded does not matter. */
  lemma FoldApproxOrderIndependent(storeExpApprox: bool, approx: real, first: seq<real>, second: seq<real>)
    ensures FoldApprox(storeExpApprox, approx, first + second)
            == FoldApprox(storeExpApprox, approx, second + first)
  {
    FoldApproxClosedForm(storeExpApprox, approx, first + second);
    FoldApproxClosedForm(storeExpApprox, approx, second + first);
    SumAppend(first, second);
    SumAppend(second, first);
    ProductAppend(first, second);
    ProductAppend(second, first);
  }

  /** Folding from the neutral approx yields the combined delta of the trees
      alone, and any other start combines with that combined delta. */
  lemma FoldApproxFromNeutral(storeExpApprox: bool, approx: real, deltas: seq<real>)
    ensures FoldApprox(storeExpApprox, approx, deltas)
            == UpdateApprox(storeExpApprox, approx, FoldApprox(storeExpApprox, NeutralApprox(storeExpApprox), deltas))
  {
    FoldApproxClosedForm(storeExpApprox, approx, deltas);
    FoldApproxClosedForm(storeExpApprox, NeutralApprox(storeExpApprox), deltas);
  }

  /** With the additive rule, folding trees whose deltas were scaled by the
      learning rate adds the learning rate times the total delta. */
  lemma {:induction false} ScaledAdditiveFold(approx: real, deltas: seq<real>, learningRate: real,
                                              fastExp: real -> real, fastLog: real -> real)
    ensures FoldApprox(false, approx,
                       seq(|deltas|, i requires 0 <= i < |deltas| =>
                         ApplyLearningRate(false, deltas[i], learningRate, fastExp, fastLog)))
            == approx + learningRate * Sum(deltas)
    decreases |deltas|
  {
    var scaled := seq(|deltas|, i requires 0 <= i < |deltas| =>
                    ApplyLearningRate(false, deltas[i], learningRate, fastExp, fastLog));
    if |deltas| > 0 {
      var rest := seq(|deltas| - 1, i requires 0 <= i < |deltas| - 1 =>
                    ApplyLearningRate(false, deltas[1..][i], learningRate, fastExp, fastLog));
      assert scaled[1..] == rest;
      ScaledAdditiveFold(approx + deltas[0] * learningRate, deltas[1..], learningRate, fastExp, fastLog);
    }
  }

  // ---------------------------------------------------------------------
  // Loss families
  // ---------------------------------------------------------------------

  /** The loss functions and metrics named by ELossFunction (a representative
      list: the enumeration's own header is not part of this model). */
  datatype LossFunction =
    | Logloss | CrossEntropy | RMSE | MAE | Quantile | LogLinQuantile | MAPE | Poisson
    | MultiClass | MultiClassOneVsAll | PairLogit | PairLogitPairwise | YetiRank | YetiRankPairwise
    | QueryRMSE | QuerySoftMax | QueryCrossEntropy | R2 | AUC | Accuracy | Precision | Recall
    | F1 | TotalF1 | MCC | PairAccuracy | AverageGain | PFound | NDCG | PrecisionAt | RecallAt
    | MAP | CtrFactor | Custom | UserPerObjMetric | UserQuerywiseMetric

  /** The losses whose approxes are kept exponentiated. */
  const StoreExpLosses: set<LossFunction> :=
    {Logloss, LogLinQuantile, Poisson, CrossEntropy, PairLogit, PairLogitPairwise, YetiRank, YetiRankPairwise}

  /** IsStoreExpApprox: an equality test against each of the eight losses. */
  function IsStoreExpApprox(lossFunction: LossFunction): (r: bool)
    ensures r <==> lossFunction in StoreExpLosses
    ensures r ==> GetNeutralApprox(r) == 1.0
    ensures !r ==> GetNeutralApprox(r) == 0.0
  {
    lossFunction == Logloss || lossFunction == LogLinQuantile || lossFunction == Poisson
    || lossFunction == CrossEntropy || lossFunction == PairLogit || lossFunction == PairLogitPairwise
    || lossFunction == YetiRank || lossFunction == YetiRankPairwise
  }

  // ---------------------------------------------------------------------
  // ExpApproxIf
  // ---------------------------------------------------------------------

  /** ExpApproxIf on one approx vector; `fastExp` stands for FastExpInplace's
      per-element routine, left uninterpreted. */
  function ExpApproxIf(storeExpApproxes: bool, approx: seq<real>, fastExp: real -> real): (r: seq<real>)
    ensures |r| == |approx|
    ensures !storeExpApproxes ==> r == approx
    ensures storeExpApproxes ==> forall i :: 0 <= i < |r| ==> r[i] == fastExp(approx[i])
  {
    if storeExpApproxes then seq(|approx|, i requires 0 <= i < |approx| => fastExp(approx[i])) else approx
  }

  /** ExpApproxIf on every dimension of a multi-dimensional approx. */
  function ExpApproxIfMulti(storeExpApproxes: bool, approxMulti: seq<seq<real>>, fastExp: real -> real)
    : (r: seq<seq<real>>)
    ensures |r| == |approxMulti|
    ensures forall d :: 0 <= d < |r| ==> |r[d]| == |approxMulti[d]|
    ensures !storeExpApproxes ==> r == approxMulti
    ensures storeExpApproxes ==>
      forall d, i :: 0 <= d < |r| && 0 <= i < |r[d]| ==> r[d][i] == fastExp(approxMulti[d][i])
  {
    seq(|approxMulti|, d requires 0 <= d < |approxMulti| => ExpApproxIf(storeExpApproxes, approxMulti[d], fastExp))
  }

  /** An exponential: turns sums into products. */
  ghost predicate IsExpLike(exp: real -> real) {
    forall x, y :: exp(x + y) == exp(x) * exp(y)
  }

  /** The multiplicative rule on exponentiated values is the additive rule
      seen through the exponential. */
  lemma UpdateApproxExp(exp: real -> real, approx: real, approxDelta: real)
    requires IsExpLike(exp)
    ensures UpdateApprox(true, exp(approx), exp(approxDelta)) == exp(UpdateApprox(false, approx, approxDelta))
  {
  }

  /** Storing exponentiated approxes loses nothing: folding the exponentiated
      deltas (ExpApproxIf with the flag set) into an exponentiated start with
      the multiplicative rule gives the exponential of the additive fold. */
  lemma {:induction false} FoldApproxExp(exp: real -> real, approx: real, deltas: seq<real>)
    requires IsExpLike(exp)
    ensures FoldApprox(true, exp(approx), ExpApproxIf(true, deltas, exp)) == exp(FoldApprox(false, approx, deltas))
    decreases |deltas|
  {
    if |deltas| > 0 {
      var expDeltas := ExpApproxIf(true, deltas, exp);
      assert expDeltas[0] == exp(deltas[0]);
      assert expDeltas[1..] == ExpApproxIf(true, deltas[1..], exp);
      UpdateApproxExp(exp, approx, deltas[0]);
      FoldApproxExp(exp, approx + deltas[0], deltas[1..]);
    }
  }

  // ---------------------------------------------------------------------
  // Vector UpdateApprox
  // ---------------------------------------------------------------------

  /** The vector UpdateApprox: for every dimension, `updateFunc` is applied to
      every index of that approx dimension. The parallel-for writes each index
      independently, so `updateFunc` is modelled as computing index `idx`'s
      new value from the dimension's delta, that index's old value and `idx`. */
  method UpdateApproxDims(updateFunc: (seq<real>, real, nat) -> real,
                          delta: seq<seq<real>>, approx: seq<seq<real>>)
    returns (r: seq<seq<real>>)
    requires |delta| == |approx|
    ensures |r| == |approx|
    ensures forall d :: 0 <= d < |r| ==> |r[d]| == |approx[d]|
    ensures forall d, i :: 0 <= d < |r| && 0 <= i < |r[d]| ==> r[d][i] == updateFunc(delta[d], approx[d][i], i)
  {
    r := approx;
    var dim := 0;
    while dim < |delta|
      invariant 0 <= dim <= |delta|
      invariant |r| == |approx|
      invariant forall d :: 0 <= d < |r| ==> |r[d]| == |approx[d]|
      invariant forall d, i :: 0 <= d < dim && 0 <= i < |r[d]| ==> r[d][i] == updateFunc(delta[d], approx[d][i], i)
      invariant forall d :: dim <= d < |r| ==> r[d] == approx[d]
    {
      var row := approx[dim];
      var idx := 0;
      while idx < |row|
        invariant 0 <= idx <= |row|
        invariant |row| == |approx[dim]|
        invariant forall i :: 0 <= i < idx ==> row[i] == updateFunc(delta[dim], approx[dim][i], i)
        invariant forall i :: idx <= i < |row| ==> row[i] == approx[dim][i]
      {
        row := row[idx := updateFunc(delta[dim], approx[dim][idx], idx)];
        idx := idx + 1;
      }
      r := r[dim := row];
      dim := dim + 1;
    }
  }

  // ---------------------------------------------------------------------
  // AddElementwise
  // ---------------------------------------------------------------------

  /** AddElementwise<double>: the accumulator receives the value element by element. */
  method AddElementwise(value: seq<real>, accumulator: seq<real>) returns (r: seq<real>)
    requires |value| == |accumulator|
    ensures |r| == |accumulator|
    ensures forall i :: 0 <= i < |r| ==> r[i] == accumulator[i] + value[i]
  {
    r := accumulator;
    var idx := 0;
    while idx < |value|
      invariant 0 <= idx <= |value|
      invariant |r| == |accumulator|
      invariant forall i :: 0 <= i < idx ==> r[i] == accumulator[i] + value[i]
      invariant forall i :: idx <= i < |r| ==> r[i] == accumulator[i]
    {
      r := r[idx := r[idx] + value[idx]];
      idx := idx + 1;
    }
  }

  /** The generic AddElementwise instantiated one level up (vectors of double
      vectors): each element is accumulated by the double overload, whose own
      size assertion becomes the second precondition. */
  method AddElementwiseNested(value: seq<seq<real>>, accumulator: seq<seq<real>>) returns (r: seq<seq<real>>)
    requires |value| == |accumulator|
    requires forall i :: 0 <= i < |value| ==> |value[i]| == |accumulator[i]|
    ensures |r| == |accumulator|
    ensures forall i :: 0 <= i < |r| ==> |r[i]| == |accumulator[i]|
    ensures forall i, j :: 0 <= i < |r| && 0 <= j < |r[i]| ==> r[i][j] == accumulator[i][j] + value[i][j]
  {
    r := accumulator;
    var idx := 0;
    while idx < |value|
      invariant 0 <= idx <= |value|
      invariant |r| == |accumulator|
      invariant forall i :: 0 <= i < |r| ==> |r[i]| == |accumulator[i]|
      invariant forall i, j :: 0 <= i < idx && 0 <= j < |r[i]| ==> r[i][j] == accumulator[i][j] + value[i][j]
      invariant forall i :: idx <= i < |r| ==> r[i] == accumulator[i]
    {
      var row := AddElementwise(value[idx], r[idx]);
      r := r[idx := row];
      idx := idx + 1;
    }
  }

  // ---------------------------------------------------------------------
  // SumLeafWeights
  // ---------------------------------------------------------------------

  /** The leaf of learn document `docIdx`, or -1 when an index is out of range. */
  function DocLeaf(leafIndices: seq<nat>, learnPermutation: seq<nat>, docIdx: nat): int {
    if docIdx < |learnPermutation| && learnPermutation[docIdx] < |leafIndices|
    then leafIndices[learnPermutation[docIdx]] else -1
  }

  /** Reference definition: the total weight of the documents among the first
      |learnWeights| that fall into `leaf`. */
  function LeafWeight(leaf: nat, leafIndices: seq<nat>, learnPermutation: seq<nat>, learnWeights: seq<real>): real
    decreases |learnWeights|
  {
    if |learnWeights| == 0 then 0.0
    else
      var last := |learnWeights| - 1;
      LeafWeight(leaf, leafIndices, learnPermutation, learnWeights[..last])
      + (if DocLeaf(leafIndices, learnPermutation, last) == leaf then learnWeights[last] else 0.0)
  }

  /** SumLeafWeights: per-leaf weight totals of the learn documents. */
  method SumLeafWeights(leafCount: nat, leafIndices: seq<nat>, learnPermutation: seq<nat>, learnWeights: seq<real>)
    returns (weightSum: seq<real>)
    requires |learnWeights| <= |learnPermutation|
    requires forall d :: 0 <= d < |learnWeights| ==>
               learnPermutation[d] < |leafIndices| && leafIndices[learnPermutation[d]] < leafCount
    ensures |weightSum| == leafCount
    ensures forall leaf :: 0 <= leaf < leafCount ==>
              weightSum[leaf] == LeafWeight(leaf, leafIndices, learnPermutation, learnWeights)
    ensures Sum(weightSum) == Sum(learnWeights)
  {
    weightSum := Zeros(leafCount);
    SumZeros(leafCount);
    var docIdx := 0;
    while docIdx < |learnWeights|
      invariant 0 <= docIdx <= |learnWeights|
      invariant |weightSum| == leafCount
      invariant forall leaf :: 0 <= leaf < leafCount ==>
                  weightSum[leaf] == LeafWeight(leaf, leafIndices, learnPermutation, learnWeights[..docIdx])
      invariant Sum(weightSum) == Sum(learnWeights[..docIdx])
    {
      var leaf := leafIndices[learnPermutation[docIdx]];
      SumUpdate(weightSum, leaf, learnWeights[docIdx]);
      SumPrefixStep(learnWeights, docIdx);
      weightSum := weightSum[leaf := weightSum[leaf] + learnWeights[docIdx]];
      assert learnWeights[..docIdx + 1][..docIdx] == learnWeights[..docIdx];
      docIdx := docIdx + 1;
    }
    assert learnWeights[..docIdx] == learnWeights;
  }
  // ---------------------------------------------------------------------
  // CalcPairwiseWeights
  // ---------------------------------------------------------------------

  /** One competitor of a document inside a query: the index of the other
      document (relative to the query's first document) and the pair's weight. */
  datatype Competitor = Competitor(id: nat, weight: real)

  /** The parts of TQueryInfo that CalcPairwiseWeights reads: the index of the
      query's first document and, per document of the query, its competitors. */
  datatype QueryInfo = QueryInfo(begin: nat, competitors: seq<seq<Competitor>>)

  /** The queries CalcPairwiseWeights visits: the first `queriesCount` ones
      (none when the count is not positive). */
  function VisitedQueries(queriesInfo: seq<QueryInfo>, queriesCount: int): seq<QueryInfo>
    requires queriesCount <= |queriesInfo|
  {
    if queriesCount <= 0 then [] else queriesInfo[..queriesCount]
  }

  /** Every pair of the visited queries points at positions below `size`. */
  predicate PairsInRange(queries: seq<QueryInfo>, size: nat) {
    forall q :: 0 <= q < |queries| ==> QueryPairsInRange(queries[q], size)
  }

  /** Every pair of one query points at positions below `size`. */
  predicate QueryPairsInRange(query: QueryInfo, size: nat) {
    forall d :: 0 <= d < |query.competitors| ==> DocPairsInRange(query.begin, d, query.competitors[d], size)
  }

  /** Every pair of document `begin + docId` points at positions below `size`. */
  predicate DocPairsInRange(begin: nat, docId: nat, cs: seq<Competitor>, size: nat) {
    forall c :: 0 <= c < |cs| ==> begin + docId < size && begin + cs[c].id < size
  }

  /** No pair of any visited query has position `p` as one of its two ends. */
  predicate Untouched(queries: seq<QueryInfo>, p: nat) {
    forall q :: 0 <= q < |queries| ==> UntouchedByDocs(queries[q].begin, queries[q].competitors, p)
  }

  /** No pair of the documents of one query has position `p` as an end. */
  predicate UntouchedByDocs(begin: nat, docs: seq<seq<Competitor>>, p: nat) {
    forall d :: 0 <= d < |docs| ==> UntouchedByCompetitors(begin, d, docs[d], p)
  }

  /** No pair of document `begin + docId` has position `p` as an end. */
  predicate UntouchedByCompetitors(begin: nat, docId: nat, cs: seq<Competitor>, p: nat) {
    forall c :: 0 <= c < |cs| ==> p != begin + docId && p != begin + cs[c].id
  }

  /** Weight one pair (document `begin + docId` against competitor `c`) adds
      at position `p`: the pair's weight at each of its two ends. */
  function PairWeightAt(begin: nat, docId: nat, c: Competitor, p: nat): real {
    (if begin + docId == p then c.weight else 0.0) + (if begin + c.id == p then c.weight else 0.0)
  }

  /** Reference definition: the weight all pairs of one document add at `p`. */
  function CompetitorsWeightAt(begin: nat, docId: nat, cs: seq<Competitor>, p: nat): real
    decreases |cs|
  {
    if |cs| == 0 then 0.0
    else CompetitorsWeightAt(begin, docId, cs[..|cs| - 1], p) + PairWeightAt(begin, docId, cs[|cs| - 1], p)
  }

  /** Reference definition: the weight all pairs of the first |docs| documents
      of a query add at `p`. */
  function DocsWeightAt(begin: nat, docs: seq<seq<Competitor>>, p: nat): real
    decreases |docs|
  {
    if |docs| == 0 then 0.0
    else DocsWeightAt(begin, docs[..|docs| - 1], p) + CompetitorsWeightAt(begin, |docs| - 1, docs[|docs| - 1], p)
  }

  /** Reference definition: the weight all pairs of the queries add at `p`. */
  function QueriesWeightAt(queries: seq<QueryInfo>, p: nat): real
    decreases |queries|
  {
    if |queries| == 0 then 0.0
    else QueriesWeightAt(queries[..|queries| - 1], p)
         + DocsWeightAt(queries[|queries| - 1].begin, queries[|queries| - 1].competitors, p)
  }

  /** Total weight of the competitors of one document. */
  function CompetitorsWeight(cs: seq<Competitor>): real
    decreases |cs|
  {
    if |cs| == 0 then 0.0 else CompetitorsWeight(cs[..|cs| - 1]) + cs[|cs| - 1].weight
  }

  /** Total competitor weight of the documents of one query. */
  function DocsWeight(docs: seq<seq<Competitor>>): real
    decreases |docs|
  {
    if |docs| == 0 then 0.0 else DocsWeight(docs[..|docs| - 1]) + CompetitorsWeight(docs[|docs| - 1])
  }

  /** Total competitor weight of all queries. */
  function QueriesWeight(queries: seq<QueryInfo>): real
    decreases |queries|
  {
    if |queries| == 0 then 0.0
    else QueriesWeight(queries[..|queries| - 1]) + DocsWeight(queries[|queries| - 1].competitors)
  }

  /** The body of the innermost loop: one pair adds its weight at both ends. */
  function AddPair(weights: seq<real>, first: nat, second: nat, weight: real): (r: seq<real>)
    requires first < |weights| && second < |weights|
    ensures |r| == |weights|
    ensures forall p :: 0 <= p < |r| ==>
              r[p] == weights[p] + (if first == p then weight else 0.0) + (if second == p then weight else 0.0)
    ensures Sum(r) == Sum(weights) + 2.0 * weight
  {
    var once := weights[first := weights[first] + weight];
    SumUpdate(weights, first, weight);
    SumUpdate(once, second, weight);
    once[second := once[second] + weight]
  }

  /** The innermost loop of CalcPairwiseWeights: every pair of document
      `begin + docId` adds its weight at both of its ends. */
  method AddCompetitors(weights: seq<real>, begin: nat, docId: nat, cs: seq<Competitor>) returns (r: seq<real>)
    requires DocPairsInRange(begin, docId, cs, |weights|)
    ensures |r| == |weights|
    ensures forall p :: 0 <= p < |r| ==> r[p] == weights[p] + CompetitorsWeightAt(begin, docId, cs, p)
    ensures Sum(r) == Sum(weights) + 2.0 * CompetitorsWeight(cs)
  {
    r := weights;
    var i := 0;
    while i < |cs|
      invariant 0 <= i <= |cs|
      invariant |r| == |weights|
      invariant forall p :: 0 <= p < |r| ==> r[p] == weights[p] + CompetitorsWeightAt(begin, docId, cs[..i], p)
      invariant Sum(r) == Sum(weights) + 2.0 * CompetitorsWeight(cs[..i])
    {
      assert cs[..i + 1][..i] == cs[..i];
      r := AddPair(r, begin + docId, begin + cs[i].id, cs[i].weight);
      i := i + 1;
    }
    assert cs[..i] == cs;
  }

  /** The loop over the documents of one query. */
  method AddQuery(weights: seq<real>, query: QueryInfo) returns (r: seq<real>)
    requires QueryPairsInRange(query, |weights|)
    ensures |r| == |weights|
    ensures forall p :: 0 <= p < |r| ==> r[p] == weights[p] + DocsWeightAt(query.begin, query.competitors, p)
    ensures Sum(r) == Sum(weights) + 2.0 * DocsWeight(query.competitors)
  {
    var docs := query.competitors;
    r := weights;
    var docId := 0;
    while docId < |docs|
      invariant 0 <= docId <= |docs|
      invariant |r| == |weights|
      invariant forall p :: 0 <= p < |r| ==> r[p] == weights[p] + DocsWeightAt(query.begin, docs[..docId], p)
      invariant Sum(r) == Sum(weights) + 2.0 * DocsWeight(docs[..docId])
    {
      r := AddCompetitors(r, query.begin, docId, docs[docId]);
      assert docs[..docId + 1][..docId] == docs[..docId];
      docId := docId + 1;
    }
    assert docs[..docId] == docs;
  }

  /** CalcPairwiseWeights: the output keeps its length, is zeroed, and then
      every pair of the first `queriesCount` queries adds its weight at both
      of its ends. */
  method CalcPairwiseWeights(queriesInfo: seq<QueryInfo>, queriesCount: int, pairwiseWeights: seq<real>)
    returns (r: seq<real>)
    requires queriesCount <= |queriesInfo|
    requires PairsInRange(VisitedQueries(queriesInfo, queriesCount), |pairwiseWeights|)
    ensures |r| == |pairwiseWeights|
    ensures forall p :: 0 <= p < |r| ==> r[p] == QueriesWeightAt(VisitedQueries(queriesInfo, queriesCount), p)
    ensures Sum(r) == 2.0 * QueriesWeight(VisitedQueries(queriesInfo, queriesCount))
    ensures forall p :: 0 <= p < |r| && Untouched(VisitedQueries(queriesInfo, queriesCount), p) ==> r[p] == 0.0
  {
    var visited := VisitedQueries(queriesInfo, queriesCount);
    r := Zeros(|pairwiseWeights|);
    SumZeros(|pairwiseWeights|);
    var queryIndex := 0;
    while queryIndex < queriesCount
      invariant 0 <= queryIndex <= |visited|
      invariant queryIndex < queriesCount ==> queryIndex < |visited| && visited[queryIndex] == queriesInfo[queryIndex]
      invariant queriesCount > 0 ==> queryIndex <= queriesCount
      invariant |r| == |pairwiseWeights|
      invariant forall p :: 0 <= p < |r| ==> r[p] == QueriesWeightAt(visited[..queryIndex], p)
      invariant Sum(r) == 2.0 * QueriesWeight(visited[..queryIndex])
    {
      var query := queriesInfo[queryIndex];
      r := AddQuery(r, query);
      assert visited[..queryIndex + 1][..queryIndex] == visited[..queryIndex];
      assert visited[..queryIndex + 1][queryIndex] == query;
      queryIndex := queryIndex + 1;
    }
    assert visited[..queryIndex] == visited;
    forall p | 0 <= p < |r| && Untouched(visited, p)
      ensures r[p] == 0.0
    {
      UntouchedQueriesWeight(visited, p);
    }
  }

  lemma {:induction false} UntouchedCompetitorsWeight(begin: nat, docId: nat, cs: seq<Competitor>, p: nat)
    requires UntouchedByCompetitors(begin, docId, cs, p)
    ensures CompetitorsWeightAt(begin, docId, cs, p) == 0.0
    decreases |cs|
  {
    if |cs| > 0 {
      assert forall c :: 0 <= c < |cs| - 1 ==> cs[..|cs| - 1][c] == cs[c];
      UntouchedCompetitorsWeight(begin, docId, cs[..|cs| - 1], p);
    }
  }

  lemma {:induction false} UntouchedDocsWeight(begin: nat, docs: seq<seq<Competitor>>, p: nat)
    requires UntouchedByDocs(begin, docs, p)
    ensures DocsWeightAt(begin, docs, p) == 0.0
    decreases |docs|
  {
    if |docs| > 0 {
      var last := |docs| - 1;
      UntouchedDocsWeight(begin, docs[..last], p);
      UntouchedCompetitorsWeight(begin, last, docs[last], p);
    }
  }

  /** A position that no pair points at receives no weight. */
  lemma {:induction false} UntouchedQueriesWeight(queries: seq<QueryInfo>, p: nat)
    requires Untouched(queries, p)
    ensures QueriesWeightAt(queries, p) == 0.0
    decreases |queries|
  {
    if |queries| > 0 {
      var last := |queries| - 1;
      assert queries[..last][0..] == queries[..last];
      UntouchedQueriesWeight(queries[..last], p);
      UntouchedDocsWeight(queries[last].begin, queries[last].competitors, p);
    }
  }
}
