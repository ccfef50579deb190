/** The estimation loop (`MarginalExplainer.explain`): for every target
    example and every requested feature, sum the per-batch differences over
    the batch partition of the budget and divide by `nsamples`. */
module Estimator {
  import opened Wrappers
  import opened Matrices
  import opened Config
  import opened Construct
  import opened Batching
  import opened Sampler
  import opened Contributions

  /** The errors `explain` can raise: `range` with a zero step, and the
      errors of sampling a batch. */
  datatype ExplainError = ZeroBatchSize | SamplingFailed(cause: SampleError)

  /** The difference one batch of background rows contributes to a main
      effect, for each representation. Whatever the representation, it is
      the sum of the contributions of the batch's rows: `number_to_draw *
      f(x)` pairs one `f(x)` with each drawn row. */
  function BatchDifference(rep: Representation, model: Model, target: Row, background: Matrix,
                           fi: FeatureIndex): (r: real)
    requires InRange(fi, |target|) && AllInRange(fi, background)
    ensures r == SumContributions(rep, model, target, background, fi)
  {
    MobiusDifferenceIsRowSum(model, target, background, fi);
    ComobiusDifferenceIsRowSum(model, target, background, fi);
    AverageContributionsAreMean(model, target, background, fi);
    var numberToDraw := |background| as real;
    var sampleVector := ConstructSampleVector(rep, target, background, fi);
    match rep
    case Mobius =>
      BatchScore(model, sampleVector.mobius) - BatchScore(model, background)
    case Comobius =>
      numberToDraw * model(target) - BatchScore(model, sampleVector.comobius)
    case Average =>
      var mobiusDiff := BatchScore(model, sampleVector.mobius) - BatchScore(model, background);
      var comobiusDiff := numberToDraw * model(target) - BatchScore(model, sampleVector.comobius);
      (mobiusDiff + comobiusDiff) * 0.5
  }

  /** Every index of every batch's draw is below `bound`. */
  predicate IndicesBelow(draws: seq<seq<nat>>, bound: int) {
    forall b, p :: 0 <= b < |draws| && 0 <= p < |draws[b]| ==> draws[b][p] < bound
  }

  /** One draw per batch, each of that batch's size, distinct and below `bound`. */
  predicate DrawsFit(draws: seq<seq<nat>>, sizes: seq<nat>, bound: int) {
    && |draws| == |sizes|
    && IndicesBelow(draws, bound)
    && forall b :: 0 <= b < |sizes| ==> |draws[b]| == sizes[b] && Distinct(draws[b])
  }

  lemma DrawsFitAreDraws(draws: seq<seq<nat>>, sizes: seq<nat>, bound: int, b: nat)
    requires DrawsFit(draws, sizes, bound) && b < |sizes|
    ensures IsDraw(draws[b], sizes[b], bound)
  {
  }

  lemma GatherInRange(data: Matrix, idx: seq<nat>, fi: FeatureIndex)
    requires AllInRange(fi, data)
    requires forall p :: 0 <= p < |idx| ==> idx[p] < |data|
    ensures AllInRange(fi, Gather(data, idx))
  {
  }

  /** The difference of each batch, for the background rows its draw selects. */
  function BatchDifferences(e: Explainer, target: Row, fi: FeatureIndex, draws: seq<seq<nat>>): (r: seq<real>)
    requires InRange(fi, |target|) && AllInRange(fi, e.data)
    requires e.nsamples <= |e.data| && IndicesBelow(draws, e.nsamples)
    ensures |r| == |draws|
  {
    seq(|draws|, b requires 0 <= b < |draws| =>
      GatherInRange(e.data, draws[b], fi);
      BatchDifference(e.representation, e.model, target, Gather(e.data, draws[b]), fi))
  }

  /** The inner loop over batches of sizes within the budget: sample,
      construct, difference, accumulate. It fails exactly when some batch
      runs in dependent mode, and otherwise returns the sum of the per-batch
      differences. */
  function Accumulate(e: Explainer, target: Row, fi: FeatureIndex, sizes: seq<nat>,
                      draws: seq<seq<nat>>): (r: Result<real, ExplainError>)
    requires e.nsamples <= |e.data|
    requires InRange(fi, |target|) && AllInRange(fi, e.data)
    requires forall b :: 0 <= b < |sizes| ==> sizes[b] <= e.nsamples
    requires DrawsFit(draws, sizes, e.nsamples)
    ensures r.Failure? <==> e.dependence == Dependent && |sizes| > 0
    ensures r.Failure? ==> r.error == SamplingFailed(UnboundSampleIndices)
    ensures r.Success? ==>
      r.value == Sum(BatchDifferences(e, target, fi, draws))
    decreases |sizes|
  {
    if |sizes| == 0 then Success(0.0)
    else
      DrawsFitAreDraws(draws, sizes, e.nsamples, 0);
      match SampleBackground(e, sizes[0], target, fi, draws[0])
      case Failure(err) => Failure(SamplingFailed(err))
      case Success(background) =>
        GatherInRange(e.data, draws[0], fi);
        assert background == Gather(e.data, draws[0]);
        var difference := BatchDifference(e.representation, e.model, target, background, fi);
        match Accumulate(e, target, fi, sizes[1..], draws[1..])
        case Failure(err) => Failure(err)
        case Success(rest) =>
          assert BatchDifferences(e, target, fi, draws)[1..] == BatchDifferences(e, target, fi, draws[1..]);
          Success(difference + rest)
  }

  /** Whether a cell's computation raises: a zero step for `range`; a
      batch reached in dependent mode, which happens when step and budget
      are both positive; or, when both are negative, a first batch of
      `min(nsamples, batch_size) < 0` rows, which sampling rejects in either
      mode. */
  predicate CellFails(e: Explainer, batchSize: int) {
    || batchSize == 0
    || (batchSize > 0 && e.nsamples > 0 && e.dependence == Dependent)
    || (batchSize < 0 && e.nsamples < 0)
  }

  /** The error a failing cell raises first. */
  function FailureOf(e: Explainer, batchSize: int): ExplainError {
    if batchSize == 0 then ZeroBatchSize
    else if e.dependence == Dependent then SamplingFailed(UnboundSampleIndices)
    else SamplingFailed(InvalidDrawSize)
  }

  /** One cell `main_effects[j, k]`: the accumulated differences divided by `nsamples`. */
  function CellEffect(e: Explainer, target: Row, fi: FeatureIndex, batchSize: int,
                      draws: seq<seq<nat>>): (r: Result<real, ExplainError>)
    requires e.nsamples != 0 && e.nsamples <= |e.data|
    requires InRange(fi, |target|) && AllInRange(fi, e.data)
    requires DrawsFit(draws, BatchSizes(e.nsamples, batchSize), e.nsamples)
    ensures r.Failure? <==> CellFails(e, batchSize)
    ensures r.Failure? ==> r.error == FailureOf(e, batchSize)
    ensures r.Success? ==>
      r.value == Sum(BatchDifferences(e, target, fi, draws)) / e.nsamples as real
  {
    if batchSize == 0 then Failure(ZeroBatchSize)
    else if batchSize < 0 && e.nsamples < 0 then
      // `range(0, nsamples, batch_size)` starts at 0, whose batch asks for
      // `min(nsamples, batch_size) - 0` rows.
      var first := SampleBackground(e, Min(e.nsamples, batchSize), target, fi, []);
      Failure(SamplingFailed(first.error))
    else
      match Accumulate(e, target, fi, BatchSizes(e.nsamples, batchSize), draws)
      case Failure(err) => Failure(err)
      case Success(total) => Success(total / e.nsamples as real)
  }

  /** Draws for one target example: one per requested feature. */
  predicate RowDrawsFit(draws: seq<seq<seq<nat>>>, features: nat, sizes: seq<nat>, bound: int) {
    && |draws| == features
    && forall k :: 0 <= k < features ==> DrawsFit(draws[k], sizes, bound)
  }

  /** The loop over features for one target example. */
  function ExplainRow(e: Explainer, target: Row, features: seq<FeatureIndex>, batchSize: int,
                      draws: seq<seq<seq<nat>>>): (r: Result<seq<real>, ExplainError>)
    requires e.nsamples != 0 && e.nsamples <= |e.data|
    requires forall k :: 0 <= k < |features| ==> InRange(features[k], |target|) && AllInRange(features[k], e.data)
    requires RowDrawsFit(draws, |features|, BatchSizes(e.nsamples, batchSize), e.nsamples)
    ensures r.Failure? <==> |features| > 0 && CellFails(e, batchSize)
    ensures r.Failure? ==> r.error == FailureOf(e, batchSize)
    ensures r.Success? ==> |r.value| == |features|
    ensures r.Success? ==> forall k :: 0 <= k < |features| ==>
      r.value[k] == Sum(BatchDifferences(e, target, features[k], draws[k])) / e.nsamples as real
    decreases |features|
  {
    if |features| == 0 then Success([])
    else
      match CellEffect(e, target, features[0], batchSize, draws[0])
      case Failure(err) => Failure(err)
      case Success(v) =>
        match ExplainRow(e, target, features[1..], batchSize, draws[1..])
        case Failure(err) => Failure(err)
        case Success(rest) => Success([v] + rest)
  }

  /** Draws for every target example and every requested feature. */
  predicate AllDrawsFit(draws: seq<seq<seq<seq<nat>>>>, rows: nat, features: nat, sizes: seq<nat>, bound: int) {
    && |draws| == rows
    && forall j :: 0 <= j < rows ==> RowDrawsFit(draws[j], features, sizes, bound)
  }

  /** The loop over target examples. */
  function ExplainRows(e: Explainer, x: Matrix, features: seq<FeatureIndex>, batchSize: int,
                       draws: seq<seq<seq<seq<nat>>>>): (r: Result<Matrix, ExplainError>)
    requires e.nsamples != 0 && e.nsamples <= |e.data|
    requires forall k :: 0 <= k < |features| ==> AllInRange(features[k], e.data)
    requires forall j, k :: 0 <= j < |x| && 0 <= k < |features| ==> InRange(features[k], |x[j]|)
    requires AllDrawsFit(draws, |x|, |features|, BatchSizes(e.nsamples, batchSize), e.nsamples)
    ensures r.Failure? <==> |x| > 0 && |features| > 0 && CellFails(e, batchSize)
    ensures r.Failure? ==> r.error == FailureOf(e, batchSize)
    ensures r.Success? ==> |r.value| == |x|
    ensures r.Success? ==> forall j :: 0 <= j < |x| ==> |r.value[j]| == |features|
    ensures r.Success? ==> forall j, k :: 0 <= j < |x| && 0 <= k < |features| ==>
      r.value[j][k] == Sum(BatchDifferences(e, x[j], features[k], draws[j][k])) / e.nsamples as real
    decreases |x|
  {
    if |x| == 0 then Success([])
    else
      match ExplainRow(e, x[0], features, batchSize, draws[0])
      case Failure(err) => Failure(err)
      case Success(row) =>
        match ExplainRows(e, x[1..], features, batchSize, draws[1..])
        case Failure(err) => Failure(err)
        case Success(rest) => Success([row] + rest)
  }

  /** `np.arange(X.shape[-1])`: every single feature, in column order. */
  function AllFeatures(width: nat): (r: seq<FeatureIndex>)
    ensures |r| == width
    ensures forall k :: 0 <= k < width ==> r[k] == Single(k) && InRange(r[k], width)
  {
    seq(width, k requires 0 <= k < width => Single(k))
  }

  /** The features `explain` works on: those requested, or all of them. */
  function Requested(featureIndices: Option<seq<FeatureIndex>>, width: nat): (r: seq<FeatureIndex>)
    ensures featureIndices.Some? ==> r == featureIndices.value
    ensures featureIndices.None? ==> |r| == width && forall k :: 0 <= k < width ==> r[k] == Single(k)
  {
    featureIndices.GetOr(AllFeatures(width))
  }

  /** `explain(X, feature_indices, batch_size)`: the main effect of every
      requested feature on every row of `x` (each row has `width` columns).
      The result has one row per example and one column per feature, each
      cell being the sum of its per-batch differences over `nsamples`; it
      fails exactly when some cell is computed and `CellFails` says it
      raises. */
  function Explain(e: Explainer, x: Matrix, width: nat, featureIndices: Option<seq<FeatureIndex>>,
                   batchSize: int, draws: seq<seq<seq<seq<nat>>>>): (r: Result<Matrix, ExplainError>)
    requires e.nsamples != 0 && e.nsamples <= |e.data|
    requires HasWidth(x, width) && HasWidth(e.data, width)
    requires forall k :: 0 <= k < |Requested(featureIndices, width)| ==> InRange(Requested(featureIndices, width)[k], width)
    requires AllDrawsFit(draws, |x|, |Requested(featureIndices, width)|, BatchSizes(e.nsamples, batchSize), e.nsamples)
    ensures var features := Requested(featureIndices, width);
      r.Failure? <==> |x| > 0 && |features| > 0 && CellFails(e, batchSize)
    ensures r.Failure? ==> r.error == FailureOf(e, batchSize)
    ensures r.Success? ==> |r.value| == |x|
    ensures r.Success? ==> forall j :: 0 <= j < |x| ==> |r.value[j]| == |Requested(featureIndices, width)|
    ensures r.Success? && featureIndices.None? ==> forall j :: 0 <= j < |x| ==> |r.value[j]| == width
    ensures r.Success? ==> var features := Requested(featureIndices, width);
      forall j, k :: 0 <= j < |x| && 0 <= k < |features| ==>
        r.value[j][k] == Sum(BatchDifferences(e, x[j], features[k], draws[j][k])) / e.nsamples as real
  {
    ExplainRows(e, x, Requested(featureIndices, width), batchSize, draws)
  }
}
