/** Properties of the estimator: each batch difference is a sum of per-row
    contributions, so a cell is the mean contribution over all the rows
    drawn for it. From this follow batch-size invariance, the zero effect of
    a model that ignores the feature, the averaging identity and the value
    of the estimate for the sum-of-inputs model. */
module Properties {
  import opened Wrappers
  import opened Matrices
  import opened Config
  import opened Construct
  import opened Batching
  import opened Sampler
  import opened Contributions
  import opened Estimator

  /** On the same background rows, the `average` difference is the mean of
      the Möbius and co-Möbius differences. */
  lemma {:induction false} AverageDifferenceIsMean(model: Model, target: Row, background: Matrix, fi: FeatureIndex)
    requires InRange(fi, |target|) && AllInRange(fi, background)
    ensures BatchDifference(Average, model, target, background, fi)
         == (BatchDifference(Mobius, model, target, background, fi)
             + BatchDifference(Comobius, model, target, background, fi)) / 2.0
  {
  }

  /** All the indices drawn for one cell, batch after batch. */
  function Flatten(draws: seq<seq<nat>>): seq<nat> {
    if |draws| == 0 then [] else draws[0] + Flatten(draws[1..])
  }

  /** All the background rows drawn for one cell, batch after batch. */
  function DrawnRows(data: Matrix, draws: seq<seq<nat>>): (r: Matrix)
    requires IndicesBelow(draws, |data|)
    ensures forall p :: 0 <= p < |r| ==> r[p] in data
  {
    if |draws| == 0 then [] else Gather(data, draws[0]) + DrawnRows(data, draws[1..])
  }

  /** The drawn rows are the rows at the flattened indices, so they depend
      only on the indices drawn and not on how they are split into batches. */
  lemma {:induction false} DrawnRowsAreGatheredFlatten(data: Matrix, draws: seq<seq<nat>>)
    requires IndicesBelow(draws, |data|)
    ensures forall p :: 0 <= p < |Flatten(draws)| ==> Flatten(draws)[p] < |data|
    ensures DrawnRows(data, draws) == Gather(data, Flatten(draws))
  {
    if |draws| > 0 {
      DrawnRowsAreGatheredFlatten(data, draws[1..]);
      GatherAppend(data, draws[0], Flatten(draws[1..]));
    }
  }

  lemma {:induction false} DrawnRowsCount(data: Matrix, draws: seq<seq<nat>>, sizes: seq<nat>, bound: int)
    requires bound <= |data| && DrawsFit(draws, sizes, bound)
    ensures |DrawnRows(data, draws)| == Total(sizes)
  {
    if |draws| > 0 {
      DrawnRowsCount(data, draws[1..], sizes[1..], bound);
    }
  }

  /** Summing the batch differences is summing the contributions of all the
      drawn rows, however they are split into batches. */
  lemma {:induction false} BatchDifferencesAreContributions(e: Explainer, target: Row, fi: FeatureIndex,
                                                           draws: seq<seq<nat>>)
    requires e.nsamples <= |e.data|
    requires InRange(fi, |target|) && AllInRange(fi, e.data)
    requires IndicesBelow(draws, e.nsamples)
    ensures Sum(BatchDifferences(e, target, fi, draws))
         == SumContributions(e.representation, e.model, target, DrawnRows(e.data, draws), fi)
  {
    var diffs := BatchDifferences(e, target, fi, draws);
    if |draws| > 0 {
      var rest := draws[1..];
      assert diffs[1..] == BatchDifferences(e, target, fi, rest);
      BatchDifferencesAreContributions(e, target, fi, rest);
      SumContributionsAppend(e.representation, e.model, target, Gather(e.data, draws[0]), DrawnRows(e.data, rest), fi);
    }
  }

  /** In independent mode a cell is the mean contribution over exactly
      `nsamples` drawn rows. */
  lemma {:induction false} CellIsMeanContribution(e: Explainer, target: Row, fi: FeatureIndex, batchSize: int, draws: seq<seq<nat>>)
    requires 0 < e.nsamples <= |e.data|
    requires InRange(fi, |target|) && AllInRange(fi, e.data)
    requires DrawsFit(draws, BatchSizes(e.nsamples, batchSize), e.nsamples)
    requires batchSize > 0 && e.dependence == Independent
    ensures CellEffect(e, target, fi, batchSize, draws).Success?
    ensures |DrawnRows(e.data, draws)| == e.nsamples
    ensures CellEffect(e, target, fi, batchSize, draws).value
         == SumContributions(e.representation, e.model, target, DrawnRows(e.data, draws), fi) / e.nsamples as real
  {
    DrawnRowsCount(e.data, draws, BatchSizes(e.nsamples, batchSize), e.nsamples);
    BatchDifferencesAreContributions(e, target, fi, draws);
  }

  /** Changing the batch size while drawing the same rows in the same order
      does not change a cell. */
  lemma {:induction false} BatchSizeInvariance(e: Explainer, target: Row, fi: FeatureIndex,
                            batchSize1: int, draws1: seq<seq<nat>>,
                            batchSize2: int, draws2: seq<seq<nat>>)
    requires e.nsamples != 0 && e.nsamples <= |e.data|
    requires InRange(fi, |target|) && AllInRange(fi, e.data)
    requires batchSize1 > 0 && batchSize2 > 0
    requires DrawsFit(draws1, BatchSizes(e.nsamples, batchSize1), e.nsamples)
    requires DrawsFit(draws2, BatchSizes(e.nsamples, batchSize2), e.nsamples)
    requires Flatten(draws1) == Flatten(draws2)
    ensures CellEffect(e, target, fi, batchSize1, draws1) == CellEffect(e, target, fi, batchSize2, draws2)
  {
    if e.nsamples > 0 && e.dependence == Independent {
      CellIsMeanContribution(e, target, fi, batchSize1, draws1);
      CellIsMeanContribution(e, target, fi, batchSize2, draws2);
      DrawnRowsAreGatheredFlatten(e.data, draws1);
      DrawnRowsAreGatheredFlatten(e.data, draws2);
    }
  }

  /** Two rows of equal length that differ at most in the columns of `fi`. */
  predicate AgreeOutside(r: Row, s: Row, fi: FeatureIndex) {
    && |r| == |s|
    && forall c :: 0 <= c < |r| && c !in Columns(fi) ==> r[c] == s[c]
  }

  /** The model's score does not depend on the columns of `fi`. */
  ghost predicate Ignores(model: Model, fi: FeatureIndex) {
    forall r, s :: AgreeOutside(r, s, fi) ==> model(r) == model(s)
  }

  lemma {:induction false} IgnoredFeatureContributesNothing(rep: Representation, model: Model, target: Row,
                                                           background: Matrix, fi: FeatureIndex)
    requires InRange(fi, |target|) && AllInRange(fi, background)
    requires Ignores(model, fi)
    ensures SumContributions(rep, model, target, background, fi) == 0.0
  {
    if |background| > 0 {
      var b := background[0];
      assert AgreeOutside(Overwrite(b, fi, target), b, fi);
      assert AgreeOutside(target, Overwrite(target, fi, b), fi);
      IgnoredFeatureContributesNothing(rep, model, target, background[1..], fi);
    }
  }

  lemma {:induction false} IgnoredFeatureCell(e: Explainer, target: Row, fi: FeatureIndex, draws: seq<seq<nat>>)
    requires e.nsamples <= |e.data|
    requires InRange(fi, |target|) && AllInRange(fi, e.data)
    requires IndicesBelow(draws, e.nsamples)
    requires Ignores(e.model, fi)
    ensures Sum(BatchDifferences(e, target, fi, draws)) == 0.0
  {
    BatchDifferencesAreContributions(e, target, fi, draws);
    IgnoredFeatureContributesNothing(e.representation, e.model, target, DrawnRows(e.data, draws), fi);
  }

  /** A model that ignores every requested feature gets main effect 0 for
      each of them, on every example and in every representation. */
  lemma {:induction false} IgnoredFeaturesHaveNoEffect(e: Explainer, x: Matrix, width: nat, featureIndices: Option<seq<FeatureIndex>>,
                                    batchSize: int, draws: seq<seq<seq<seq<nat>>>>)
    requires e.nsamples != 0 && e.nsamples <= |e.data|
    requires HasWidth(x, width) && HasWidth(e.data, width)
    requires forall k :: 0 <= k < |Requested(featureIndices, width)| ==> InRange(Requested(featureIndices, width)[k], width)
    requires AllDrawsFit(draws, |x|, |Requested(featureIndices, width)|, BatchSizes(e.nsamples, batchSize), e.nsamples)
    requires forall k :: 0 <= k < |Requested(featureIndices, width)| ==> Ignores(e.model, Requested(featureIndices, width)[k])
    ensures var r := Explain(e, x, width, featureIndices, batchSize, draws);
      r.Success? ==> forall j, k :: 0 <= j < |r.value| && 0 <= k < |r.value[j]| ==> r.value[j][k] == 0.0
  {
    var features := Requested(featureIndices, width);
    var r := Explain(e, x, width, featureIndices, batchSize, draws);
    if r.Success? {
      forall j, k | 0 <= j < |r.value| && 0 <= k < |r.value[j]|
        ensures r.value[j][k] == 0.0
      {
        assert r.value[j][k] == Sum(BatchDifferences(e, x[j], features[k], draws[j][k])) / e.nsamples as real;
        IgnoredFeatureCell(e, x[j], features[k], draws[j][k]);
      }
    }
  }

  /** With a constant model every main effect is 0. */
  lemma {:induction false} ConstantModelHasNoEffect(e: Explainer, x: Matrix, width: nat, featureIndices: Option<seq<FeatureIndex>>,
                                 batchSize: int, draws: seq<seq<seq<seq<nat>>>>, score: real)
    requires e.nsamples != 0 && e.nsamples <= |e.data|
    requires HasWidth(x, width) && HasWidth(e.data, width)
    requires forall k :: 0 <= k < |Requested(featureIndices, width)| ==> InRange(Requested(featureIndices, width)[k], width)
    requires AllDrawsFit(draws, |x|, |Requested(featureIndices, width)|, BatchSizes(e.nsamples, batchSize), e.nsamples)
    requires forall row :: e.model(row) == score
    ensures var r := Explain(e, x, width, featureIndices, batchSize, draws);
      r.Success? ==> forall j, k :: 0 <= j < |r.value| && 0 <= k < |r.value[j]| ==> r.value[j][k] == 0.0
  {
    var features := Requested(featureIndices, width);
    forall k | 0 <= k < |features|
      ensures Ignores(e.model, features[k])
    {
    }
    IgnoredFeaturesHaveNoEffect(e, x, width, featureIndices, batchSize, draws);
  }

  /** The constructor accepts a negative budget. With a positive step the
      range of batches is then empty, and every cell is `0 / nsamples`. */
  lemma {:induction false} NegativeBudgetGivesZeros(e: Explainer, x: Matrix, width: nat, featureIndices: Option<seq<FeatureIndex>>,
                                 batchSize: int, draws: seq<seq<seq<seq<nat>>>>)
    requires e.nsamples < 0 && batchSize > 0
    requires HasWidth(x, width) && HasWidth(e.data, width)
    requires forall k :: 0 <= k < |Requested(featureIndices, width)| ==> InRange(Requested(featureIndices, width)[k], width)
    requires AllDrawsFit(draws, |x|, |Requested(featureIndices, width)|, BatchSizes(e.nsamples, batchSize), e.nsamples)
    ensures var r := Explain(e, x, width, featureIndices, batchSize, draws);
      r.Success? && forall j, k :: 0 <= j < |r.value| && 0 <= k < |r.value[j]| ==> r.value[j][k] == 0.0
  {
    var features := Requested(featureIndices, width);
    var r := Explain(e, x, width, featureIndices, batchSize, draws);
    forall j, k | 0 <= j < |r.value| && 0 <= k < |r.value[j]|
      ensures r.value[j][k] == 0.0
    {
      assert |draws[j][k]| == 0;
      assert r.value[j][k] == Sum(BatchDifferences(e, x[j], features[k], draws[j][k])) / e.nsamples as real;
    }
  }

  lemma {:induction false} AverageCell(e: Explainer, target: Row, fi: FeatureIndex, draws: seq<seq<nat>>)
    requires e.nsamples <= |e.data|
    requires InRange(fi, |target|) && AllInRange(fi, e.data)
    requires IndicesBelow(draws, e.nsamples)
    ensures Sum(BatchDifferences(e.(representation := Average), target, fi, draws))
         == (Sum(BatchDifferences(e.(representation := Mobius), target, fi, draws))
             + Sum(BatchDifferences(e.(representation := Comobius), target, fi, draws))) / 2.0
  {
    BatchDifferencesAreContributions(e.(representation := Average), target, fi, draws);
    BatchDifferencesAreContributions(e.(representation := Mobius), target, fi, draws);
    BatchDifferencesAreContributions(e.(representation := Comobius), target, fi, draws);
    AverageContributionsAreMean(e.model, target, DrawnRows(e.data, draws), fi);
  }

  lemma {:induction false} MeanOfMeans(a: real, m: real, c: real, n: real)
    requires n != 0.0 && a == (m + c) / 2.0
    ensures a / n == (m / n + c / n) / 2.0
  {
  }

  /** On the same draws, the `average` representation's result is the mean of
      what `mobius` and `comobius` compute, and all three fail together. */
  lemma {:induction false} AverageIsMeanOfRepresentations(e: Explainer, x: Matrix, width: nat, featureIndices: Option<seq<FeatureIndex>>,
                                       batchSize: int, draws: seq<seq<seq<seq<nat>>>>)
    requires e.nsamples != 0 && e.nsamples <= |e.data|
    requires HasWidth(x, width) && HasWidth(e.data, width)
    requires forall k :: 0 <= k < |Requested(featureIndices, width)| ==> InRange(Requested(featureIndices, width)[k], width)
    requires AllDrawsFit(draws, |x|, |Requested(featureIndices, width)|, BatchSizes(e.nsamples, batchSize), e.nsamples)
    ensures var average := Explain(e.(representation := Average), x, width, featureIndices, batchSize, draws);
      var mobius := Explain(e.(representation := Mobius), x, width, featureIndices, batchSize, draws);
      var comobius := Explain(e.(representation := Comobius), x, width, featureIndices, batchSize, draws);
      && (average.Success? <==> mobius.Success?)
      && (average.Success? <==> comobius.Success?)
      && (average.Success? ==>
            forall j, k :: 0 <= j < |average.value| && 0 <= k < |average.value[j]| ==>
              average.value[j][k] == (mobius.value[j][k] + comobius.value[j][k]) / 2.0)
  {
    var features := Requested(featureIndices, width);
    var average := Explain(e.(representation := Average), x, width, featureIndices, batchSize, draws);
    var mobius := Explain(e.(representation := Mobius), x, width, featureIndices, batchSize, draws);
    var comobius := Explain(e.(representation := Comobius), x, width, featureIndices, batchSize, draws);
    if average.Success? {
      forall j, k | 0 <= j < |average.value| && 0 <= k < |average.value[j]|
        ensures average.value[j][k] == (mobius.value[j][k] + comobius.value[j][k]) / 2.0
      {
        var cell := draws[j][k];
        AverageCell(e, x[j], features[k], cell);
        MeanOfMeans(Sum(BatchDifferences(e.(representation := Average), x[j], features[k], cell)),
                    Sum(BatchDifferences(e.(representation := Mobius), x[j], features[k], cell)),
                    Sum(BatchDifferences(e.(representation := Comobius), x[j], features[k], cell)),
                    e.nsamples as real);
      }
    }
  }

  /** The model that scores a row by the sum of its inputs. */
  function SumOfInputs(row: Row): real {
    Sum(row)
  }

  /** For the sum-of-inputs model, the contributions to the Möbius effect
      of a single feature `i` are `target[i] - b[i]`. */
  lemma {:induction false} SumModelContributions(model: Model, target: Row, background: Matrix, i: nat)
    requires i < |target| && AllInRange(Single(i), background)
    requires model == SumOfInputs
    ensures SumContributions(Mobius, model, target, background, Single(i))
         == |background| as real * target[i] - ColumnSum(background, i)
  {
    if |background| > 0 {
      var b := background[0];
      var o := Overwrite(b, Single(i), target);
      forall c | 0 <= c < |o| && c != i
        ensures o[c] == b[c]
      {
        assert c !in Columns(Single(i));
      }
      SumDiffersInOneCell(o, b, i);
      assert RowContribution(Mobius, model, target, b, Single(i)) == target[i] - b[i];
      SumModelContributions(model, target, background[1..], i);
      var n := |background| as real;
      assert n * target[i] == (n - 1.0) * target[i] + target[i];
    }
  }

  /** The mean contribution over the drawn rows, for the sum-of-inputs model. */
  lemma {:induction false} SumModelMean(model: Model, target: Row, rows: Matrix, i: nat)
    requires |rows| > 0 && i < |target| && AllInRange(Single(i), rows)
    requires model == SumOfInputs
    ensures SumContributions(Mobius, model, target, rows, Single(i)) / |rows| as real
         == target[i] - ColumnSum(rows, i) / |rows| as real
  {
    SumModelContributions(model, target, rows, i);
    MeanOfDifference(SumContributions(Mobius, model, target, rows, Single(i)), |rows|, target[i], ColumnSum(rows, i));
  }

  lemma {:induction false} MeanOfDifference(total: real, k: nat, t: real, s: real)
    requires k > 0 && total == k as real * t - s
    ensures total / k as real == t - s / k as real
  {
    var n := k as real;
    assert total / n == (n * t - s) / n;
  }

  /** For the sum-of-inputs model in Möbius representation, the main effect
      of feature `i` is the target's value minus the mean of that column
      over the drawn background rows, whatever rows are drawn. */
  lemma {:induction false} SumModelMobiusEffect(e: Explainer, target: Row, i: nat, batchSize: int, draws: seq<seq<nat>>)
    requires 0 < e.nsamples <= |e.data|
    requires i < |target| && AllInRange(Single(i), e.data)
    requires DrawsFit(draws, BatchSizes(e.nsamples, batchSize), e.nsamples)
    requires batchSize > 0 && e.dependence == Independent && e.representation == Mobius
    requires e.model == SumOfInputs
    ensures CellEffect(e, target, Single(i), batchSize, draws).Success?
    ensures CellEffect(e, target, Single(i), batchSize, draws).value
         == target[i] - ColumnSum(DrawnRows(e.data, draws), i) / e.nsamples as real
  {
    CellIsMeanContribution(e, target, Single(i), batchSize, draws);
    SumModelMean(e.model, target, DrawnRows(e.data, draws), i);
  }
}
