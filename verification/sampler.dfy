/** Background sampling (`MarginalExplainer._sample_background`). The random
    draw of `np.random.choice(nsamples, n, replace=False)` is supplied by the
    caller as a sequence of row indices. */
module Sampler {
  import opened Wrappers
  import opened Matrices
  import opened Config
  import opened Construct

  predicate Distinct(idx: seq<nat>) {
    forall p, q :: 0 <= p < q < |idx| ==> idx[p] != idx[q]
  }

  /** What a draw without replacement of `n` indices out of `range(bound)` can return. */
  predicate IsDraw(idx: seq<nat>, n: nat, bound: int) {
    && |idx| == n
    && Distinct(idx)
    && forall p :: 0 <= p < |idx| ==> idx[p] < bound
  }

  /** `data[idx]`: the rows of `data` at the given indices, in order. */
  function Gather(data: Matrix, idx: seq<nat>): (r: Matrix)
    requires forall p :: 0 <= p < |idx| ==> idx[p] < |data|
    ensures |r| == |idx|
    ensures forall p :: 0 <= p < |r| ==> r[p] == data[idx[p]]
  {
    seq(|idx|, p requires 0 <= p < |idx| => data[idx[p]])
  }

  lemma GatherAppend(data: Matrix, a: seq<nat>, b: seq<nat>)
    requires forall p :: 0 <= p < |a| ==> a[p] < |data|
    requires forall p :: 0 <= p < |b| ==> b[p] < |data|
    ensures Gather(data, a + b) == Gather(data, a) + Gather(data, b)
  {
  }

  /** Why sampling raises: `np.random.choice(nsamples, n, replace=False)`
      rejects a negative `n` and an `n` above `nsamples` (`ValueError`), and
      the dependent branch reads `sample_indices` before any assignment
      (`UnboundLocalError`). */
  datatype SampleError = InvalidDrawSize | UnboundSampleIndices

  /** Draws `numberToDraw` background rows. Independent sampling returns the
      rows at the supplied distinct indices, all among the first `nsamples`
      rows of the data, when the size is one `np.random.choice` accepts;
      dependent sampling fails. */
  function SampleBackground(e: Explainer, numberToDraw: int, target: Row, fi: FeatureIndex,
                            draw: seq<nat>): (r: Result<Matrix, SampleError>)
    requires e.nsamples <= |e.data|
    requires 0 <= numberToDraw <= e.nsamples ==> IsDraw(draw, numberToDraw, e.nsamples)
    ensures r.Success? <==> e.dependence == Independent && 0 <= numberToDraw <= e.nsamples
    ensures r.Failure? && e.dependence == Dependent ==> r.error == UnboundSampleIndices
    ensures r.Failure? && e.dependence == Independent ==> r.error == InvalidDrawSize
    ensures r.Success? ==> |r.value| == numberToDraw
    ensures r.Success? ==> forall p :: 0 <= p < numberToDraw ==> r.value[p] == e.data[draw[p]]
    ensures r.Success? ==> forall p :: 0 <= p < numberToDraw ==> r.value[p] in e.data[..e.nsamples]
  {
    match e.dependence
    case Independent =>
      if numberToDraw < 0 || e.nsamples < numberToDraw then Failure(InvalidDrawSize)
      else Success(Gather(e.data, draw))
    case Dependent => Failure(UnboundSampleIndices)
  }

  /** Drawing `n` distinct indices below `bound` is possible only when
      `n <= bound`: this is why `number_to_draw` never exceeds `nsamples`. */
  lemma {:induction false} DrawFitsBudget(idx: seq<nat>, n: nat, bound: nat)
    requires IsDraw(idx, n, bound)
    ensures n <= bound
    decreases bound
  {
    if n > 0 {
      assert idx[0] < bound;
      var top := bound - 1;
      if q :| 0 <= q < |idx| && idx[q] == top {
        var rest := idx[..q] + idx[q + 1..];
        forall p | 0 <= p < |rest|
          ensures rest[p] < top
        {
          if p < q {
            assert rest[p] == idx[p];
          } else {
            assert rest[p] == idx[p + 1];
          }
        }
        forall p, p' | 0 <= p < p' < |rest|
          ensures rest[p] != rest[p']
        {
          var i := if p < q then p else p + 1;
          var i' := if p' < q then p' else p' + 1;
          assert rest[p] == idx[i] && rest[p'] == idx[i'];
        }
        DrawFitsBudget(rest, n - 1, top);
      } else {
        DrawFitsBudget(idx, n, top);
      }
    }
  }

  /** Conversely every budget up to `bound` admits a draw: the first `n` indices. */
  lemma DrawExists(n: nat, bound: int)
    requires n <= bound
    ensures IsDraw(seq(n, p => p), n, bound)
  {
  }
}
