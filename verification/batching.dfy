/** The batch partition of `explain`: `for i in range(0, nsamples, batch_size)`
    with `number_to_draw = min(nsamples, i + batch_size) - i`. */
module Batching {

  function Total(sizes: seq<nat>): nat {
    if |sizes| == 0 then 0 else sizes[0] + Total(sizes[1..])
  }

  function Min(a: int, b: int): int {
    if a <= b then a else b
  }

  /** The sizes of the batches whose offsets run from `offset` up to
      `nsamples` in steps of `batchSize`. */
  function BatchSizesFrom(offset: nat, nsamples: nat, batchSize: nat): (r: seq<nat>)
    requires batchSize > 0
    ensures forall b :: 0 <= b < |r| ==> 1 <= r[b] <= batchSize && r[b] <= nsamples - offset
    ensures offset <= nsamples ==> Total(r) == nsamples - offset
    ensures |r| == 0 <==> nsamples <= offset
    decreases nsamples - offset
  {
    if offset >= nsamples then []
    else [Min(nsamples, offset + batchSize) - offset] + BatchSizesFrom(offset + batchSize, nsamples, batchSize)
  }

  /** The sizes `number_to_draw` of the batches of `explain`, in order, for
      a positive step. A negative step gives Python an empty range when the
      budget is not negative; with a negative budget its first batch asks
      for a negative number of rows, and a zero step raises before any
      batch: the caller handles both. */
  function BatchSizes(nsamples: int, batchSize: int): (r: seq<nat>)
    ensures forall b :: 0 <= b < |r| ==> 1 <= r[b] <= batchSize && r[b] <= nsamples
    ensures batchSize > 0 && nsamples >= 0 ==> Total(r) == nsamples
    ensures |r| == 0 <==> nsamples <= 0 || batchSize <= 0
  {
    if batchSize <= 0 || nsamples <= 0 then [] else BatchSizesFrom(0, nsamples, batchSize)
  }

  /** Batch `b` is the one at offset `offset + b * batchSize` of the Python
      range, and has size `min(nsamples, i + batchSize) - i` for its offset
      `i`; the number of batches is the least `k` with `k * batchSize`
      covering what remains of the budget. */
  lemma {:induction false} BatchSizesFromMatchRange(offset: nat, nsamples: nat, batchSize: nat)
    requires batchSize > 0
    ensures var r := BatchSizesFrom(offset, nsamples, batchSize);
      && (offset < nsamples ==> (|r| - 1) * batchSize < nsamples - offset <= |r| * batchSize)
      && forall b :: 0 <= b < |r| ==>
           r[b] == Min(nsamples, offset + b * batchSize + batchSize) - (offset + b * batchSize)
    decreases nsamples - offset
  {
    var r := BatchSizesFrom(offset, nsamples, batchSize);
    if offset < nsamples {
      var next := offset + batchSize;
      BatchSizesFromMatchRange(next, nsamples, batchSize);
      var rest := BatchSizesFrom(next, nsamples, batchSize);
      assert r == [Min(nsamples, offset + batchSize) - offset] + rest;
      assert |r| * batchSize == |rest| * batchSize + batchSize;
      forall b | 1 <= b < |r|
        ensures r[b] == Min(nsamples, offset + b * batchSize + batchSize) - (offset + b * batchSize)
      {
        assert r[b] == rest[b - 1];
        assert next + (b - 1) * batchSize == offset + b * batchSize;
      }
    }
  }

  /** The same statement for the batches of `explain`, which start at offset
      0; every batch except the last is full. */
  lemma BatchSizesMatchRange(nsamples: nat, batchSize: nat)
    requires batchSize > 0
    ensures var r := BatchSizes(nsamples, batchSize);
      && (0 < nsamples ==> (|r| - 1) * batchSize < nsamples <= |r| * batchSize)
      && (forall b :: 0 <= b < |r| ==> r[b] == Min(nsamples, b * batchSize + batchSize) - b * batchSize)
      && (forall b :: 0 <= b < |r| - 1 ==> r[b] == batchSize)
  {
    var r := BatchSizes(nsamples, batchSize);
    assert r == BatchSizesFrom(0, nsamples, batchSize);
    BatchSizesFromMatchRange(0, nsamples, batchSize);
    forall b | 0 <= b < |r| - 1
      ensures r[b] == batchSize
    {
      MulMono(b + 1, |r| - 1, batchSize);
      assert (b + 1) * batchSize == b * batchSize + batchSize;
      assert r[b] == Min(nsamples, b * batchSize + batchSize) - b * batchSize;
    }
  }

  lemma MulMono(a: int, b: int, c: nat)
    requires a <= b
    ensures a * c <= b * c
  {
  }
}
