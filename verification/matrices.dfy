/** Rows, matrices and the scoring model, with exact `real` arithmetic
    standing in for numpy's floating point. */
module Matrices {

  /** One example: a vector of feature values. */
  type Row = seq<real>

  /** A two-dimensional array, one `Row` per example. */
  type Matrix = seq<Row>

  /** The black-box model, seen one row at a time: the score of a batch is
      the sum of the scores of its rows. */
  type Model = Row -> real

  /** Every row of `m` has exactly `width` columns (numpy arrays are rectangular). */
  predicate HasWidth(m: Matrix, width: nat) {
    forall i :: 0 <= i < |m| ==> |m[i]| == width
  }

  function Sum(xs: seq<real>): real {
    if |xs| == 0 then 0.0 else xs[0] + Sum(xs[1..])
  }

  /** `np.sum(model(batch))`: the total score of a batch of rows. */
  function BatchScore(model: Model, batch: Matrix): real {
    if |batch| == 0 then 0.0 else model(batch[0]) + BatchScore(model, batch[1..])
  }

  /** Sum of column `c` over the rows of `m`. */
  function ColumnSum(m: Matrix, c: nat): real
    requires forall i :: 0 <= i < |m| ==> c < |m[i]|
  {
    if |m| == 0 then 0.0 else m[0][c] + ColumnSum(m[1..], c)
  }

  /** Replacing one cell of a row changes its sum by exactly the change in that cell. */
  lemma {:induction false} SumDiffersInOneCell(a: Row, b: Row, i: nat)
    requires |a| == |b| && i < |a|
    requires forall c :: 0 <= c < |a| && c != i ==> a[c] == b[c]
    ensures Sum(a) - Sum(b) == a[i] - b[i]
  {
    if i == 0 {
      assert a[1..] == b[1..];
    } else {
      SumDiffersInOneCell(a[1..], b[1..], i - 1);
    }
  }
}
