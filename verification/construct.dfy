/** The vector constructor (`MarginalExplainer._construct_sample_vector`):
    the Möbius matrix x_S and the co-Möbius matrix x_{N\S}. */
module Construct {
  import opened Matrices
  import opened Config

  /** A feature of interest: one column, or a pair of columns treated jointly. */
  datatype FeatureIndex = Single(col: nat) | Pair(first: nat, second: nat)

  function Columns(fi: FeatureIndex): set<nat> {
    match fi
    case Single(c) => {c}
    case Pair(a, b) => {a, b}
  }

  /** Every column of `fi` exists in a row of `width` columns. */
  predicate InRange(fi: FeatureIndex, width: nat) {
    match fi
    case Single(c) => c < width
    case Pair(a, b) => a < width && b < width
  }

  /** Every row of `m` has the columns of `fi`. */
  predicate AllInRange(fi: FeatureIndex, m: Matrix) {
    forall i :: 0 <= i < |m| ==> InRange(fi, |m[i]|)
  }

  lemma ColumnsInRange(fi: FeatureIndex, width: nat, c: nat)
    requires InRange(fi, width) && c in Columns(fi)
    ensures c < width
  {
  }

  /** `row[:, fi] = src[fi]` on a copy of one row. */
  function Overwrite(row: Row, fi: FeatureIndex, src: Row): (r: Row)
    requires InRange(fi, |row|) && InRange(fi, |src|)
    ensures |r| == |row|
    ensures forall c :: 0 <= c < |r| && c in Columns(fi) ==> r[c] == src[c]
    ensures forall c :: 0 <= c < |r| && c !in Columns(fi) ==> r[c] == row[c]
  {
    seq(|row|, c requires 0 <= c < |row| => if c in Columns(fi) then (ColumnsInRange(fi, |src|, c); src[c]) else row[c])
  }

  /** The Möbius matrix: each background row with the target's values in the
      columns of `fi`; every other cell is the background row's. */
  function MobiusVector(target: Row, background: Matrix, fi: FeatureIndex): (r: Matrix)
    requires InRange(fi, |target|) && AllInRange(fi, background)
    ensures |r| == |background|
    ensures forall i :: 0 <= i < |r| ==> |r[i]| == |background[i]|
    ensures forall i, c :: 0 <= i < |r| && 0 <= c < |r[i]| && c in Columns(fi) ==> r[i][c] == target[c]
    ensures forall i, c :: 0 <= i < |r| && 0 <= c < |r[i]| && c !in Columns(fi) ==> r[i][c] == background[i][c]
  {
    seq(|background|, i requires 0 <= i < |background| => Overwrite(background[i], fi, target))
  }

  /** The co-Möbius matrix: the target tiled once per background row, with
      that background row's values in the columns of `fi`. */
  function ComobiusVector(target: Row, background: Matrix, fi: FeatureIndex): (r: Matrix)
    requires InRange(fi, |target|) && AllInRange(fi, background)
    ensures |r| == |background|
    ensures HasWidth(r, |target|)
    ensures forall i, c :: 0 <= i < |r| && 0 <= c < |target| && c in Columns(fi) ==> r[i][c] == background[i][c]
    ensures forall i, c :: 0 <= i < |r| && 0 <= c < |target| && c !in Columns(fi) ==> r[i][c] == target[c]
  {
    seq(|background|, i requires 0 <= i < |background| => Overwrite(target, fi, background[i]))
  }

  /** What the constructor returns for each representation. */
  datatype SampleVector =
    | MobiusOnly(mobius: Matrix)
    | ComobiusOnly(comobius: Matrix)
    | Both(mobius: Matrix, comobius: Matrix)

  function ConstructSampleVector(rep: Representation, target: Row, background: Matrix, fi: FeatureIndex): (r: SampleVector)
    requires InRange(fi, |target|) && AllInRange(fi, background)
    ensures r.MobiusOnly? <==> rep == Mobius
    ensures r.ComobiusOnly? <==> rep == Comobius
    ensures r.Both? <==> rep == Average
    ensures (r.MobiusOnly? || r.Both?) ==> r.mobius == MobiusVector(target, background, fi)
    ensures (r.ComobiusOnly? || r.Both?) ==> r.comobius == ComobiusVector(target, background, fi)
  {
    var mobiusVector := MobiusVector(target, background, fi);
    var comobiusVector := ComobiusVector(target, background, fi);
    match rep
    case Mobius => MobiusOnly(mobiusVector)
    case Comobius => ComobiusOnly(comobiusVector)
    case Average => Both(mobiusVector, comobiusVector)
  }

  /** Row `i` of the co-Möbius matrix is the Möbius construction with the
      roles of target and background row exchanged. */
  lemma ComobiusIsSwappedMobius(target: Row, background: Matrix, fi: FeatureIndex, i: nat)
    requires InRange(fi, |target|) && AllInRange(fi, background)
    requires i < |background|
    ensures ComobiusVector(target, background, fi)[i] == MobiusVector(background[i], [target], fi)[0]
  {
  }

  /** Building the Möbius matrix twice with the same target changes nothing more. */
  lemma MobiusIdempotent(target: Row, background: Matrix, fi: FeatureIndex)
    requires InRange(fi, |target|) && AllInRange(fi, background)
    ensures MobiusVector(target, MobiusVector(target, background, fi), fi) == MobiusVector(target, background, fi)
  {
    var once := MobiusVector(target, background, fi);
    var twice := MobiusVector(target, once, fi);
    forall i | 0 <= i < |once|
      ensures twice[i] == once[i]
    {
      assert |twice[i]| == |once[i]|;
    }
  }

  /** A background row that already agrees with the target on the columns
      of `fi` is left unchanged by the Möbius construction. */
  lemma MobiusFixesAgreeingRows(target: Row, background: Matrix, fi: FeatureIndex)
    requires InRange(fi, |target|) && AllInRange(fi, background)
    requires forall i, c :: 0 <= i < |background| && 0 <= c < |background[i]| && c in Columns(fi) ==> background[i][c] == target[c]
    ensures MobiusVector(target, background, fi) == background
  {
    var m := MobiusVector(target, background, fi);
    forall i | 0 <= i < |m|
      ensures m[i] == background[i]
    {
    }
  }
}
