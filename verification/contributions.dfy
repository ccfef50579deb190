/** The contribution of each background row to a main effect: the
    reference definition against which the batched differences of
    `explain` are stated. */
module Contributions {
  import opened Matrices
  import opened Config
  import opened Construct
  /** The contribution of one background row `b` to a main effect. */
  function RowContribution(rep: Representation, model: Model, target: Row, b: Row, fi: FeatureIndex): real
    requires InRange(fi, |target|) && InRange(fi, |b|)
  {
    var withTarget := model(Overwrite(b, fi, target)) - model(b);
    var withBackground := model(target) - model(Overwrite(target, fi, b));
    match rep
    case Mobius => withTarget
    case Comobius => withBackground
    case Average => (withTarget + withBackground) / 2.0
  }

  function SumContributions(rep: Representation, model: Model, target: Row, background: Matrix,
                            fi: FeatureIndex): real
    requires InRange(fi, |target|) && AllInRange(fi, background)
  {
    if |background| == 0 then 0.0
    else
      RowContribution(rep, model, target, background[0], fi) + SumContributions(rep, model, target, background[1..], fi)
  }

  lemma {:induction false} SumContributionsAppend(rep: Representation, model: Model, target: Row,
                                                  a: Matrix, b: Matrix, fi: FeatureIndex)
    requires InRange(fi, |target|) && AllInRange(fi, a) && AllInRange(fi, b)
    ensures AllInRange(fi, a + b)
    ensures SumContributions(rep, model, target, a + b, fi)
         == SumContributions(rep, model, target, a, fi) + SumContributions(rep, model, target, b, fi)
  {
    if |a| == 0 {
      assert a + b == b;
    } else {
      assert (a + b)[1..] == a[1..] + b;
      SumContributionsAppend(rep, model, target, a[1..], b, fi);
    }
  }

  lemma {:induction false} MobiusDifferenceIsRowSum(model: Model, target: Row, background: Matrix, fi: FeatureIndex)
    requires InRange(fi, |target|) && AllInRange(fi, background)
    ensures BatchScore(model, MobiusVector(target, background, fi)) - BatchScore(model, background)
         == SumContributions(Mobius, model, target, background, fi)
  {
    if |background| > 0 {
      var m := MobiusVector(target, background, fi);
      assert m[0] == Overwrite(background[0], fi, target);
      assert m[1..] == MobiusVector(target, background[1..], fi);
      MobiusDifferenceIsRowSum(model, target, background[1..], fi);
    }
  }

  lemma {:induction false} ComobiusDifferenceIsRowSum(model: Model, target: Row, background: Matrix, fi: FeatureIndex)
    requires InRange(fi, |target|) && AllInRange(fi, background)
    ensures |background| as real * model(target) - BatchScore(model, ComobiusVector(target, background, fi))
         == SumContributions(Comobius, model, target, background, fi)
  {
    if |background| > 0 {
      var c := ComobiusVector(target, background, fi);
      assert c[0] == Overwrite(target, fi, background[0]);
      assert c[1..] == ComobiusVector(target, background[1..], fi);
      ComobiusDifferenceIsRowSum(model, target, background[1..], fi);
    }
  }

  lemma {:induction false} AverageContributionsAreMean(model: Model, target: Row, background: Matrix, fi: FeatureIndex)
    requires InRange(fi, |target|) && AllInRange(fi, background)
    ensures SumContributions(Average, model, target, background, fi)
         == (SumContributions(Mobius, model, target, background, fi)
             + SumContributions(Comobius, model, target, background, fi)) / 2.0
  {
    if |background| > 0 {
      AverageContributionsAreMean(model, target, background[1..], fi);
    }
  }
}
