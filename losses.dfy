/** The per-batch losses of `train.py`, computed on exact reals.

    `loss1` is `nn.MSELoss()` of the first prediction against the labels;
    `loss2` is the mean of `max(0, pred1 - pred2 + 10)`, which asks the
    prediction for the displaced pose (`DM_rot`) to exceed the one for the
    crystal pose by the margin 10. Training combines them as
    `loss1 + loss2 * loss2_ratio`, evaluation as `loss1 + loss2`. */
module Losses {

  const Margin: real := 10.0

  function Sum(s: seq<real>): real {
    if |s| == 0 then 0.0 else Sum(s[..|s| - 1]) + s[|s| - 1]
  }

  /** `np.mean` / `torch.mean` of a non-empty sequence. */
  function Mean(s: seq<real>): real
    requires |s| > 0
  {
    Sum(s) / (|s| as real)
  }

  lemma {:induction false} SumNonNegative(s: seq<real>)
    requires forall i :: 0 <= i < |s| ==> s[i] >= 0.0
    ensures Sum(s) >= 0.0
    ensures Sum(s) == 0.0 ==> forall i :: 0 <= i < |s| ==> s[i] == 0.0
  {
    if |s| > 0 {
      var n := |s| - 1;
      assert forall i :: 0 <= i < n ==> s[..n][i] == s[i];
      SumNonNegative(s[..n]);
    }
  }

  lemma {:induction false} SumAllZero(s: seq<real>)
    requires forall i :: 0 <= i < |s| ==> s[i] == 0.0
    ensures Sum(s) == 0.0
  {
    if |s| > 0 {
      var n := |s| - 1;
      assert forall i :: 0 <= i < n ==> s[..n][i] == s[i];
      SumAllZero(s[..n]);
    }
  }

  lemma {:induction false} SumAtLeast(s: seq<real>, c: real)
    requires forall i :: 0 <= i < |s| ==> s[i] >= c
    ensures Sum(s) >= c * (|s| as real)
  {
    if |s| > 0 {
      var n := |s| - 1;
      assert forall i :: 0 <= i < n ==> s[..n][i] == s[i];
      SumAtLeast(s[..n], c);
      assert c * (|s| as real) == c * (n as real) + c;
    }
  }

  /** A mean of non-negative terms is zero exactly when every term is. */
  lemma MeanZero(s: seq<real>)
    requires |s| > 0
    requires forall i :: 0 <= i < |s| ==> s[i] >= 0.0
    ensures Mean(s) >= 0.0
    ensures Mean(s) == 0.0 <==> forall i :: 0 <= i < |s| ==> s[i] == 0.0
  {
    SumNonNegative(s);
    if forall i :: 0 <= i < |s| ==> s[i] == 0.0 {
      SumAllZero(s);
    }
  }

  /** The squared differences `(pred[i] - truth[i]) ** 2`. */
  function SquaredErrors(pred: seq<real>, truth: seq<real>): (e: seq<real>)
    requires |pred| == |truth|
    ensures |e| == |pred|
    ensures forall i :: 0 <= i < |e| ==> e[i] >= 0.0
    ensures forall i :: 0 <= i < |e| && pred[i] == truth[i] ==> e[i] == 0.0
  {
    seq(|pred|, i requires 0 <= i < |pred| => (pred[i] - truth[i]) * (pred[i] - truth[i]))
  }

  /** `nn.MSELoss()(pred, truth)` with the default mean reduction. */
  function MeanSquaredError(pred: seq<real>, truth: seq<real>): real
    requires |pred| == |truth| > 0
  {
    Mean(SquaredErrors(pred, truth))
  }

  /** The regression loss is non-negative and vanishes on a perfect fit. */
  lemma MeanSquaredErrorZero(pred: seq<real>, truth: seq<real>)
    requires |pred| == |truth| > 0
    ensures MeanSquaredError(pred, truth) >= 0.0
    ensures pred == truth ==> MeanSquaredError(pred, truth) == 0.0
  {
    MeanZero(SquaredErrors(pred, truth));
  }

  /** `max(0, p1 - p2 + 10)` for one complex. */
  function Hinge(p1: real, p2: real): (h: real)
    ensures h >= 0.0 && h >= p1 - p2 + Margin
    ensures h == 0.0 <==> p2 >= p1 + Margin
  {
    if p1 - p2 + Margin > 0.0 then p1 - p2 + Margin else 0.0
  }

  function Hinges(pred1: seq<real>, pred2: seq<real>): (h: seq<real>)
    requires |pred1| == |pred2|
    ensures |h| == |pred1|
    ensures forall i :: 0 <= i < |h| ==> h[i] == Hinge(pred1[i], pred2[i])
  {
    seq(|pred1|, i requires 0 <= i < |pred1| => Hinge(pred1[i], pred2[i]))
  }

  /** `torch.mean(torch.max(torch.zeros_like(pred2), pred1.detach() - pred2 + 10))`;
      `detach` changes the gradient only, not the value. */
  function RankingLoss(pred1: seq<real>, pred2: seq<real>): real
    requires |pred1| == |pred2| > 0
  {
    Mean(Hinges(pred1, pred2))
  }

  /** The ranking loss is non-negative and vanishes exactly when every
      displaced pose scores at least the margin above its crystal pose. */
  lemma RankingLossZero(pred1: seq<real>, pred2: seq<real>)
    requires |pred1| == |pred2| > 0
    ensures RankingLoss(pred1, pred2) >= 0.0
    ensures RankingLoss(pred1, pred2) == 0.0 <==> forall i :: 0 <= i < |pred1| ==> pred2[i] >= pred1[i] + Margin
  {
    var h := Hinges(pred1, pred2);
    MeanZero(h);
  }

  /** Where no displaced pose scores above its crystal pose the ranking loss
      is at least the full margin. */
  lemma RankingLossAtLeastMargin(pred1: seq<real>, pred2: seq<real>)
    requires |pred1| == |pred2| > 0
    requires forall i :: 0 <= i < |pred1| ==> pred2[i] <= pred1[i]
    ensures RankingLoss(pred1, pred2) >= Margin
  {
    var h := Hinges(pred1, pred2);
    SumAtLeast(h, Margin);
    var n := |h| as real;
    assert Sum(h) >= Margin * n;
    assert Sum(h) / n >= Margin * n / n;
  }

  /** `loss1 + loss2 * args.loss2_ratio`, the training objective. */
  function TrainLoss(loss1: real, loss2: real, ratio: real): real {
    loss1 + loss2 * ratio
  }

  /** `loss1 + loss2`, the evaluation objective (computed, never used). */
  function EvalLoss(loss1: real, loss2: real): real {
    loss1 + loss2
  }

  /** The two objectives agree exactly when the ratio is one or the ranking
      term vanishes. */
  lemma LossAsymmetry(loss1: real, loss2: real, ratio: real)
    ensures TrainLoss(loss1, loss2, ratio) == EvalLoss(loss1, loss2) <==> ratio == 1.0 || loss2 == 0.0
  {
    assert TrainLoss(loss1, loss2, ratio) - EvalLoss(loss1, loss2) == loss2 * (ratio - 1.0);
  }

  /** Both objectives are bounded below by the regression loss when the
      ranking term counts non-negatively. */
  lemma ObjectivesBoundRegression(pred: seq<real>, pred2: seq<real>, truth: seq<real>, ratio: real)
    requires |pred| == |pred2| == |truth| > 0 && ratio >= 0.0
    ensures TrainLoss(MeanSquaredError(pred, truth), RankingLoss(pred, pred2), ratio) >= MeanSquaredError(pred, truth)
    ensures EvalLoss(MeanSquaredError(pred, truth), RankingLoss(pred, pred2)) >= MeanSquaredError(pred, truth)
  {
    RankingLossZero(pred, pred2);
  }
}
