/**
 * The per-epoch accumulation loops: the training loss sum divided by the number of
 * batches, the validation pass that accumulates loss, correct predictions and examples
 * seen, the test pass that counts correct predictions, and `100 * correct / total`.
 * Loss values and predictions come from the network and are inputs here. A division by
 * zero, which raises in the source, is `None`.
 */
module Metrics {
  import opened Wrappers

  /** One example of a batch: the argmax of the network's output and the target class. */
  datatype Prediction = Prediction(predicted: int, target: int)

  /** One validation batch: its loss (`criterion(output, target)`) and its predictions. */
  datatype ValidationBatch = ValidationBatch(loss: real, predictions: seq<Prediction>)

  /** The sum of a sequence of losses. */
  function Sum(s: seq<real>): real
  {
    if s == [] then 0.0 else Sum(s[..|s| - 1]) + s[|s| - 1]
  }

  /** The mean of the per-batch losses, `None` when there is no batch. */
  function MeanOf(s: seq<real>): Option<real>
  {
    if s == [] then None else Some(Sum(s) / |s| as real)
  }

  /** Number of predictions that equal their target. */
  function Matches(ps: seq<Prediction>): nat
  {
    if ps == [] then 0
    else Matches(ps[..|ps| - 1]) + (if ps[|ps| - 1].predicted == ps[|ps| - 1].target then 1 else 0)
  }

  /** All the examples of the batches, in order. */
  function Flatten(batches: seq<seq<Prediction>>): seq<Prediction>
  {
    if batches == [] then [] else Flatten(batches[..|batches| - 1]) + batches[|batches| - 1]
  }

  /** The losses of the validation batches. */
  function LossesOf(batches: seq<ValidationBatch>): (r: seq<real>)
    ensures |r| == |batches| && forall i :: 0 <= i < |batches| ==> r[i] == batches[i].loss
  {
    seq(|batches|, i requires 0 <= i < |batches| => batches[i].loss)
  }

  /** The predictions of the validation batches. */
  function PredictionsOf(batches: seq<ValidationBatch>): (r: seq<seq<Prediction>>)
    ensures |r| == |batches| && forall i :: 0 <= i < |batches| ==> r[i] == batches[i].predictions
  {
    seq(|batches|, i requires 0 <= i < |batches| => batches[i].predictions)
  }

  /** `100. * correct / total`: `None` (a division by zero) when no example was seen. */
  function Accuracy(correct: nat, total: nat): (r: Option<real>)
    ensures r.None? <==> total == 0
  {
    if total == 0 then None else Some(100.0 * correct as real / total as real)
  }

  /** The accuracy is the percentage of the examples seen that were predicted correctly. */
  lemma AccuracyIsPercentage(correct: nat, total: nat)
    requires total > 0
    ensures Accuracy(correct, total).Some?
    ensures Accuracy(correct, total).value * total as real == 100.0 * correct as real
    ensures correct <= total ==> 0.0 <= Accuracy(correct, total).value <= 100.0
  {
  }

  /** The training loop of one epoch: `train_loss_sum` accumulates each batch's loss and is
      divided by the number of batches. */
  method MeanLoss(batchLosses: seq<real>) returns (r: Option<real>)
    ensures r == MeanOf(batchLosses)
  {
    var sum := 0.0;
    var n := 0;
    while n < |batchLosses|
      invariant 0 <= n <= |batchLosses|
      invariant sum == Sum(batchLosses[..n])
    {
      assert batchLosses[..n + 1][..n] == batchLosses[..n];
      sum := sum + batchLosses[n];
      n := n + 1;
    }
    assert batchLosses[..n] == batchLosses;
    if n == 0 {
      r := None;
    } else {
      r := Some(sum / n as real);
    }
  }

  /** The validation loop of one epoch: loss sum, correct predictions and examples seen,
      then the mean loss. */
  method ValidationPass(batches: seq<ValidationBatch>) returns (loss: Option<real>, correct: nat, total: nat)
    ensures loss == MeanOf(LossesOf(batches))
    ensures correct == Matches(Flatten(PredictionsOf(batches)))
    ensures total == |Flatten(PredictionsOf(batches))|
  {
    var lossSum := 0.0;
    correct, total := 0, 0;
    var n := 0;
    while n < |batches|
      invariant 0 <= n <= |batches|
      invariant lossSum == Sum(LossesOf(batches[..n]))
      invariant correct == Matches(Flatten(PredictionsOf(batches[..n])))
      invariant total == |Flatten(PredictionsOf(batches[..n]))|
    {
      var b := batches[..n + 1];
      assert b[..n] == batches[..n];
      assert LossesOf(b)[..n] == LossesOf(batches[..n]);
      assert PredictionsOf(b)[..n] == PredictionsOf(batches[..n]);
      MatchesAppend(Flatten(PredictionsOf(batches[..n])), batches[n].predictions);
      lossSum := lossSum + batches[n].loss;
      correct := correct + Matches(batches[n].predictions);
      total := total + |batches[n].predictions|;
      n := n + 1;
    }
    assert batches[..n] == batches;
    if n == 0 {
      loss := None;
    } else {
      loss := Some(lossSum / n as real);
    }
  }

  /** The test loop: correct predictions and examples seen over all test batches. */
  method CountCorrect(batches: seq<seq<Prediction>>) returns (correct: nat, total: nat)
    ensures correct == Matches(Flatten(batches))
    ensures total == |Flatten(batches)|
    ensures correct <= total
  {
    correct, total := 0, 0;
    var n := 0;
    while n < |batches|
      invariant 0 <= n <= |batches|
      invariant correct == Matches(Flatten(batches[..n]))
      invariant total == |Flatten(batches[..n])|
    {
      assert batches[..n + 1][..n] == batches[..n];
      MatchesAppend(Flatten(batches[..n]), batches[n]);
      correct := correct + Matches(batches[n]);
      total := total + |batches[n]|;
      n := n + 1;
    }
    assert batches[..n] == batches;
    MatchesAtMostLength(Flatten(batches));
  }

  /** Counting matches over a concatenation adds the counts. */
  lemma {:induction false} MatchesAppend(a: seq<Prediction>, b: seq<Prediction>)
    ensures Matches(a + b) == Matches(a) + Matches(b)
    decreases |b|
  {
    if b != [] {
      var b' := b[..|b| - 1];
      assert (a + b)[..|a + b| - 1] == a + b';
      MatchesAppend(a, b');
    } else {
      assert a + b == a;
    }
  }

  /** `correct` never exceeds `total`. */
  lemma {:induction false} MatchesAtMostLength(ps: seq<Prediction>)
    ensures Matches(ps) <= |ps|
  {
    if ps != [] { MatchesAtMostLength(ps[..|ps| - 1]); }
  }

  /** `Matches` counts exactly the positions where the prediction equals the target. */
  lemma {:induction false} MatchesCountsPositions(ps: seq<Prediction>)
    ensures Matches(ps) == |set i | 0 <= i < |ps| && ps[i].predicted == ps[i].target|
  {
    if ps != [] {
      var n := |ps| - 1;
      var p := ps[..n];
      MatchesCountsPositions(p);
      var before := set i | 0 <= i < n && p[i].predicted == p[i].target;
      var after := set i | 0 <= i < |ps| && ps[i].predicted == ps[i].target;
      assert before == set i | 0 <= i < n && ps[i].predicted == ps[i].target;
      if ps[n].predicted == ps[n].target {
        assert after == before + {n};
      } else {
        assert after == before;
      }
    }
  }

  /** When exactly `k` of the `n` examples seen are predicted correctly, the accuracy is
      `100 * k / n`, a value between 0 and 100. */
  lemma AccuracyOfBatches(batches: seq<seq<Prediction>>, k: nat, n: nat)
    requires n == |Flatten(batches)| && k == |set i | 0 <= i < n && Flatten(batches)[i].predicted == Flatten(batches)[i].target|
    requires n > 0
    ensures Accuracy(Matches(Flatten(batches)), |Flatten(batches)|) == Some(100.0 * k as real / n as real)
    ensures 0.0 <= 100.0 * k as real / n as real <= 100.0
  {
    MatchesCountsPositions(Flatten(batches));
    MatchesAtMostLength(Flatten(batches));
    AccuracyIsPercentage(k, n);
  }

  /** Flattening keeps every example: `total` is the sum of the batch sizes. */
  lemma {:induction false} FlattenLength(batches: seq<seq<Prediction>>)
    ensures |Flatten(batches)| == SizesSum(batches)
  {
    if batches != [] { FlattenLength(batches[..|batches| - 1]); }
  }

  /** The sum of the batch sizes. */
  function SizesSum(batches: seq<seq<Prediction>>): nat
  {
    if batches == [] then 0 else SizesSum(batches[..|batches| - 1]) + |batches[|batches| - 1]|
  }

  /** The recorded mean lies between the smallest and the largest batch loss. */
  lemma MeanBetweenExtremes(s: seq<real>, lo: real, hi: real)
    requires s != []
    requires forall i :: 0 <= i < |s| ==> lo <= s[i] <= hi
    ensures MeanOf(s).Some? && lo <= MeanOf(s).value <= hi
  {
    SumBounds(s, lo, hi);
    var n := |s| as real;
    assert lo * n <= Sum(s) <= hi * n;
    assert lo == lo * n / n && hi == hi * n / n;
  }

  lemma {:induction false} SumBounds(s: seq<real>, lo: real, hi: real)
    requires forall i :: 0 <= i < |s| ==> lo <= s[i] <= hi
    ensures lo * |s| as real <= Sum(s) <= hi * |s| as real
  {
    if s != [] { SumBounds(s[..|s| - 1], lo, hi); }
  }
}
