/**
 * The experiment driver: for every dataset entry of the `zip` and every activation variant,
 * `num_epochs` epochs of training and validation, the checkpoint rule after each epoch, and
 * one test pass with the weights of the saved epoch. Results go into tables allocated up
 * front with shapes (datasets, variants, epochs) and (datasets, variants).
 *
 * The network itself is not modelled: what it produces (the per-batch training losses, the
 * validation batches, and the test predictions of the weights saved at a given epoch) is
 * the parameter `obs`.
 */
module Experiment {
  import opened Wrappers
  import Checkpoint
  import Metrics
  import Splits
  import Summary
  import ActivationSwap

  /** `activation_function_list`. */
  const Activations: seq<string> := ["ReLU", "SELU"]

  /** What the network produces on each (dataset, variant, epoch). `test(d, v, k)` are the
      test-set predictions of the weights saved after epoch `k`. */
  datatype Observations = Observations(
    train: (nat, nat, nat) -> seq<real>,
    validation: (nat, nat, nat) -> seq<Metrics.ValidationBatch>,
    test: (nat, nat, nat) -> seq<seq<Metrics.Prediction>>)

  /** A cell of one of the three result tables. */
  datatype CellId = TrainCell(d: nat, v: nat, e: nat) | ValidationCell(d: nat, v: nat, e: nat) | TestCell(d: nat, v: nat)

  /** The network of a variant: the "SELU" variant is the base network after `change_relu_to_selu`. */
  function VariantTree(base: ActivationSwap.Layer, v: nat): ActivationSwap.Layer
    requires v < |Activations|
  {
    if Activations[v] == "SELU" then ActivationSwap.Swap(base) else base
  }

  /** The baseline keeps the network; the alternate has no ReLU below the root and the same shape. */
  lemma VariantTrees(base: ActivationSwap.Layer)
    ensures VariantTree(base, 0) == base
    ensures ActivationSwap.ReluFreeBelowRoot(VariantTree(base, 1))
    ensures ActivationSwap.ReplaceAll(VariantTree(base, 1)) == ActivationSwap.ReplaceAll(base)
  {
    ActivationSwap.SwapRemovesRelu(base);
    ActivationSwap.SwapKeepsShape(base);
  }

  /** `if activation_function == 'SELU': change_relu_to_selu(model)`. */
  method PrepareVariant(model: ActivationSwap.Module, v: nat)
    requires model.Valid() && v < |Activations|
    modifies model.Repr
    ensures model.Valid() && fresh(model.Repr - old(model.Repr))
    ensures model.Tree == VariantTree(old(model.Tree), v)
  {
    if Activations[v] == "SELU" {
      model.ChangeReluToSelu();
    }
  }

  // The values the run records, as functions of the observations.

  /** An epoch completes when it has a training batch and the validation pass saw an example;
      otherwise a division by zero ends the run. */
  predicate EpochOk(obs: Observations, d: nat, v: nat, e: nat)
  {
    |obs.train(d, v, e)| > 0 && |Metrics.Flatten(Metrics.PredictionsOf(obs.validation(d, v, e)))| > 0
  }

  function TrainLoss(obs: Observations, d: nat, v: nat, e: nat): real
  {
    match Metrics.MeanOf(obs.train(d, v, e))
    case Some(x) => x
    case None => 0.0
  }

  function ValidationLoss(obs: Observations, d: nat, v: nat, e: nat): real
  {
    match Metrics.MeanOf(Metrics.LossesOf(obs.validation(d, v, e)))
    case Some(x) => x
    case None => 0.0
  }

  /** The validation losses of the first `n` epochs of a pair. */
  function ValidationLosses(obs: Observations, d: nat, v: nat, n: nat): (r: seq<real>)
    ensures |r| == n && forall e :: 0 <= e < n ==> r[e] == ValidationLoss(obs, d, v, e)
  {
    seq(n, e requires 0 <= e < n => ValidationLoss(obs, d, v, e))
  }

  /** The epoch whose weights are in the pair's checkpoint file after `n` epochs. */
  function SavedEpoch(obs: Observations, d: nat, v: nat, n: nat): Option<nat>
  {
    Checkpoint.Track(ValidationLosses(obs, d, v, n)).saved
  }

  /** The test pass uses the weights of the earliest epoch with the smallest validation loss. */
  lemma TestUsesEarliestBestEpoch(obs: Observations, d: nat, v: nat, n: nat)
    requires n > 0
    ensures SavedEpoch(obs, d, v, n).Some?
    ensures var k := SavedEpoch(obs, d, v, n).value;
      k < n &&
      (forall e :: 0 <= e < n ==> ValidationLoss(obs, d, v, k) <= ValidationLoss(obs, d, v, e)) &&
      (forall e :: 0 <= e < k ==> ValidationLoss(obs, d, v, k) < ValidationLoss(obs, d, v, e))
  {
    var losses := ValidationLosses(obs, d, v, n);
    Checkpoint.SavedIsEarliestMinimum(losses);
    Checkpoint.MinIsMinimum(losses);
    var k := SavedEpoch(obs, d, v, n).value;
    assert losses[k] == ValidationLoss(obs, d, v, k);
    forall e | 0 <= e < n
      ensures ValidationLoss(obs, d, v, k) <= ValidationLoss(obs, d, v, e)
    {
      assert losses[e] == ValidationLoss(obs, d, v, e);
    }
  }

  /** The test predictions of the checkpointed weights (nothing when there is no checkpoint). */
  function TestBatches(obs: Observations, d: nat, v: nat, n: nat): seq<seq<Metrics.Prediction>>
  {
    match SavedEpoch(obs, d, v, n)
    case Some(k) => obs.test(d, v, k)
    case None => []
  }

  /** The accuracy recorded for a test pass over the given batches. */
  function BatchesAccuracy(batches: seq<seq<Metrics.Prediction>>): real
  {
    var ps := Metrics.Flatten(batches);
    match Metrics.Accuracy(Metrics.Matches(ps), |ps|)
    case Some(x) => x
    case None => 0.0
  }

  function TestAccuracy(obs: Observations, d: nat, v: nat, n: nat): real
  {
    BatchesAccuracy(TestBatches(obs, d, v, n))
  }

  /** The first `n` epochs of pair (d, v) complete. */
  predicate EpochsOk(obs: Observations, d: nat, v: nat, n: nat)
  {
    n == 0 || (EpochsOk(obs, d, v, n - 1) && EpochOk(obs, d, v, n - 1))
  }

  /** A run that completes its first `m` epochs completes every shorter prefix of them. */
  lemma {:induction false} EpochsOkPrefix(obs: Observations, d: nat, v: nat, n: nat, m: nat)
    requires n <= m && EpochsOk(obs, d, v, m)
    ensures EpochsOk(obs, d, v, n)
    decreases m
  {
    if n < m { EpochsOkPrefix(obs, d, v, n, m - 1); }
  }

  /** A pair completes when all its epochs do, a checkpoint exists and the test pass saw an example. */
  predicate PairOk(obs: Observations, d: nat, v: nat, epochs: nat)
  {
    EpochsOk(obs, d, v, epochs) &&
    SavedEpoch(obs, d, v, epochs).Some? &&
    |Metrics.Flatten(TestBatches(obs, d, v, epochs))| > 0
  }

  /** The first `n` variants of dataset `d` complete. */
  predicate DatasetOk(obs: Observations, d: nat, n: nat, epochs: nat)
  {
    forall v :: 0 <= v < n ==> PairOk(obs, d, v, epochs)
  }

  /** The pairs of the first `n` datasets complete. */
  predicate RunOk(obs: Observations, n: nat, variants: nat, epochs: nat)
  {
    forall d :: 0 <= d < n ==> DatasetOk(obs, d, variants, epochs)
  }

  // The order in which cells are written.

  /** The cells written by the first `n` epochs of pair (d, v): train, then validation, per epoch. */
  function EpochsLog(d: nat, v: nat, n: nat): seq<CellId>
  {
    if n == 0 then [] else EpochsLog(d, v, n - 1) + [TrainCell(d, v, n - 1), ValidationCell(d, v, n - 1)]
  }

  /** The cells written for pair (d, v). */
  function PairLog(d: nat, v: nat, epochs: nat): seq<CellId>
  {
    EpochsLog(d, v, epochs) + [TestCell(d, v)]
  }

  /** The cells written for the first `n` variants of dataset `d`. */
  function VariantsLog(d: nat, n: nat, epochs: nat): seq<CellId>
  {
    if n == 0 then [] else VariantsLog(d, n - 1, epochs) + PairLog(d, n - 1, epochs)
  }

  /** The cells written for the first `n` datasets. */
  function RunLog(n: nat, variants: nat, epochs: nat): seq<CellId>
  {
    if n == 0 then [] else RunLog(n - 1, variants, epochs) + VariantsLog(n - 1, variants, epochs)
  }

  lemma AppendAssociates(a: seq<CellId>, b: seq<CellId>, c: seq<CellId>)
    ensures (a + b) + c == a + (b + c)
  {
  }

  /** Whether a cell lies inside tables of shape (datasets, variants, epochs) and (datasets, variants). */
  predicate InTables(c: CellId, datasets: nat, variants: nat, epochs: nat)
  {
    c.d < datasets && c.v < variants && (c.TestCell? || c.e < epochs)
  }

  /** How many times `c` occurs in `log`. */
  function Occurrences(log: seq<CellId>, c: CellId): nat
  {
    if log == [] then 0 else Occurrences(log[..|log| - 1], c) + (if log[|log| - 1] == c then 1 else 0)
  }

  lemma {:induction false} OccurrencesAppend(a: seq<CellId>, b: seq<CellId>, c: CellId)
    ensures Occurrences(a + b, c) == Occurrences(a, c) + Occurrences(b, c)
    decreases |b|
  {
    if b == [] {
      assert a + b == a;
    } else {
      assert (a + b)[..|a + b| - 1] == a + b[..|b| - 1];
      OccurrencesAppend(a, b[..|b| - 1], c);
    }
  }

  lemma OccurrencesSingleton(x: CellId, c: CellId)
    ensures Occurrences([x], c) == if x == c then 1 else 0
  {
    assert [x][..0] == [];
  }

  lemma {:induction false} EpochsLogOnce(d: nat, v: nat, n: nat, c: CellId)
    ensures Occurrences(EpochsLog(d, v, n), c) == if !c.TestCell? && c.d == d && c.v == v && c.e < n then 1 else 0
  {
    if n > 0 {
      EpochsLogOnce(d, v, n - 1, c);
      var q := [TrainCell(d, v, n - 1), ValidationCell(d, v, n - 1)];
      OccurrencesAppend(EpochsLog(d, v, n - 1), q, c);
      OccurrencesSingleton(TrainCell(d, v, n - 1), c);
      OccurrencesSingleton(ValidationCell(d, v, n - 1), c);
      assert q == [TrainCell(d, v, n - 1)] + [ValidationCell(d, v, n - 1)];
      OccurrencesAppend([TrainCell(d, v, n - 1)], [ValidationCell(d, v, n - 1)], c);
    }
  }

  lemma {:induction false} VariantsLogOnce(d: nat, n: nat, epochs: nat, c: CellId)
    ensures Occurrences(VariantsLog(d, n, epochs), c) == if c.d == d && InTables(c, d + 1, n, epochs) then 1 else 0
  {
    if n > 0 {
      VariantsLogOnce(d, n - 1, epochs, c);
      EpochsLogOnce(d, n - 1, epochs, c);
      OccurrencesAppend(VariantsLog(d, n - 1, epochs), PairLog(d, n - 1, epochs), c);
      OccurrencesAppend(EpochsLog(d, n - 1, epochs), [TestCell(d, n - 1)], c);
      OccurrencesSingleton(TestCell(d, n - 1), c);
    }
  }

  /** Every cell of the tables is written exactly once, and no other cell is written. */
  lemma {:induction false} RunLogWritesEachCellOnce(n: nat, variants: nat, epochs: nat, c: CellId)
    ensures Occurrences(RunLog(n, variants, epochs), c) == if InTables(c, n, variants, epochs) then 1 else 0
  {
    if n > 0 {
      RunLogWritesEachCellOnce(n - 1, variants, epochs, c);
      VariantsLogOnce(n - 1, variants, epochs, c);
      CountsCombine(RunLog(n - 1, variants, epochs), VariantsLog(n - 1, variants, epochs), c, n, variants, epochs);
    }
  }

  /** The count over the first `n` datasets from the counts over the first `n - 1` and over the last. */
  lemma CountsCombine(before: seq<CellId>, last: seq<CellId>, c: CellId, n: nat, variants: nat, epochs: nat)
    requires n > 0
    requires Occurrences(before, c) == if InTables(c, n - 1, variants, epochs) then 1 else 0
    requires Occurrences(last, c) == if c.d == n - 1 && InTables(c, c.d + 1, variants, epochs) then 1 else 0
    ensures Occurrences(before + last, c) == if InTables(c, n, variants, epochs) then 1 else 0
  {
    OccurrencesAppend(before, last, c);
    InTablesLastDataset(c, n, variants, epochs);
  }

  /** A cell of the first `n` datasets lies either in the first `n - 1` or in dataset `n - 1`, not both. */
  lemma InTablesLastDataset(c: CellId, n: nat, variants: nat, epochs: nat)
    requires n > 0
    ensures InTables(c, n, variants, epochs) ==
      (InTables(c, n - 1, variants, epochs) || (c.d == n - 1 && InTables(c, c.d + 1, variants, epochs)))
    ensures !(InTables(c, n - 1, variants, epochs) && c.d == n - 1)
  {
  }

  /** The preallocated result tables (`np.zeros`), with a record of every cell written. */
  class Tables {
    const trainLoss: array3<real>
    const validationLoss: array3<real>
    const testAccuracy: array2<real>
    /** The cells written so far, in order. */
    ghost var log: seq<CellId>

    ghost predicate Valid()
      reads this
    {
      trainLoss != validationLoss &&
      trainLoss.Length0 == validationLoss.Length0 == testAccuracy.Length0 &&
      trainLoss.Length1 == validationLoss.Length1 == testAccuracy.Length1 &&
      trainLoss.Length2 == validationLoss.Length2
    }

    constructor (datasets: nat, variants: nat, epochs: nat)
      ensures Valid() && fresh(trainLoss) && fresh(validationLoss) && fresh(testAccuracy)
      ensures trainLoss.Length0 == datasets && trainLoss.Length1 == variants && trainLoss.Length2 == epochs
      ensures forall d, v, e :: 0 <= d < datasets && 0 <= v < variants && 0 <= e < epochs ==>
        trainLoss[d, v, e] == 0.0 && validationLoss[d, v, e] == 0.0
      ensures forall d, v :: 0 <= d < datasets && 0 <= v < variants ==> testAccuracy[d, v] == 0.0
      ensures log == []
    {
      trainLoss := new real[datasets, variants, epochs]((_, _, _) => 0.0);
      validationLoss := new real[datasets, variants, epochs]((_, _, _) => 0.0);
      testAccuracy := new real[datasets, variants]((_, _) => 0.0);
      log := [];
    }

    /** `train_loss_array[d, v, e] = x` */
    method WriteTrainLoss(d: nat, v: nat, e: nat, x: real)
      requires Valid() && d < trainLoss.Length0 && v < trainLoss.Length1 && e < trainLoss.Length2
      modifies this, trainLoss
      ensures Valid() && log == old(log) + [TrainCell(d, v, e)]
      ensures trainLoss[d, v, e] == x
      ensures forall i, j, k ::
          0 <= i < trainLoss.Length0 && 0 <= j < trainLoss.Length1 && 0 <= k < trainLoss.Length2 && (i, j, k) != (d, v, e)
          ==> trainLoss[i, j, k] == old(trainLoss[i, j, k])
    {
      trainLoss[d, v, e] := x;
      log := log + [TrainCell(d, v, e)];
    }

    /** `validation_loss_array[d, v, e] = x` */
    method WriteValidationLoss(d: nat, v: nat, e: nat, x: real)
      requires Valid() && d < validationLoss.Length0 && v < validationLoss.Length1 && e < validationLoss.Length2
      modifies this, validationLoss
      ensures Valid() && log == old(log) + [ValidationCell(d, v, e)]
      ensures validationLoss[d, v, e] == x
      ensures forall i, j, k ::
          0 <= i < validationLoss.Length0 && 0 <= j < validationLoss.Length1 && 0 <= k < validationLoss.Length2 && (i, j, k) != (d, v, e)
          ==> validationLoss[i, j, k] == old(validationLoss[i, j, k])
    {
      validationLoss[d, v, e] := x;
      log := log + [ValidationCell(d, v, e)];
    }

    /** `test_accuracy_array[d, v] = x` */
    method WriteTestAccuracy(d: nat, v: nat, x: real)
      requires Valid() && d < testAccuracy.Length0 && v < testAccuracy.Length1
      modifies this, testAccuracy
      ensures Valid() && log == old(log) + [TestCell(d, v)]
      ensures testAccuracy[d, v] == x
      ensures forall i, j ::
          0 <= i < testAccuracy.Length0 && 0 <= j < testAccuracy.Length1 && (i, j) != (d, v)
          ==> testAccuracy[i, j] == old(testAccuracy[i, j])
    {
      testAccuracy[d, v] := x;
      log := log + [TestCell(d, v)];
    }
  }

  /** The cells of pair (d, v) hold the pair's recorded values. */
  ghost predicate PairWritten(t: Tables, obs: Observations, d: nat, v: nat)
    reads t, t.trainLoss, t.validationLoss, t.testAccuracy
  {
    t.Valid() && d < t.trainLoss.Length0 && v < t.trainLoss.Length1 &&
    EpochsWritten(t, obs, d, v, t.trainLoss.Length2) &&
    t.testAccuracy[d, v] == TestAccuracy(obs, d, v, t.trainLoss.Length2)
  }

  /** One epoch of pair (d, v): the training pass and its mean loss, the validation pass
      with its mean loss and accuracy. `ok` is false when one of the divisions is by zero. */
  method RunEpoch(t: Tables, obs: Observations, d: nat, v: nat, e: nat) returns (ok: bool, validationLoss: real)
    requires t.Valid() && d < t.trainLoss.Length0 && v < t.trainLoss.Length1 && e < t.trainLoss.Length2
    modifies t, t.trainLoss, t.validationLoss
    ensures t.Valid()
    ensures ok == EpochOk(obs, d, v, e)
    ensures ok ==> validationLoss == ValidationLoss(obs, d, v, e)
    ensures ok ==> t.log == old(t.log) + [TrainCell(d, v, e), ValidationCell(d, v, e)]
    ensures ok ==> t.trainLoss[d, v, e] == TrainLoss(obs, d, v, e) && t.validationLoss[d, v, e] == ValidationLoss(obs, d, v, e)
    ensures forall i, j, k ::
      0 <= i < t.trainLoss.Length0 && 0 <= j < t.trainLoss.Length1 && 0 <= k < t.trainLoss.Length2 && (i, j, k) != (d, v, e)
      ==> t.trainLoss[i, j, k] == old(t.trainLoss[i, j, k]) && t.validationLoss[i, j, k] == old(t.validationLoss[i, j, k])
  {
    validationLoss := 0.0;
    var trainLoss := Metrics.MeanLoss(obs.train(d, v, e));
    if trainLoss.None? {
      return false, validationLoss;
    }
    t.WriteTrainLoss(d, v, e, trainLoss.value);
    var meanLoss, correct, total := Metrics.ValidationPass(obs.validation(d, v, e));
    if meanLoss.None? {
      return false, validationLoss;
    }
    validationLoss := meanLoss.value;
    t.WriteValidationLoss(d, v, e, validationLoss);
    var accuracy := Metrics.Accuracy(correct, total);
    ok := accuracy.Some?;
  }

  /** The cells of the first `n` epochs of pair (d, v) hold their recorded losses. */
  ghost predicate EpochsWritten(t: Tables, obs: Observations, d: nat, v: nat, n: nat)
    reads t, t.trainLoss, t.validationLoss
  {
    t.Valid() && d < t.trainLoss.Length0 && v < t.trainLoss.Length1 && n <= t.trainLoss.Length2 &&
    forall e :: 0 <= e < n ==>
      t.trainLoss[d, v, e] == TrainLoss(obs, d, v, e) && t.validationLoss[d, v, e] == ValidationLoss(obs, d, v, e)
  }

  /** Epoch `e` of pair (d, v) and the checkpoint rule after it, given the state after epoch `e - 1`. */
  method EpochStep(t: Tables, obs: Observations, d: nat, v: nat, e: nat, tracker: Checkpoint.Tracker)
    returns (ok: bool, next: Checkpoint.Tracker)
    requires t.Valid() && d < t.trainLoss.Length0 && v < t.trainLoss.Length1 && e < t.trainLoss.Length2
    requires tracker == Checkpoint.Track(ValidationLosses(obs, d, v, e))
    requires EpochsWritten(t, obs, d, v, e)
    modifies t, t.trainLoss, t.validationLoss
    ensures t.Valid()
    ensures ok == EpochOk(obs, d, v, e)
    ensures !ok ==> !EpochsOk(obs, d, v, t.trainLoss.Length2)
    ensures ok ==> next == Checkpoint.Track(ValidationLosses(obs, d, v, e + 1))
    ensures ok ==> t.log == old(t.log) + [TrainCell(d, v, e), ValidationCell(d, v, e)]
    ensures ok ==> EpochsWritten(t, obs, d, v, e + 1)
    ensures forall i, j, k ::
      0 <= i < t.trainLoss.Length0 && 0 <= j < t.trainLoss.Length1 && 0 <= k < t.trainLoss.Length2 && (i, j) != (d, v)
      ==> t.trainLoss[i, j, k] == old(t.trainLoss[i, j, k]) && t.validationLoss[i, j, k] == old(t.validationLoss[i, j, k])
  {
    var validationLoss;
    ok, validationLoss := RunEpoch(t, obs, d, v, e);
    next := tracker;
    if ok {
      next := Checkpoint.Observe(tracker, e, validationLoss);
      assert ValidationLosses(obs, d, v, e + 1)[..e] == ValidationLosses(obs, d, v, e);
    } else if EpochsOk(obs, d, v, t.trainLoss.Length2) {
      EpochsOkPrefix(obs, d, v, e + 1, t.trainLoss.Length2);
    }
  }

  /** The epoch loop of pair (d, v): every epoch, then the checkpoint rule on its validation
      loss. `ok` is false when an epoch raises. */
  method RunEpochs(t: Tables, obs: Observations, d: nat, v: nat) returns (ok: bool, tracker: Checkpoint.Tracker)
    requires t.Valid() && d < t.trainLoss.Length0 && v < t.trainLoss.Length1
    modifies t, t.trainLoss, t.validationLoss
    ensures t.Valid()
    ensures ok == EpochsOk(obs, d, v, t.trainLoss.Length2)
    ensures ok ==> tracker == Checkpoint.Track(ValidationLosses(obs, d, v, t.trainLoss.Length2))
    ensures ok ==> t.log == old(t.log) + EpochsLog(d, v, t.trainLoss.Length2)
    ensures ok ==> EpochsWritten(t, obs, d, v, t.trainLoss.Length2)
    ensures forall i, j, k ::
      0 <= i < t.trainLoss.Length0 && 0 <= j < t.trainLoss.Length1 && 0 <= k < t.trainLoss.Length2 && (i, j) != (d, v)
      ==> t.trainLoss[i, j, k] == old(t.trainLoss[i, j, k]) && t.validationLoss[i, j, k] == old(t.validationLoss[i, j, k])
  {
    var epochs := t.trainLoss.Length2;
    tracker := Checkpoint.Initial;
    var e := 0;
    while e < epochs
      invariant 0 <= e <= epochs
      invariant t.Valid()
      invariant tracker == Checkpoint.Track(ValidationLosses(obs, d, v, e))
      invariant EpochsOk(obs, d, v, e)
      invariant t.log == old(t.log) + EpochsLog(d, v, e)
      invariant EpochsWritten(t, obs, d, v, e)
      invariant forall i, j, k ::
        0 <= i < t.trainLoss.Length0 && 0 <= j < t.trainLoss.Length1 && 0 <= k < t.trainLoss.Length2 && (i, j) != (d, v)
        ==> t.trainLoss[i, j, k] == old(t.trainLoss[i, j, k]) && t.validationLoss[i, j, k] == old(t.validationLoss[i, j, k])
    {
      var epochOk;
      epochOk, tracker := EpochStep(t, obs, d, v, e, tracker);
      AppendAssociates(old(t.log), EpochsLog(d, v, e), [TrainCell(d, v, e), ValidationCell(d, v, e)]);
      if !epochOk {
        return false, tracker;
      }
      e := e + 1;
    }
    ok := true;
  }

  /** One (dataset, variant) pair: the epoch loop, then the test pass with the weights of the
      saved epoch. `ok` is false when the source raises (a division by zero, or no checkpoint
      file to load). */
  method RunPair(t: Tables, obs: Observations, d: nat, v: nat) returns (ok: bool)
    requires t.Valid() && d < t.trainLoss.Length0 && v < t.trainLoss.Length1
    modifies t, t.trainLoss, t.validationLoss, t.testAccuracy
    ensures t.Valid()
    ensures ok == PairOk(obs, d, v, t.trainLoss.Length2)
    ensures ok ==> t.log == old(t.log) + PairLog(d, v, t.trainLoss.Length2)
    ensures ok ==> PairWritten(t, obs, d, v)
    ensures forall i, j, k ::
      0 <= i < t.trainLoss.Length0 && 0 <= j < t.trainLoss.Length1 && 0 <= k < t.trainLoss.Length2 && (i, j) != (d, v)
      ==> t.trainLoss[i, j, k] == old(t.trainLoss[i, j, k]) && t.validationLoss[i, j, k] == old(t.validationLoss[i, j, k])
    ensures forall i, j ::
      0 <= i < t.testAccuracy.Length0 && 0 <= j < t.testAccuracy.Length1 && (i, j) != (d, v)
      ==> t.testAccuracy[i, j] == old(t.testAccuracy[i, j])
    ensures forall i, j :: 0 <= i < t.trainLoss.Length0 && 0 <= j < t.trainLoss.Length1 && (i, j) != (d, v) ==>
      old(PairWritten(t, obs, i, j)) ==> PairWritten(t, obs, i, j)
  {
    ok := false;
    var epochsOk, tracker := RunEpochs(t, obs, d, v);
    if epochsOk && tracker.saved.Some? {
      ok := RunTest(t, d, v, obs.test(d, v, tracker.saved.value));
      AppendAssociates(old(t.log), EpochsLog(d, v, t.trainLoss.Length2), [TestCell(d, v)]);
    }
  }

  /** The test pass of pair (d, v) over the predictions of the reloaded checkpoint. */
  method RunTest(t: Tables, d: nat, v: nat, batches: seq<seq<Metrics.Prediction>>) returns (ok: bool)
    requires t.Valid() && d < t.testAccuracy.Length0 && v < t.testAccuracy.Length1
    modifies t, t.testAccuracy
    ensures t.Valid()
    ensures ok == (|Metrics.Flatten(batches)| > 0)
    ensures ok ==> t.log == old(t.log) + [TestCell(d, v)] && t.testAccuracy[d, v] == BatchesAccuracy(batches)
    ensures forall i, j ::
      0 <= i < t.testAccuracy.Length0 && 0 <= j < t.testAccuracy.Length1 && (i, j) != (d, v)
      ==> t.testAccuracy[i, j] == old(t.testAccuracy[i, j])
  {
    var correct, total := Metrics.CountCorrect(batches);
    var accuracy := Metrics.Accuracy(correct, total);
    if accuracy.None? {
      return false;
    }
    t.WriteTestAccuracy(d, v, accuracy.value);
    ok := true;
  }

  /** Pair (d, v) of the variant loop of dataset `d`, given that the variants before `v` completed. */
  method VariantStep(t: Tables, obs: Observations, d: nat, v: nat) returns (ok: bool)
    requires t.Valid() && d < t.trainLoss.Length0 && v < t.trainLoss.Length1
    requires DatasetOk(obs, d, v, t.trainLoss.Length2)
    requires forall w :: 0 <= w < v ==> PairWritten(t, obs, d, w)
    modifies t, t.trainLoss, t.validationLoss, t.testAccuracy
    ensures t.Valid()
    ensures ok == DatasetOk(obs, d, v + 1, t.trainLoss.Length2)
    ensures !ok ==> !DatasetOk(obs, d, t.trainLoss.Length1, t.trainLoss.Length2)
    ensures ok ==> t.log == old(t.log) + PairLog(d, v, t.trainLoss.Length2)
    ensures ok ==> forall w :: 0 <= w <= v ==> PairWritten(t, obs, d, w)
    ensures forall i, j, k ::
      0 <= i < t.trainLoss.Length0 && 0 <= j < t.trainLoss.Length1 && 0 <= k < t.trainLoss.Length2 && i != d
      ==> t.trainLoss[i, j, k] == old(t.trainLoss[i, j, k]) && t.validationLoss[i, j, k] == old(t.validationLoss[i, j, k])
    ensures forall i, j ::
      0 <= i < t.testAccuracy.Length0 && 0 <= j < t.testAccuracy.Length1 && i != d
      ==> t.testAccuracy[i, j] == old(t.testAccuracy[i, j])
    ensures forall i, j :: 0 <= i < t.trainLoss.Length0 && 0 <= j < t.trainLoss.Length1 && i != d ==>
      old(PairWritten(t, obs, i, j)) ==> PairWritten(t, obs, i, j)
  {
    ok := RunPair(t, obs, d, v);
  }

  /** The variant loop of dataset `d`. `ok` is false when one of its pairs raises. */
  method RunDataset(t: Tables, obs: Observations, d: nat) returns (ok: bool)
    requires t.Valid() && d < t.trainLoss.Length0
    modifies t, t.trainLoss, t.validationLoss, t.testAccuracy
    ensures t.Valid()
    ensures ok == DatasetOk(obs, d, t.trainLoss.Length1, t.trainLoss.Length2)
    ensures ok ==> t.log == old(t.log) + VariantsLog(d, t.trainLoss.Length1, t.trainLoss.Length2)
    ensures ok ==> forall v :: 0 <= v < t.trainLoss.Length1 ==> PairWritten(t, obs, d, v)
    ensures forall i, j, k ::
      0 <= i < t.trainLoss.Length0 && 0 <= j < t.trainLoss.Length1 && 0 <= k < t.trainLoss.Length2 && i != d
      ==> t.trainLoss[i, j, k] == old(t.trainLoss[i, j, k]) && t.validationLoss[i, j, k] == old(t.validationLoss[i, j, k])
    ensures forall i, j ::
      0 <= i < t.testAccuracy.Length0 && 0 <= j < t.testAccuracy.Length1 && i != d
      ==> t.testAccuracy[i, j] == old(t.testAccuracy[i, j])
    ensures forall i, j :: 0 <= i < t.trainLoss.Length0 && 0 <= j < t.trainLoss.Length1 && i != d ==>
      old(PairWritten(t, obs, i, j)) ==> PairWritten(t, obs, i, j)
  {
    var v := 0;
    while v < t.trainLoss.Length1
      invariant 0 <= v <= t.trainLoss.Length1
      invariant t.Valid()
      invariant DatasetOk(obs, d, v, t.trainLoss.Length2)
      invariant t.log == old(t.log) + VariantsLog(d, v, t.trainLoss.Length2)
      invariant forall w :: 0 <= w < v ==> PairWritten(t, obs, d, w)
      invariant forall i, j, k ::
        0 <= i < t.trainLoss.Length0 && 0 <= j < t.trainLoss.Length1 && 0 <= k < t.trainLoss.Length2 && i != d
        ==> t.trainLoss[i, j, k] == old(t.trainLoss[i, j, k]) && t.validationLoss[i, j, k] == old(t.validationLoss[i, j, k])
      invariant forall i, j ::
        0 <= i < t.testAccuracy.Length0 && 0 <= j < t.testAccuracy.Length1 && i != d
        ==> t.testAccuracy[i, j] == old(t.testAccuracy[i, j])
      invariant forall i, j :: 0 <= i < t.trainLoss.Length0 && 0 <= j < t.trainLoss.Length1 && i != d ==>
        old(PairWritten(t, obs, i, j)) ==> PairWritten(t, obs, i, j)
    {
      var stepOk := VariantStep(t, obs, d, v);
      AppendAssociates(old(t.log), VariantsLog(d, v, t.trainLoss.Length2), PairLog(d, v, t.trainLoss.Length2));
      if !stepOk {
        return false;
      }
      v := v + 1;
    }
    ok := true;
  }

  /** The test accuracies a completed run records: one row per dataset, one column per variant. */
  function ExpectedAccuracy(obs: Observations, datasets: nat, variants: nat, epochs: nat): (m: seq<seq<real>>)
    ensures Summary.Rectangular(m, variants) && |m| == datasets
    ensures forall d, v :: 0 <= d < datasets && 0 <= v < variants ==> m[d][v] == TestAccuracy(obs, d, v, epochs)
  {
    seq(datasets, d requires 0 <= d < datasets => seq(variants, v requires 0 <= v < variants => TestAccuracy(obs, d, v, epochs)))
  }

  /** The contents of the test accuracy table, row by row. */
  function Rows(a: array2<real>): (m: seq<seq<real>>)
    reads a
    ensures Summary.Rectangular(m, a.Length1) && |m| == a.Length0
    ensures forall i, j :: 0 <= i < a.Length0 && 0 <= j < a.Length1 ==> m[i][j] == a[i, j]
  {
    seq(a.Length0, i requires 0 <= i < a.Length0 reads a => seq(a.Length1, j requires 0 <= j < a.Length1 reads a => a[i, j]))
  }

  /** The summary table read off the test accuracy table: `test_accuracy_array.T` with
      each column's maximum in bold. */
  function Summarize(a: array2<real>): (table: seq<seq<Summary.Cell>>)
    reads a
    requires a.Length1 > 0
  {
    Summary.SummaryTable(Rows(a), a.Length1)
  }

  /** After a completed run, the summary table lays out the recorded test accuracies. */
  lemma SummarizeCompletedRun(t: Tables, obs: Observations)
    requires t.Valid() && t.trainLoss.Length1 > 0
    requires forall d, v :: 0 <= d < t.trainLoss.Length0 && 0 <= v < t.trainLoss.Length1 ==> PairWritten(t, obs, d, v)
    ensures Summarize(t.testAccuracy) == Summary.SummaryTable(
      ExpectedAccuracy(obs, t.trainLoss.Length0, t.trainLoss.Length1, t.trainLoss.Length2), t.trainLoss.Length1)
  {
    var m := Rows(t.testAccuracy);
    var expected := ExpectedAccuracy(obs, t.trainLoss.Length0, t.trainLoss.Length1, t.trainLoss.Length2);
    forall d | 0 <= d < |m|
      ensures m[d] == expected[d]
    {
      forall v | 0 <= v < t.trainLoss.Length1
        ensures m[d][v] == expected[d][v]
      {
        assert PairWritten(t, obs, d, v);
      }
    }
    assert m == expected;
  }

  /** Cell (v, d) of the summary of a completed run shows the test accuracy of variant v on
      dataset d, in bold exactly when no variant did better on that dataset. */
  lemma SummaryShowsTestAccuracy(obs: Observations, epochs: nat, v: nat, d: nat)
    requires v < |Activations| && d < |Splits.Datasets|
    ensures var table := Summary.SummaryTable(ExpectedAccuracy(obs, |Splits.Datasets|, |Activations|, epochs), |Activations|);
      table[v][d].value == TestAccuracy(obs, d, v, epochs) &&
      (table[v][d].Bold? <==>
        forall w :: 0 <= w < |Activations| ==> TestAccuracy(obs, d, w, epochs) <= TestAccuracy(obs, d, v, epochs))
  {
    Summary.SummaryCell(ExpectedAccuracy(obs, |Splits.Datasets|, |Activations|, epochs), |Activations|, v, d);
  }

  /** Every pair of the first `n` datasets holds its recorded values. */
  ghost predicate DatasetsWritten(t: Tables, obs: Observations, n: nat)
    reads t, t.trainLoss, t.validationLoss, t.testAccuracy
  {
    forall d, v :: 0 <= d < n && 0 <= v < t.trainLoss.Length1 ==> PairWritten(t, obs, d, v)
  }

  /** Dataset `d` of the dataset loop, given that the datasets before it completed. */
  method DatasetStep(t: Tables, obs: Observations, d: nat) returns (ok: bool)
    requires t.Valid() && d < t.trainLoss.Length0
    requires RunOk(obs, d, t.trainLoss.Length1, t.trainLoss.Length2)
    requires DatasetsWritten(t, obs, d)
    modifies t, t.trainLoss, t.validationLoss, t.testAccuracy
    ensures t.Valid()
    ensures ok == RunOk(obs, d + 1, t.trainLoss.Length1, t.trainLoss.Length2)
    ensures !ok ==> !RunOk(obs, t.trainLoss.Length0, t.trainLoss.Length1, t.trainLoss.Length2)
    ensures ok ==> t.log == old(t.log) + VariantsLog(d, t.trainLoss.Length1, t.trainLoss.Length2)
    ensures ok ==> DatasetsWritten(t, obs, d + 1)
    ensures forall i, j, k ::
      0 <= i < t.trainLoss.Length0 && 0 <= j < t.trainLoss.Length1 && 0 <= k < t.trainLoss.Length2 && i != d
      ==> t.trainLoss[i, j, k] == old(t.trainLoss[i, j, k]) && t.validationLoss[i, j, k] == old(t.validationLoss[i, j, k])
    ensures forall i, j ::
      0 <= i < t.testAccuracy.Length0 && 0 <= j < t.testAccuracy.Length1 && i != d
      ==> t.testAccuracy[i, j] == old(t.testAccuracy[i, j])
  {
    ok := RunDataset(t, obs, d);
  }

  /** The dataset loop over tables of any shape. `ok` is false when a pair raises. */
  method RunDatasets(t: Tables, obs: Observations) returns (ok: bool)
    requires t.Valid()
    modifies t, t.trainLoss, t.validationLoss, t.testAccuracy
    ensures t.Valid()
    ensures ok == RunOk(obs, t.trainLoss.Length0, t.trainLoss.Length1, t.trainLoss.Length2)
    ensures ok ==> t.log == old(t.log) + RunLog(t.trainLoss.Length0, t.trainLoss.Length1, t.trainLoss.Length2)
    ensures ok ==> DatasetsWritten(t, obs, t.trainLoss.Length0)
  {
    var d := 0;
    while d < t.trainLoss.Length0
      invariant 0 <= d <= t.trainLoss.Length0
      invariant t.Valid()
      invariant RunOk(obs, d, t.trainLoss.Length1, t.trainLoss.Length2)
      invariant t.log == old(t.log) + RunLog(d, t.trainLoss.Length1, t.trainLoss.Length2)
      invariant DatasetsWritten(t, obs, d)
    {
      var datasetOk := DatasetStep(t, obs, d);
      AppendAssociates(old(t.log), RunLog(d, t.trainLoss.Length1, t.trainLoss.Length2), VariantsLog(d, t.trainLoss.Length1, t.trainLoss.Length2));
      if !datasetOk {
        return false;
      }
      d := d + 1;
    }
    ok := true;
  }

  /** The whole experiment: allocate the tables, run every pair of the `zip` of datasets and
      split lists with every activation variant, then lay out the test accuracies for the
      summary table (variants as rows, datasets as columns, the column maxima in bold).
      `summary` is `None` when the run raises before it ends. */
  method Run(full: bool, obs: Observations) returns (t: Tables, summary: Option<seq<seq<Summary.Cell>>>)
    ensures fresh(t) && t.Valid()
    ensures t.trainLoss.Length0 == |Splits.Datasets| && t.trainLoss.Length1 == |Activations|
    ensures t.trainLoss.Length2 == Splits.Configure(full).numEpochs
    ensures t.trainLoss.Length0 == |Splits.RunEntries(full)|
    ensures summary.Some? == RunOk(obs, t.trainLoss.Length0, t.trainLoss.Length1, t.trainLoss.Length2)
    ensures summary.Some? ==> t.log == RunLog(t.trainLoss.Length0, t.trainLoss.Length1, t.trainLoss.Length2)
    ensures summary.Some? ==>
      forall d, v :: 0 <= d < t.trainLoss.Length0 && 0 <= v < t.trainLoss.Length1 ==> PairWritten(t, obs, d, v)
    ensures summary.Some? ==> t.trainLoss.Length1 > 0 && summary.value == Summarize(t.testAccuracy)
    ensures summary.Some? ==>
      summary.value == Summary.SummaryTable(ExpectedAccuracy(obs, |Splits.Datasets|, |Activations|, t.trainLoss.Length2), |Activations|)
  {
    t := new Tables(|Splits.Datasets|, |Activations|, Splits.Configure(full).numEpochs);
    assert t.trainLoss.Length0 == |Splits.RunEntries(full)| by { Splits.ZipUsesSixEntries(full); }
    var ok := RunDatasets(t, obs);
    assert [] + RunLog(t.trainLoss.Length0, t.trainLoss.Length1, t.trainLoss.Length2) ==
      RunLog(t.trainLoss.Length0, t.trainLoss.Length1, t.trainLoss.Length2);
    if ok {
      SummarizeCompletedRun(t, obs);
      summary := Some(Summarize(t.testAccuracy));
    } else {
      summary := None;
    }
  }
}
