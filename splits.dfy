/**
 * The split configuration: the per-dataset index ranges of the training pool used for
 * training and for validation, the test ranges, the smoke-run truncation of every range to
 * its first 10 indices, and the `zip` that pairs the six datasets with the configuration
 * lists, of which four have seven entries.
 */
module Splits {

  /** Python's `range(start, stop)` with step 1. */
  datatype Range = Range(start: int, stop: int)

  /** `len(range(start, stop))`. */
  function Len(r: Range): nat
  {
    if r.stop > r.start then r.stop - r.start else 0
  }

  /** The indices the range yields, in order. */
  function Elements(r: Range): (s: seq<int>)
    ensures |s| == Len(r)
  {
    seq(Len(r), i requires 0 <= i < Len(r) => r.start + i)
  }

  predicate Contains(r: Range, x: int)
  {
    r.start <= x < r.stop
  }

  lemma ElementsAreContained(r: Range, x: int)
    ensures x in Elements(r) <==> Contains(r, x)
  {
    if Contains(r, x) { assert Elements(r)[x - r.start] == x; }
  }

  /** `r[:k]`: the range of the first `min(k, len(r))` indices of `r`. */
  function Truncate(r: Range, k: nat): (t: Range)
  {
    Range(r.start, r.start + (if Len(r) < k then Len(r) else k))
  }

  /** Truncation keeps a prefix of length `min(k, len(r))`. */
  lemma TruncateIsPrefix(r: Range, k: nat)
    ensures Len(Truncate(r, k)) == if Len(r) < k then Len(r) else k
    ensures Elements(Truncate(r, k)) == Elements(r)[..Len(Truncate(r, k))]
  {
  }

  /** The datasets, in the order of `dataset_list`. */
  datatype Dataset = MNIST | FashionMNIST | KMNIST | CIFAR10 | CIFAR100 | SVHN

  const Datasets: seq<Dataset> := [MNIST, FashionMNIST, KMNIST, CIFAR10, CIFAR100, SVHN]

  /** Per-channel normalization statistics: means and standard deviations. */
  datatype MeanStd = MeanStd(mean: seq<real>, std: seq<real>)

  const Gray: MeanStd := MeanStd([0.1307], [0.3081])
  const Half: MeanStd := MeanStd([0.5, 0.5, 0.5], [0.5, 0.5, 0.5])

  const MeanStds: seq<MeanStd> := [
    Gray, Gray, Gray,
    MeanStd([0.4914, 0.4822, 0.4465], [0.2023, 0.1994, 0.2010]),
    MeanStd([0.5071, 0.4865, 0.4409], [0.2673, 0.2564, 0.2762]),
    Half, Half]

  const TrainRanges: seq<Range> := [
    Range(0, 50000), Range(0, 50000), Range(0, 50000), Range(0, 40000),
    Range(0, 40000), Range(0, 4000), Range(0, 50000)]

  const ValidationRanges: seq<Range> := [
    Range(50000, 60000), Range(50000, 60000), Range(50000, 60000), Range(40000, 50000),
    Range(40000, 50000), Range(4000, 5000), Range(50000, 60000)]

  const TestRanges: seq<Range> := [
    Range(0, 10000), Range(0, 10000), Range(0, 10000), Range(0, 10000),
    Range(0, 10000), Range(0, 8000), Range(0, 10000)]

  /** The epoch count and the three range lists of a run. */
  datatype Config = Config(numEpochs: nat, train: seq<Range>, validation: seq<Range>, test: seq<Range>)

  /** Every range of a list truncated to its first `k` indices. */
  function TruncateAll(rs: seq<Range>, k: nat): (ts: seq<Range>)
    ensures |ts| == |rs| && forall i :: 0 <= i < |rs| ==> ts[i] == Truncate(rs[i], k)
  {
    seq(|rs|, i requires 0 <= i < |rs| => Truncate(rs[i], k))
  }

  /** `--full`: 20 epochs over the full ranges; otherwise 2 epochs over the first 10 indices
      of every range. */
  function Configure(full: bool): (c: Config)
    ensures c.numEpochs == if full then 20 else 2
    ensures full ==> c.train == TrainRanges && c.validation == ValidationRanges && c.test == TestRanges
  {
    if full then Config(20, TrainRanges, ValidationRanges, TestRanges)
    else Config(2, TruncateAll(TrainRanges, 10), TruncateAll(ValidationRanges, 10), TruncateAll(TestRanges, 10))
  }

  /** One iteration of the dataset loop: what `zip` hands over for one dataset. */
  datatype Entry = Entry(dataset: Dataset, train: Range, validation: Range, test: Range, meanStd: MeanStd)

  function Min(a: nat, b: nat): nat { if a < b then a else b }

  /** `zip(dataset_list, dataset_name_list, train_range_list, validation_range_list,
      test_range_list, mean_std_list)`: stops at the shortest list. */
  function Entries(datasets: seq<Dataset>, c: Config, meanStds: seq<MeanStd>): (es: seq<Entry>)
    ensures |es| == Min(Min(Min(|datasets|, |c.train|), Min(|c.validation|, |c.test|)), |meanStds|)
    ensures forall i :: 0 <= i < |es| ==>
      es[i] == Entry(datasets[i], c.train[i], c.validation[i], c.test[i], meanStds[i])
  {
    var n := Min(Min(Min(|datasets|, |c.train|), Min(|c.validation|, |c.test|)), |meanStds|);
    seq(n, i requires 0 <= i < n => Entry(datasets[i], c.train[i], c.validation[i], c.test[i], meanStds[i]))
  }

  /** The entries the dataset loop iterates over. */
  function RunEntries(full: bool): seq<Entry>
  {
    Entries(Datasets, Configure(full), MeanStds)
  }

  /** In every configured entry the validation range starts where the training range ends. */
  lemma ValidationFollowsTrain(i: nat)
    requires i < |TrainRanges|
    ensures |ValidationRanges| == |TrainRanges|
    ensures TrainRanges[i].start == 0 && ValidationRanges[i].start == TrainRanges[i].stop
    ensures TrainRanges[i].stop < ValidationRanges[i].stop
  {
  }

  /** Two ranges with the first ending where (or before) the second begins share no index. */
  lemma AdjacentRangesDisjoint(a: Range, b: Range)
    requires a.stop <= b.start
    ensures forall x :: x in Elements(a) ==> x !in Elements(b)
  {
    forall x | x in Elements(a) ensures x !in Elements(b) {
      ElementsAreContained(a, x);
      ElementsAreContained(b, x);
    }
  }

  /** In both run modes, every dataset's training and validation indices are disjoint, and
      together they are exactly the indices below the end of its validation range. */
  lemma TrainValidationDisjoint(full: bool, i: nat)
    requires i < |RunEntries(full)|
    ensures var e := RunEntries(full)[i];
      (forall x :: x in Elements(e.train) ==> x !in Elements(e.validation)) &&
      (full ==> forall x :: x in Elements(e.train) || x in Elements(e.validation) <==> 0 <= x < e.validation.stop)
  {
    var e := RunEntries(full)[i];
    ValidationFollowsTrain(i);
    AdjacentRangesDisjoint(e.train, e.validation);
    if full {
      forall x ensures x in Elements(e.train) || x in Elements(e.validation) <==> 0 <= x < e.validation.stop {
        ElementsAreContained(e.train, x);
        ElementsAreContained(e.validation, x);
      }
    }
  }

  /** The loop runs over exactly six entries, entry i using position i of every list, so the
      seventh entry of the range and statistics lists is never used. */
  lemma ZipUsesSixEntries(full: bool)
    ensures |RunEntries(full)| == |Datasets| == 6
    ensures |Configure(full).train| == |Configure(full).validation| == |Configure(full).test| == |MeanStds| == 7
    ensures forall i :: 0 <= i < 6 ==>
      (RunEntries(full)[i].train == Configure(full).train[i] &&
       RunEntries(full)[i].validation == Configure(full).validation[i] &&
       RunEntries(full)[i].test == Configure(full).test[i] && RunEntries(full)[i].meanStd == MeanStds[i])
  {
  }

  /** Whatever the seventh entries are, the loop sees the same entries. */
  lemma SeventhEntryIgnored(c: Config, train6: Range, validation6: Range, test6: Range, meanStd6: MeanStd)
    requires |c.train| == |c.validation| == |c.test| == 7
    ensures Entries(Datasets, c, MeanStds) ==
      Entries(Datasets, Config(c.numEpochs, c.train[6 := train6], c.validation[6 := validation6], c.test[6 := test6]),
              MeanStds[6 := meanStd6])
  {
  }

  /** In the smoke run every range is the prefix of length `min(10, len)` of the configured one. */
  lemma SmokeRangesArePrefixes(i: nat)
    requires i < |RunEntries(false)|
    ensures var e := RunEntries(false)[i];
      Elements(e.train) == Elements(TrainRanges[i])[..Len(e.train)] && Len(e.train) == 10 &&
      Elements(e.validation) == Elements(ValidationRanges[i])[..Len(e.validation)] && Len(e.validation) == 10 &&
      Elements(e.test) == Elements(TestRanges[i])[..Len(e.test)] && Len(e.test) == 10
  {
    TruncateIsPrefix(TrainRanges[i], 10);
    TruncateIsPrefix(ValidationRanges[i], 10);
    TruncateIsPrefix(TestRanges[i], 10);
  }
}
