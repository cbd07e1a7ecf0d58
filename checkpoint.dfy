/**
 * Best-checkpoint selection: the tracker `validation_loss_best` starts at +infinity, and an
 * epoch's weights are saved, and the tracker lowered, exactly when that epoch's validation
 * loss is strictly below the tracker. Ties keep the earlier checkpoint. The checkpoint file
 * is modelled as the index of the epoch whose weights it holds.
 */
module Checkpoint {
  import opened Wrappers

  /** The tracker's value: +infinity before the first save, a loss afterwards. */
  datatype Bound = PosInf | Finite(value: real)

  /** `loss < bound`, with every loss below +infinity. */
  predicate Below(loss: real, bound: Bound)
  {
    bound.PosInf? || loss < bound.value
  }

  /** The checkpoint state of one (dataset, variant) pair: the best loss and the saved epoch. */
  datatype Tracker = Tracker(best: Bound, saved: Option<nat>)

  /** Before the first epoch: no file, tracker at +infinity. */
  const Initial: Tracker := Tracker(PosInf, None)

  /** Whether an epoch with validation loss `loss` saves, given the tracker `t`. */
  predicate Saves(t: Tracker, loss: real)
  {
    Below(loss, t.best)
  }

  /** The checkpoint rule for one epoch. */
  function Observe(t: Tracker, epoch: nat, loss: real): (r: Tracker)
    ensures Saves(t, loss) ==> r.best == Finite(loss) && r.saved == Some(epoch)
    ensures !Saves(t, loss) ==> r == t
  {
    if Saves(t, loss) then Tracker(Finite(loss), Some(epoch)) else t
  }

  /** The tracker after epochs 0 .. |losses|-1 with the given validation losses. */
  function Track(losses: seq<real>): Tracker
  {
    if losses == [] then Initial
    else Observe(Track(losses[..|losses| - 1]), |losses| - 1, losses[|losses| - 1])
  }

  /** Whether epoch `i` saves a checkpoint when the validation losses are `losses`. */
  predicate SavesAt(losses: seq<real>, i: nat)
    requires i < |losses|
  {
    Saves(Track(losses[..i]), losses[i])
  }

  /** The smallest element of a non-empty sequence. */
  function Min(s: seq<real>): real
    requires s != []
  {
    if |s| == 1 then s[0]
    else
      var m := Min(s[..|s| - 1]);
      if s[|s| - 1] < m then s[|s| - 1] else m
  }

  /** `Min` is a lower bound of the sequence and one of its elements. */
  lemma {:induction false} MinIsMinimum(s: seq<real>)
    requires s != []
    ensures forall i :: 0 <= i < |s| ==> Min(s) <= s[i]
    ensures exists i :: 0 <= i < |s| && Min(s) == s[i]
  {
    if |s| > 1 {
      var p := s[..|s| - 1];
      MinIsMinimum(p);
      var k :| 0 <= k < |p| && Min(p) == p[k];
      assert s[k] == p[k];
      if s[|s| - 1] < Min(p) {
        assert Min(s) == s[|s| - 1];
      } else {
        assert Min(s) == s[k];
      }
    } else {
      assert Min(s) == s[0];
    }
  }

  /** After any number of epochs the tracker holds the smallest loss seen, or +infinity if
      no epoch has run. */
  lemma {:induction false} TrackBest(losses: seq<real>)
    ensures Track(losses).best == if losses == [] then PosInf else Finite(Min(losses))
    ensures Track(losses).saved.None? <==> losses == []
    ensures Track(losses).saved.Some? ==> Track(losses).saved.value < |losses|
  {
    if losses != [] {
      var p := losses[..|losses| - 1];
      TrackBest(p);
    }
  }

  /** The first epoch always saves: every loss is below +infinity. */
  lemma FirstEpochSaves(losses: seq<real>)
    requires losses != []
    ensures SavesAt(losses, 0)
  {
    assert losses[..0] == [];
  }

  /** Epoch `i` saves exactly when it is the first epoch or its loss is strictly below the
      minimum of the earlier epochs. */
  lemma SavesAtIff(losses: seq<real>, i: nat)
    requires i < |losses|
    ensures SavesAt(losses, i) <==> i == 0 || losses[i] < Min(losses[..i])
  {
    TrackBest(losses[..i]);
  }

  /** The checkpoint after the last epoch holds the earliest epoch whose loss is the minimum:
      its loss is the minimum, and every earlier epoch's loss is strictly greater. */
  lemma {:induction false} SavedIsEarliestMinimum(losses: seq<real>)
    requires losses != []
    ensures Track(losses).saved.Some?
    ensures var k := Track(losses).saved.value;
      k < |losses| && losses[k] == Min(losses) &&
      forall j :: 0 <= j < k ==> Min(losses) < losses[j]
  {
    var n := |losses|;
    var p := losses[..n - 1];
    TrackBest(losses);
    if n > 1 {
      SavedIsEarliestMinimum(p);
      TrackBest(p);
      MinIsMinimum(p);
      var k := Track(p).saved.value;
      assert forall j :: 0 <= j < n - 1 ==> losses[j] == p[j];
      if losses[n - 1] < Min(p) {
        forall j | 0 <= j < n - 1 ensures Min(losses) < losses[j] {
          assert Min(p) <= p[j];
        }
      }
    }
  }

  /** The saved epoch is the last epoch that saved: no later epoch saved. */
  lemma {:induction false} SavedIsLastSave(losses: seq<real>)
    requires losses != []
    ensures Track(losses).saved.Some?
    ensures var k := Track(losses).saved.value;
      k < |losses| && SavesAt(losses, k) &&
      forall j :: k < j < |losses| ==> !SavesAt(losses, j)
  {
    var n := |losses|;
    var p := losses[..n - 1];
    TrackBest(losses);
    assert losses[..n - 1] == p;
    if n > 1 && !SavesAt(losses, n - 1) {
      SavedIsLastSave(p);
      var k := Track(p).saved.value;
      assert losses[..k] == p[..k];
      forall j | k < j < n - 1 ensures !SavesAt(losses, j) {
        assert losses[..j] == p[..j] && losses[j] == p[j];
        assert !SavesAt(p, j);
      }
    }
  }
}
