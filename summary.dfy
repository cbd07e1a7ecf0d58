/**
 * The summary table: the (dataset x variant) test accuracies are transposed into
 * (variant x dataset), and each cell is rendered bold exactly when it equals the maximum of
 * its column. Number formatting (`{x:.2f}`) and the LaTeX output are not modelled: a
 * rendered cell keeps its value and says whether it is emphasised.
 */
module Summary {

  /** A rendered cell: `\bf{x}` or plain `x`. */
  datatype Cell = Bold(value: real) | Plain(value: real)

  /** Every row of `m` has `cols` entries. */
  predicate Rectangular(m: seq<seq<real>>, cols: nat)
  {
    forall i :: 0 <= i < |m| ==> |m[i]| == cols
  }

  /** `m.T` for a matrix with `cols` columns. */
  function Transpose(m: seq<seq<real>>, cols: nat): (t: seq<seq<real>>)
    requires Rectangular(m, cols)
    ensures |t| == cols && Rectangular(t, |m|)
    ensures forall j, i :: 0 <= j < cols && 0 <= i < |m| ==> t[j][i] == m[i][j]
  {
    seq(cols, j requires 0 <= j < cols => seq(|m|, i requires 0 <= i < |m| => m[i][j]))
  }

  /** Transposing twice gives the matrix back. */
  lemma TransposeTwice(m: seq<seq<real>>, cols: nat)
    requires Rectangular(m, cols)
    ensures Transpose(Transpose(m, cols), |m|) == m
  {
    var t := Transpose(Transpose(m, cols), |m|);
    forall i | 0 <= i < |m| ensures t[i] == m[i] { }
  }

  /** The largest element of a non-empty sequence. */
  function Max(s: seq<real>): real
    requires s != []
  {
    if |s| == 1 then s[0]
    else
      var m := Max(s[..|s| - 1]);
      if m < s[|s| - 1] then s[|s| - 1] else m
  }

  lemma {:induction false} MaxIsMaximum(s: seq<real>)
    requires s != []
    ensures forall i :: 0 <= i < |s| ==> s[i] <= Max(s)
    ensures exists i :: 0 <= i < |s| && Max(s) == s[i]
  {
    if |s| > 1 {
      var p := s[..|s| - 1];
      MaxIsMaximum(p);
      var k :| 0 <= k < |p| && Max(p) == p[k];
      assert s[k] == p[k];
      if Max(p) < s[|s| - 1] {
        assert Max(s) == s[|s| - 1];
      } else {
        assert Max(s) == s[k];
      }
    } else {
      assert Max(s) == s[0];
    }
  }

  /** Column `j` of `m`. */
  function Column(m: seq<seq<real>>, cols: nat, j: nat): (c: seq<real>)
    requires Rectangular(m, cols) && j < cols
    ensures |c| == |m| && forall i :: 0 <= i < |m| ==> c[i] == m[i][j]
  {
    seq(|m|, i requires 0 <= i < |m| => m[i][j])
  }

  /** `m.max(0)`: the maximum of every column. */
  function ColumnMaxima(m: seq<seq<real>>, cols: nat): (r: seq<real>)
    requires Rectangular(m, cols) && m != []
    ensures |r| == cols
  {
    seq(cols, j requires 0 <= j < cols => Max(Column(m, cols, j)))
  }

  /** Every cell formatted by its column's formatter: bold when it equals the column maximum. */
  function Render(m: seq<seq<real>>, cols: nat): (r: seq<seq<Cell>>)
    requires Rectangular(m, cols) && m != []
    ensures |r| == |m| && forall i :: 0 <= i < |m| ==> |r[i]| == cols
  {
    var maxima := ColumnMaxima(m, cols);
    seq(|m|, i requires 0 <= i < |m| =>
      seq(cols, j requires 0 <= j < cols => if m[i][j] == maxima[j] then Bold(m[i][j]) else Plain(m[i][j])))
  }

  /** A rendered cell keeps its value, and it is bold exactly when no cell of its column is
      larger. */
  lemma BoldIffColumnMaximum(m: seq<seq<real>>, cols: nat, i: nat, j: nat)
    requires Rectangular(m, cols) && m != [] && i < |m| && j < cols
    ensures Render(m, cols)[i][j].value == m[i][j]
    ensures Render(m, cols)[i][j].Bold? <==> forall k :: 0 <= k < |m| ==> m[k][j] <= m[i][j]
  {
    var c := Column(m, cols, j);
    MaxIsMaximum(c);
    assert c[i] == m[i][j];
    if forall k :: 0 <= k < |m| ==> m[k][j] <= m[i][j] {
      var w :| 0 <= w < |c| && Max(c) == c[w];
      assert c[w] <= m[i][j];
    }
  }

  /** Every column of a non-empty table has at least one bold cell. */
  lemma EveryColumnHasBold(m: seq<seq<real>>, cols: nat, j: nat)
    requires Rectangular(m, cols) && m != [] && j < cols
    ensures exists i :: 0 <= i < |m| && Render(m, cols)[i][j].Bold?
  {
    var c := Column(m, cols, j);
    MaxIsMaximum(c);
    var w :| 0 <= w < |c| && Max(c) == c[w];
    assert Render(m, cols)[w][j].Bold?;
  }

  /** The summary of a (datasets x variants) accuracy table: one row per variant, one
      column per dataset. */
  function SummaryTable(accuracy: seq<seq<real>>, variants: nat): (r: seq<seq<Cell>>)
    requires Rectangular(accuracy, variants) && variants > 0
    ensures |r| == variants && forall v :: 0 <= v < variants ==> |r[v]| == |accuracy|
  {
    Render(Transpose(accuracy, variants), |accuracy|)
  }

  /** Cell (v, d) of the summary shows the accuracy of variant v on dataset d, bold exactly
      when no other variant did better on dataset d. */
  lemma SummaryCell(accuracy: seq<seq<real>>, variants: nat, v: nat, d: nat)
    requires Rectangular(accuracy, variants) && v < variants && d < |accuracy|
    ensures SummaryTable(accuracy, variants)[v][d].value == accuracy[d][v]
    ensures SummaryTable(accuracy, variants)[v][d].Bold? <==>
      forall w :: 0 <= w < variants ==> accuracy[d][w] <= accuracy[d][v]
  {
    var t := Transpose(accuracy, variants);
    BoldIffColumnMaximum(t, |accuracy|, v, d);
    assert (forall k :: 0 <= k < |t| ==> t[k][d] <= t[v][d]) <==>
           (forall w :: 0 <= w < variants ==> accuracy[d][w] <= accuracy[d][v]) by {
      assert forall k :: 0 <= k < variants ==> t[k][d] == accuracy[d][k];
    }
  }
}
