/** Reshaping a drained snapshot: `np.array(data).T.reshape((-1, k + 1))` turns
    `k + 1` equal-length columns (timestamps, then one per channel) into rows
    `(timestamp, value_0, ..., value_{k-1})`. */
module Rows {

  /** All columns (or all rows) have the same length. */
  ghost predicate Uniform<T>(qs: seq<seq<T>>)
  {
    forall i :: 0 <= i < |qs| ==> |qs[i]| == |qs[0]|
  }

  /** Rows of a table given by its columns. */
  function Transpose(cols: seq<seq<real>>): (rows: seq<seq<real>>)
    requires |cols| > 0 && Uniform(cols)
    ensures |rows| == |cols[0]|
    ensures forall i :: 0 <= i < |rows| ==> |rows[i]| == |cols|
  {
    seq(|cols[0]|, i requires 0 <= i < |cols[0]| =>
      seq(|cols|, j requires 0 <= j < |cols| => cols[j][i]))
  }

  /** Each row lists, in column order, the entries at its own position: row `i`
      is `(ts[i], ch_0[i], ...)`. */
  lemma TransposeRowLayout(cols: seq<seq<real>>)
    requires |cols| > 0 && Uniform(cols)
    ensures forall i, j :: 0 <= i < |cols[0]| && 0 <= j < |cols| ==>
      Transpose(cols)[i][j] == cols[j][i]
  {
  }

  /** Reading the rows back by column gives the drained columns again: the
      reshape loses and reorders nothing. */
  lemma TransposeRoundTrip(cols: seq<seq<real>>)
    requires |cols| > 0 && Uniform(cols) && |cols[0]| > 0
    ensures var rows := Transpose(cols);
      Uniform(rows) && Transpose(rows) == cols
  {
    var rows := Transpose(cols);
    assert Uniform(rows);
    var back := Transpose(rows);
    assert |back| == |cols|;
    forall j | 0 <= j < |cols| ensures back[j] == cols[j] {
      assert |back[j]| == |cols[j]|;
      forall i | 0 <= i < |cols[j]| ensures back[j][i] == cols[j][i] {
        assert back[j][i] == rows[i][j];
      }
    }
  }
}
