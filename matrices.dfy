/** A layer's weight tensor, seen as a two-dimensional matrix of real numbers. */
module Matrices {

  /** One row of a weight matrix: the incoming weights of one output unit. */
  type Row = seq<real>

  /** A matrix with its shape kept beside its rows, as a tensor keeps `shape`
      even when it has no rows. */
  datatype Matrix = Matrix(rows: nat, cols: nat, data: seq<Row>) {

    /** The rows agree with the recorded shape. */
    ghost predicate Valid() {
      |data| == rows &&
      forall i :: 0 <= i < |data| ==> |data[i]| == cols
    }
  }

  /** `weights.T`: entry (i, j) of the result is entry (j, i) of `m`. */
  function Transpose(m: Matrix): (t: Matrix)
    requires m.Valid()
    ensures t.Valid()
    ensures t.rows == m.cols && t.cols == m.rows
    ensures forall i, j :: 0 <= i < t.rows && 0 <= j < t.cols ==> t.data[i][j] == m.data[j][i]
  {
    Matrix(m.cols, m.rows,
      seq(m.cols, i requires 0 <= i < m.cols =>
        seq(m.rows, j requires 0 <= j < m.rows => m.data[j][i])))
  }

  /** Transposing twice gives back the matrix, shape included. */
  lemma TransposeInvolutive(m: Matrix)
    requires m.Valid()
    ensures Transpose(Transpose(m)) == m
  {
    var t := Transpose(Transpose(m));
    assert |t.data| == |m.data|;
    forall i | 0 <= i < m.rows
      ensures t.data[i] == m.data[i]
    {
      assert |t.data[i]| == |m.data[i]|;
    }
  }

  /** The matrix as `__getitem__` uses it: transposed when the dataset was
      built with `transpose_weights`. */
  function Oriented(m: Matrix, transpose: bool): (o: Matrix)
    requires m.Valid()
    ensures o.Valid()
    ensures o.rows == (if transpose then m.cols else m.rows)
    ensures o.cols == (if transpose then m.rows else m.cols)
  {
    if transpose then Transpose(m) else m
  }
}
