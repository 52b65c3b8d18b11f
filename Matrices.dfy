/** Dense real matrices, the value view of GMAT's Rmatrix. */
module Matrices {

  /** A matrix as a sequence of rows. */
  type Matrix = seq<seq<real>>

  /** Every row of m has |m| entries. */
  predicate IsSquare(m: Matrix)
  {
    forall i :: 0 <= i < |m| ==> |m[i]| == |m|
  }

  /** m has the given number of rows and every row has cols entries. */
  predicate IsRect(m: Matrix, rows: nat, cols: nat)
  {
    |m| == rows && forall i :: 0 <= i < |m| ==> |m[i]| == cols
  }

  /** The number of columns of a rectangular matrix (0 for a matrix with no rows). */
  function NumCols(m: Matrix): nat
  {
    if m == [] then 0 else |m[0]|
  }

  predicate IsSymmetric(m: Matrix)
    requires IsSquare(m)
  {
    forall i, j :: 0 <= i < |m| && 0 <= j < |m| ==> m[i][j] == m[j][i]
  }

  /** The n-by-n identity matrix. */
  function Identity(n: nat): (m: Matrix)
    ensures |m| == n && IsSquare(m)
    ensures forall i, j :: 0 <= i < n && 0 <= j < n ==> m[i][j] == if i == j then 1.0 else 0.0
  {
    seq(n, i requires 0 <= i < n => seq(n, j requires 0 <= j < n => if i == j then 1.0 else 0.0))
  }

  /** The n-by-n zero matrix. */
  function Zero(rows: nat, cols: nat): (m: Matrix)
    ensures IsRect(m, rows, cols)
    ensures forall i, j :: 0 <= i < rows && 0 <= j < cols ==> m[i][j] == 0.0
  {
    seq(rows, i requires 0 <= i < rows => seq(cols, j requires 0 <= j < cols => 0.0))
  }

  /** The contents of a two-dimensional array as a matrix value. */
  function MatrixOf(a: array2<real>): (m: Matrix)
    reads a
    ensures IsRect(m, a.Length0, a.Length1)
    ensures forall i, j :: 0 <= i < a.Length0 && 0 <= j < a.Length1 ==> m[i][j] == a[i, j]
  {
    seq(a.Length0, i requires 0 <= i < a.Length0 reads a =>
      seq(a.Length1, j requires 0 <= j < a.Length1 reads a => a[i, j]))
  }

  /** Two rectangular matrices of the same shape with equal entries are equal. */
  lemma MatrixExt(m: Matrix, p: Matrix, rows: nat, cols: nat)
    requires IsRect(m, rows, cols) && IsRect(p, rows, cols)
    requires forall i, j :: 0 <= i < rows && 0 <= j < cols ==> m[i][j] == p[i][j]
    ensures m == p
  {
    forall i | 0 <= i < rows
      ensures m[i] == p[i]
    {
    }
  }
}
