/** The extended Kalman filter built on the sequential estimator: the
    initialization checks, the epsilon scaling of the square-root covariance,
    the lower-triangle layout of the factor in the warm-start file, the
    element update with delayed rectification, the epoch advance and the
    measurement deweighting rule
    (plugins/ExtendedKalmanFilterPlugin/src/base/EKF/ExtendedKalmanFilter.cpp).

    The filter keeps the covariance as a lower-triangular square-root factor
    S (sqrtP) with P = S * S^T. Cholesky factorisation, thin QR, matrix
    inversion and the solve-for conversion derivatives are not computed
    here: where GMAT calls them the model takes their results as
    inputs. */
module ExtendedKalmanFilterModel {
  import opened Common
  import opened Matrices
  import opened SeqEstimatorModel

  // ---------------------------------------------------------------------
  // The covariance a factor stands for

  /** The dot product of two vectors of equal length. */
  function Dot(u: seq<real>, v: seq<real>): real
    requires |u| == |v|
  {
    if u == [] then 0.0 else Dot(u[..|u| - 1], v[..|v| - 1]) + u[|u| - 1] * v[|v| - 1]
  }

  lemma {:induction false} DotCommutes(u: seq<real>, v: seq<real>)
    requires |u| == |v|
    ensures Dot(u, v) == Dot(v, u)
  {
    if u != [] {
      DotCommutes(u[..|u| - 1], v[..|v| - 1]);
    }
  }

  /** S * S^T: entry (i, j) is the dot product of rows i and j of S. */
  function Gram(s: Matrix): (p: Matrix)
    requires IsSquare(s)
    ensures IsRect(p, |s|, |s|)
  {
    seq(|s|, i requires 0 <= i < |s| =>
      seq(|s|, j requires 0 <= j < |s| => Dot(s[i], s[j])))
  }

  /** The covariance rebuilt from a factor is symmetric, so the averaging
      of mirrored entries that follows each rebuild leaves it unchanged. */
  lemma GramIsSymmetric(s: Matrix)
    requires IsSquare(s)
    ensures IsSymmetric(Gram(s))
  {
    var p := Gram(s);
    forall i, j | 0 <= i < |s| && 0 <= j < |s|
      ensures p[i][j] == p[j][i]
    {
      DotCommutes(s[i], s[j]);
    }
  }

  /** The ordinary matrix product of an a-by-b and a b-by-c matrix. */
  function MatMul(x: Matrix, y: Matrix, a: nat, b: nat, c: nat): (p: Matrix)
    requires IsRect(x, a, b) && IsRect(y, b, c)
    ensures IsRect(p, a, c)
  {
    seq(a, i requires 0 <= i < a =>
      seq(c, j requires 0 <= j < c => Dot(x[i], seq(b, k requires 0 <= k < b => y[k][j]))))
  }

  function Transpose(x: Matrix, a: nat, b: nat): (t: Matrix)
    requires IsRect(x, a, b)
    ensures IsRect(t, b, a)
  {
    seq(b, i requires 0 <= i < b => seq(a, j requires 0 <= j < a => x[j][i]))
  }

  // ---------------------------------------------------------------------
  // Epsilon conversion of the factor

  /** Every conversion factor can be divided by. */
  predicate NonzeroConversions(conv: seq<real>)
  {
    forall i :: 0 <= i < |conv| ==> conv[i] != 0.0
  }

  /** The factor with row i of its lower triangle (columns 0..i) multiplied
      by conv[i]; the strict upper triangle as it was. */
  function EpsilonScaled(m: Matrix, conv: seq<real>): (r: Matrix)
    requires IsSquare(m) && |conv| == |m|
    ensures IsRect(r, |m|, |m|)
  {
    seq(|m|, i requires 0 <= i < |m| =>
      seq(|m|, j requires 0 <= j < |m| => if j <= i then m[i][j] * conv[i] else m[i][j]))
  }

  /** SqrtCovarianceEpsilonConversion: scales the lower triangle of a square
      factor, row by row, in place. */
  method SqrtCovarianceEpsilonConversion(a: array2<real>, conv: seq<real>)
    requires a.Length0 == a.Length1 == |conv|
    modifies a
    ensures MatrixOf(a) == EpsilonScaled(old(MatrixOf(a)), conv)
  {
    ghost var m0 := MatrixOf(a);
    var n := a.Length0;
    var ii := 0;
    while ii < n
      invariant 0 <= ii <= n
      invariant forall r, c :: 0 <= r < n && 0 <= c < n ==>
        a[r, c] == if r < ii && c <= r then m0[r][c] * conv[r] else m0[r][c]
    {
      var factor := conv[ii];
      var jj := 0;
      while jj <= ii
        invariant 0 <= jj <= ii + 1
        invariant forall r, c :: 0 <= r < n && 0 <= c < n ==>
          a[r, c] == if (r < ii && c <= r) || (r == ii && c < jj) then m0[r][c] * conv[r] else m0[r][c]
      {
        a[ii, jj] := a[ii, jj] * factor;
        jj := jj + 1;
      }
      ii := ii + 1;
    }
    MatrixExt(MatrixOf(a), EpsilonScaled(m0, conv), n, n);
  }

  /** The diagonal is reported in converted units and the strict upper
      triangle is never touched. */
  lemma EpsilonScaledTriangle(m: Matrix, conv: seq<real>, i: nat, j: nat)
    requires IsSquare(m) && |conv| == |m| && i < |m| && j < |m|
    ensures i < j ==> EpsilonScaled(m, conv)[i][j] == m[i][j]
    ensures j <= i ==> EpsilonScaled(m, conv)[i][j] == m[i][j] * conv[i]
  {
  }

  /** The factor after a change of nominal values: row i of the lower
      triangle is multiplied by prev[i] / conv[i] when the conversion of
      state i changed, and is kept otherwise. */
  function Renominalized(m: Matrix, prev: seq<real>, conv: seq<real>): (r: Matrix)
    requires IsSquare(m) && |prev| == |m| && |conv| == |m| && NonzeroConversions(conv)
    ensures IsRect(r, |m|, |m|)
  {
    seq(|m|, i requires 0 <= i < |m| =>
      seq(|m|, j requires 0 <= j < |m| =>
        if j <= i && conv[i] != prev[i] then m[i][j] * (prev[i] / conv[i]) else m[i][j]))
  }

  /** Some state's conversion factor differs from the previous one. */
  predicate SomeConversionChanged(prev: seq<real>, conv: seq<real>)
    requires |prev| == |conv|
  {
    exists i :: 0 <= i < |conv| && conv[i] != prev[i]
  }

  /** The row loop of UpdateCovarianceNominalValues: rescales in place and
      reports whether any entry was rescaled. */
  method RenominalizeRows(a: array2<real>, prev: seq<real>, conv: seq<real>) returns (changed: bool)
    requires a.Length0 == a.Length1 == |conv| == |prev| && NonzeroConversions(conv)
    modifies a
    ensures changed <==> SomeConversionChanged(prev, conv)
    ensures MatrixOf(a) == Renominalized(old(MatrixOf(a)), prev, conv)
  {
    ghost var m0 := MatrixOf(a);
    var n := a.Length0;
    changed := false;
    var ii := 0;
    while ii < n
      invariant 0 <= ii <= n
      invariant changed <==> exists r :: 0 <= r < ii && conv[r] != prev[r]
      invariant forall r, c :: 0 <= r < n && 0 <= c < n ==>
        a[r, c] == if r < ii && c <= r && conv[r] != prev[r] then m0[r][c] * (prev[r] / conv[r]) else m0[r][c]
    {
      var iiConv := conv[ii];
      if iiConv != prev[ii] {
        ScaleRowPrefix(a, ii, prev[ii] / iiConv);
        changed := true;
      }
      ii := ii + 1;
    }
    MatrixExt(MatrixOf(a), Renominalized(m0, prev, conv), n, n);
  }

  /** Multiplies entries 0..row of the given row by factor. */
  method ScaleRowPrefix(a: array2<real>, row: nat, factor: real)
    requires a.Length0 == a.Length1 && row < a.Length0
    modifies a
    ensures forall r, c :: 0 <= r < a.Length0 && 0 <= c < a.Length1 ==>
      a[r, c] == if r == row && c <= row then old(a[r, c]) * factor else old(a[r, c])
  {
    var jj := 0;
    while jj <= row
      invariant 0 <= jj <= row + 1
      invariant forall r, c :: 0 <= r < a.Length0 && 0 <= c < a.Length1 ==>
        a[r, c] == if r == row && c < jj then old(a[r, c]) * factor else old(a[r, c])
    {
      a[row, jj] := a[row, jj] * factor;
      jj := jj + 1;
    }
  }

  /** A change of nominal values leaves the reported factor as it was: the
      renominalized factor converted with the new factors equals the old
      factor converted with the previous ones. */
  lemma RenominalizedKeepsReported(m: Matrix, prev: seq<real>, conv: seq<real>)
    requires IsSquare(m) && |prev| == |m| && |conv| == |m| && NonzeroConversions(conv)
    ensures EpsilonScaled(Renominalized(m, prev, conv), conv) == EpsilonScaled(m, prev)
  {
    var n := |m|;
    var lhs := EpsilonScaled(Renominalized(m, prev, conv), conv);
    var rhs := EpsilonScaled(m, prev);
    forall i, j | 0 <= i < n && 0 <= j < n
      ensures lhs[i][j] == rhs[i][j]
    {
      if j <= i && conv[i] != prev[i] {
        var x := m[i][j];
        calc {
          lhs[i][j];
          (x * (prev[i] / conv[i])) * conv[i];
          x * ((prev[i] / conv[i]) * conv[i]);
          { assert (prev[i] / conv[i]) * conv[i] == prev[i]; }
          x * prev[i];
        }
      }
    }
    MatrixExt(lhs, rhs, n, n);
  }

  // ---------------------------------------------------------------------
  // The lower triangle in the warm-start file

  /** The number of entries in the lower triangle of a k-by-k matrix. */
  function Tri(k: nat): nat
  {
    if k == 0 then 0 else Tri(k - 1) + k
  }

  lemma {:induction false} TriClosedForm(k: nat)
    ensures 2 * Tri(k) == k * (k + 1)
  {
    if k > 0 {
      TriClosedForm(k - 1);
      assert 2 * Tri(k) == (k - 1) * k + 2 * k;
      assert (k - 1) * k + 2 * k == k * (k + 1);
    }
  }

  lemma {:induction false} TriMonotone(a: nat, b: nat)
    requires a <= b
    ensures Tri(a) <= Tri(b)
    decreases b - a
  {
    if a < b {
      TriMonotone(a, b - 1);
    }
  }

  /** Row i of the lower triangle starts at Tri(i) and ends before Tri(n). */
  lemma TriRowFits(i: nat, j: nat, n: nat)
    requires j <= i < n
    ensures Tri(i) + j < Tri(n)
  {
    TriMonotone(i + 1, n);
  }

  lemma AllTriRowsFit(n: nat)
    ensures forall i :: 0 <= i < n ==> Tri(i) + i < Tri(n)
  {
    forall i | 0 <= i < n
      ensures Tri(i) + i < Tri(n)
    {
      TriRowFits(i, i, n);
    }
  }

  /** The first k entries of a row, each multiplied by c. */
  function ScaledRow(row: seq<real>, c: real, k: nat): (r: seq<real>)
    requires k <= |row|
    ensures |r| == k
  {
    seq(k, j requires 0 <= j < k => row[j] * c)
  }

  lemma ScaledRowAppend(row: seq<real>, c: real, k: nat)
    requires k < |row|
    ensures ScaledRow(row, c, k + 1) == ScaledRow(row, c, k) + [row[k] * c]
  {
    var a := ScaledRow(row, c, k + 1);
    var b := ScaledRow(row, c, k) + [row[k] * c];
    forall x | 0 <= x <= k
      ensures a[x] == b[x]
    {
    }
    assert |a| == |b|;
  }

  /** The values written for the factor: for each row i < rows in turn, its
      entries 0..i multiplied by conv[i]. */
  function PackLower(m: Matrix, conv: seq<real>, rows: nat): (p: seq<real>)
    requires IsSquare(m) && |conv| == |m| && rows <= |m|
    ensures |p| == Tri(rows)
  {
    if rows == 0 then [] else PackLower(m, conv, rows - 1) + ScaledRow(m[rows - 1], conv[rows - 1], rows)
  }

  /** The written record holds n(n+1)/2 values. */
  lemma PackedCount(m: Matrix, conv: seq<real>)
    requires IsSquare(m) && |conv| == |m|
    ensures 2 * |PackLower(m, conv, |m|)| == |m| * (|m| + 1)
  {
    TriClosedForm(|m|);
  }

  /** Entry (i, j) of the lower triangle is written at position Tri(i) + j. */
  lemma {:induction false} PackLowerAt(m: Matrix, conv: seq<real>, rows: nat, i: nat, j: nat)
    requires IsSquare(m) && |conv| == |m| && rows <= |m| && j <= i < rows
    ensures Tri(i) + j < Tri(rows)
    ensures PackLower(m, conv, rows)[Tri(i) + j] == m[i][j] * conv[i]
  {
    TriRowFits(i, j, rows);
    if i < rows - 1 {
      TriRowFits(i, j, rows - 1);
      PackLowerAt(m, conv, rows - 1, i, j);
    }
  }

  /** The write loop of WriteCovarianceToDataFile. */
  method WriteLowerTriangle(m: Matrix, conv: seq<real>) returns (values: seq<real>)
    requires IsSquare(m) && |conv| == |m|
    ensures values == PackLower(m, conv, |m|)
  {
    values := [];
    var ii := 0;
    while ii < |m|
      invariant 0 <= ii <= |m|
      invariant values == PackLower(m, conv, ii)
    {
      var c := conv[ii];
      var row := m[ii];
      ghost var before := values;
      var jj := 0;
      while jj <= ii
        invariant 0 <= jj <= ii + 1 && ii < |row|
        invariant values == before + ScaledRow(row, c, jj)
      {
        ScaledRowAppend(row, c, jj);
        assert before + ScaledRow(row, c, jj + 1) == before + ScaledRow(row, c, jj) + [row[jj] * c];
        values := values + [row[jj] * c];
        jj := jj + 1;
      }
      ii := ii + 1;
    }
  }

  /** Every entry of d is the n-by-n identity's. */
  predicate IsIdentityOf(d: Matrix, n: nat)
    requires IsRect(d, n, n)
  {
    forall i, j :: 0 <= i < n && 0 <= j < n ==> d[i][j] == if i == j then 1.0 else 0.0
  }

  /** The scan of dX/dS for an entry that differs from the identity. */
  method DiffersFromIdentity(d: Matrix, n: nat) returns (notCartesian: bool)
    requires IsRect(d, n, n)
    ensures notCartesian <==> !IsIdentityOf(d, n)
  {
    notCartesian := false;
    var ii := 0;
    while ii < n
      invariant 0 <= ii <= n
      invariant !notCartesian
      invariant forall r, c :: 0 <= r < ii && 0 <= c < n ==> d[r][c] == if r == c then 1.0 else 0.0
    {
      var jj := 0;
      while jj < n
        invariant 0 <= jj <= n
        invariant forall c :: 0 <= c < jj ==> d[ii][c] == if ii == c then 1.0 else 0.0
      {
        var identityValue := if ii == jj then 1.0 else 0.0;
        if d[ii][jj] != identityValue {
          notCartesian := true;
          return;
        }
        jj := jj + 1;
      }
      ii := ii + 1;
    }
  }

  /** The lower-triangular matrix read back from a record: row i, columns
      0..i, from the values starting at first + Tri(i); zeros above. */
  function Unpacked(data: seq<real>, first: nat, n: nat): (m: Matrix)
    requires first + Tri(n) <= |data|
    ensures IsRect(m, n, n)
  {
    seq(n, i requires 0 <= i < n =>
      seq(n, j requires 0 <= j < n =>
        if j <= i then TriRowFits(i, j, n); data[first + Tri(i) + j] else 0.0))
  }

  /** Fills entries 0..row of the given row from data, starting at index. */
  method ReadRow(a: array2<real>, data: seq<real>, index: nat, row: nat)
    requires a.Length0 == a.Length1 && row < a.Length0 && index + row < |data|
    modifies a
    ensures forall r, c :: 0 <= r < a.Length0 && 0 <= c < a.Length1 ==>
      a[r, c] == if r == row && c <= row then data[index + c] else old(a[r, c])
  {
    var jj := 0;
    while jj <= row
      invariant 0 <= jj <= row + 1
      invariant forall r, c :: 0 <= r < a.Length0 && 0 <= c < a.Length1 ==>
        a[r, c] == if r == row && c < jj then data[index + c] else old(a[r, c])
    {
      a[row, jj] := data[index + jj];
      jj := jj + 1;
    }
  }

  /** The read loop of ReadCovarianceFromDataFile into a fresh zero matrix. */
  method ReadLowerTriangle(data: seq<real>, first: nat, n: nat) returns (fileCov: array2<real>)
    requires first + Tri(n) <= |data|
    ensures fresh(fileCov)
    ensures fileCov.Length0 == n && fileCov.Length1 == n
    ensures MatrixOf(fileCov) == Unpacked(data, first, n)
  {
    fileCov := new real[n, n]((i, j) => 0.0);
    AllTriRowsFit(n);
    var index := first;
    var ii := 0;
    while ii < n
      invariant 0 <= ii <= n
      invariant index == first + Tri(ii)
      invariant forall r, c :: 0 <= r < n && 0 <= c < n ==>
        fileCov[r, c] == if r < ii && c <= r then data[first + Tri(r) + c] else 0.0
    {
      TriRowFits(ii, ii, n);
      ReadRow(fileCov, data, index, ii);
      index := index + ii + 1;
      ii := ii + 1;
    }
    MatrixExt(MatrixOf(fileCov), Unpacked(data, first, n), n, n);
  }

  /** Every mapped solve-for state names a column among the file's
      fileStateSize state columns. */
  predicate ColumnsInRange(col: seq<int>, firstState: nat, fileStateSize: nat, n: nat)
    requires n <= |col|
  {
    forall i :: 0 <= i < n && col[i] >= 0 ==> firstState <= col[i] < firstState + fileStateSize
  }

  /** Entry (i, j) of the factor assembled from the file's factor: in the
      lower triangle, when both states are in the file, the file's entry at
      their columns divided by conv[i]; zero otherwise. */
  function MappedEntry(fileCov: Matrix, col: seq<int>, firstState: nat, conv: seq<real>, n: nat, i: nat, j: nat): real
    requires IsSquare(fileCov) && n <= |col| && n <= |conv| && NonzeroConversions(conv)
    requires ColumnsInRange(col, firstState, |fileCov|, n) && i < n && j < n
  {
    if j <= i && col[i] >= 0 && col[j] >= 0
    then fileCov[col[i] - firstState][col[j] - firstState] / conv[i]
    else 0.0
  }

  function MappedFactor(fileCov: Matrix, col: seq<int>, firstState: nat, conv: seq<real>, n: nat): (m: Matrix)
    requires IsSquare(fileCov) && n <= |col| && n <= |conv| && NonzeroConversions(conv)
    requires ColumnsInRange(col, firstState, |fileCov|, n)
    ensures IsRect(m, n, n)
  {
    seq(n, i requires 0 <= i < n =>
      seq(n, j requires 0 <= j < n => MappedEntry(fileCov, col, firstState, conv, n, i, j)))
  }

  /** One row of the mapping loop of ReadCovarianceFromDataFile. */
  method MapFileRow(s: array2<real>, fileCov: array2<real>, col: seq<int>, firstState: nat, conv: seq<real>,
                    n: nat, ii: nat)
    requires fileCov.Length0 == fileCov.Length1 && n <= |col| && n <= |conv| && NonzeroConversions(conv)
    requires ColumnsInRange(col, firstState, fileCov.Length0, n)
    requires s.Length0 == n && s.Length1 == n && ii < n && s != fileCov
    requires forall c :: 0 <= c < n ==> s[ii, c] == 0.0
    modifies s
    ensures forall r, c :: 0 <= r < n && 0 <= c < n ==>
      s[r, c] == if r == ii then MappedEntry(MatrixOf(fileCov), col, firstState, conv, n, r, c) else old(s[r, c])
  {
    ghost var f := MatrixOf(fileCov);
    if col[ii] >= 0 {
      var iiConv := conv[ii];
      var jj := 0;
      while jj <= ii
        invariant 0 <= jj <= ii + 1
        invariant forall r, c :: 0 <= r < n && 0 <= c < n ==>
          s[r, c] == if r == ii && c < jj then MappedEntry(f, col, firstState, conv, n, r, c) else old(s[r, c])
      {
        if col[jj] >= 0 {
          var idx1 := col[ii] - firstState;
          var idx2 := col[jj] - firstState;
          s[ii, jj] := fileCov[idx1, idx2] / iiConv;
        }
        jj := jj + 1;
      }
    }
  }

  /** The mapping loop of ReadCovarianceFromDataFile, into a fresh zero
      matrix. */
  method MapFileFactor(fileCov: array2<real>, col: seq<int>, firstState: nat, conv: seq<real>, n: nat)
    returns (s: array2<real>)
    requires fileCov.Length0 == fileCov.Length1 && n <= |col| && n <= |conv| && NonzeroConversions(conv)
    requires ColumnsInRange(col, firstState, fileCov.Length0, n)
    ensures fresh(s) && s.Length0 == n && s.Length1 == n
    ensures MatrixOf(s) == MappedFactor(MatrixOf(fileCov), col, firstState, conv, n)
  {
    ghost var f := MatrixOf(fileCov);
    s := new real[n, n]((i, j) => 0.0);
    var ii := 0;
    while ii < n
      invariant 0 <= ii <= n
      invariant forall r, c :: 0 <= r < n && 0 <= c < n ==>
        s[r, c] == if r < ii then MappedEntry(f, col, firstState, conv, n, r, c) else 0.0
    {
      MapFileRow(s, fileCov, col, firstState, conv, n, ii);
      ii := ii + 1;
    }
    MatrixExt(MatrixOf(s), MappedFactor(f, col, firstState, conv, n), n, n);
  }

  /** The lower triangle of m, zeros above. */
  function LowerPart(m: Matrix): (r: Matrix)
    requires IsSquare(m)
    ensures IsRect(r, |m|, |m|)
  {
    seq(|m|, i requires 0 <= i < |m| => seq(|m|, j requires 0 <= j < |m| => if j <= i then m[i][j] else 0.0))
  }

  lemma DivCancels(x: real, c: real)
    requires c != 0.0
    ensures (x * c) / c == x
  {
    var z := (x * c) / c;
    assert z * c == x * c;
    assert (z - x) * c == 0.0;
  }

  /** When the file's state columns are the filter's states in order, every
      mapped state is in range. */
  lemma IdentityColumnsInRange(col: seq<int>, firstState: nat, n: nat)
    requires |col| == n && forall i :: 0 <= i < n ==> col[i] == firstState + i
    ensures ColumnsInRange(col, firstState, n, n)
  {
  }

  /** An aligned entry holding x scaled by its row's conversion maps back
      to x. */
  lemma AlignedEntryRecovers(u: Matrix, col: seq<int>, firstState: nat, conv: seq<real>, n: nat,
                             i: nat, j: nat, x: real)
    requires IsSquare(u) && n <= |col| && n <= |conv| && NonzeroConversions(conv)
    requires ColumnsInRange(col, firstState, |u|, n) && j <= i < n
    requires col[i] == firstState + i && col[j] == firstState + j
    requires u[i][j] == x * conv[i]
    ensures MappedEntry(u, col, firstState, conv, n, i, j) == x
  {
    MappedEntryAligned(u, col, firstState, conv, n, i, j);
    DivCancels(x, conv[i]);
  }

  lemma UnpackedAt(data: seq<real>, first: nat, n: nat, i: nat, j: nat)
    requires first + Tri(n) <= |data| && j <= i < n
    ensures first + Tri(i) + j < |data|
    ensures Unpacked(data, first, n)[i][j] == data[first + Tri(i) + j]
  {
    TriRowFits(i, j, n);
  }

  lemma MappedEntryAligned(u: Matrix, col: seq<int>, firstState: nat, conv: seq<real>, n: nat, i: nat, j: nat)
    requires IsSquare(u) && n <= |col| && n <= |conv| && NonzeroConversions(conv)
    requires ColumnsInRange(col, firstState, |u|, n) && j <= i < n
    requires col[i] == firstState + i && col[j] == firstState + j
    ensures MappedEntry(u, col, firstState, conv, n, i, j) == u[i][j] / conv[i]
  {
  }

  lemma PackedAfterPrefix(prefix: seq<real>, m: Matrix, conv: seq<real>, i: nat, j: nat)
    requires IsSquare(m) && |conv| == |m| && j <= i < |m|
    ensures |prefix| + Tri(i) + j < |prefix + PackLower(m, conv, |m|)|
    ensures (prefix + PackLower(m, conv, |m|))[|prefix| + Tri(i) + j] == m[i][j] * conv[i]
  {
    PackLowerAt(m, conv, |m|, i, j);
  }

  /** Reading inverts writing: when the file's state columns are the
      filter's states in order, unpacking the values written for a factor
      after any leading columns and dividing out the conversions gives back
      the factor's lower triangle. */
  lemma ReadInvertsWrite(prefix: seq<real>, m: Matrix, conv: seq<real>, firstState: nat, col: seq<int>)
    requires IsSquare(m) && |conv| == |m| && NonzeroConversions(conv)
    requires |col| == |m| && forall i :: 0 <= i < |m| ==> col[i] == firstState + i
    ensures |prefix| + Tri(|m|) <= |prefix + PackLower(m, conv, |m|)|
    ensures ColumnsInRange(col, firstState, |m|, |m|)
    ensures MappedFactor(Unpacked(prefix + PackLower(m, conv, |m|), |prefix|, |m|), col, firstState, conv, |m|)
            == LowerPart(m)
  {
    UnpackedHoldsScaled(prefix, m, conv);
    ScaledLowerMapsBack(Unpacked(prefix + PackLower(m, conv, |m|), |prefix|, |m|), m, conv, firstState, col);
  }

  /** The lower triangle read back from a record holds the factor's entries
      scaled by their rows' conversions. */
  lemma UnpackedHoldsScaled(prefix: seq<real>, m: Matrix, conv: seq<real>)
    requires IsSquare(m) && |conv| == |m|
    ensures |prefix| + Tri(|m|) <= |prefix + PackLower(m, conv, |m|)|
    ensures forall i, j :: 0 <= j <= i < |m| ==>
      Unpacked(prefix + PackLower(m, conv, |m|), |prefix|, |m|)[i][j] == m[i][j] * conv[i]
  {
    var n := |m|;
    var data := prefix + PackLower(m, conv, n);
    forall i, j | 0 <= j <= i < n
      ensures Unpacked(data, |prefix|, n)[i][j] == m[i][j] * conv[i]
    {
      PackedAfterPrefix(prefix, m, conv, i, j);
      UnpackedAt(data, |prefix|, n, i, j);
    }
  }

  /** Dividing out the conversions from an aligned file factor whose lower
      triangle holds m's scaled entries gives m's lower triangle. */
  lemma ScaledLowerMapsBack(u: Matrix, m: Matrix, conv: seq<real>, firstState: nat, col: seq<int>)
    requires IsSquare(m) && |conv| == |m| && NonzeroConversions(conv) && IsRect(u, |m|, |m|)
    requires |col| == |m| && forall i :: 0 <= i < |m| ==> col[i] == firstState + i
    requires forall i, j :: 0 <= j <= i < |m| ==> u[i][j] == m[i][j] * conv[i]
    ensures ColumnsInRange(col, firstState, |m|, |m|)
    ensures MappedFactor(u, col, firstState, conv, |m|) == LowerPart(m)
  {
    var n := |m|;
    IdentityColumnsInRange(col, firstState, n);
    var r := MappedFactor(u, col, firstState, conv, n);
    forall i, j | 0 <= i < n && 0 <= j < n
      ensures r[i][j] == LowerPart(m)[i][j]
    {
      if j <= i {
        AlignedEntryRecovers(u, col, firstState, conv, n, i, j, m[i][j]);
      }
    }
    MatrixExt(r, LowerPart(m), n, n);
  }


  /** The solve-for states 0..k sit, in order, in the file's first state
      columns, and state k + 1, when the file and the mapping have one, does
      not. */
  predicate IsAlignedPrefix(col: seq<int>, firstState: nat, fileStateSize: nat, k: int)
  {
    && -1 <= k < fileStateSize && k < |col|
    && (forall i :: 0 <= i <= k ==> col[i] == firstState + i)
    && (k + 1 < fileStateSize && k + 1 < |col| ==> col[k + 1] != firstState + k + 1)
  }

  /** The loop that finds how many leading solve-for states sit, in order,
      in the file's first state columns: the index of the last of them, -1
      when the first one already differs. */
  method AlignedPrefix(col: seq<int>, firstState: nat, fileStateSize: nat) returns (k: int)
    ensures IsAlignedPrefix(col, firstState, fileStateSize, k)
  {
    k := -1;
    var ii := 0;
    while ii < fileStateSize && ii < |col|
      invariant 0 <= ii <= fileStateSize && ii <= |col|
      invariant k == ii - 1
      invariant forall i :: 0 <= i < ii ==> col[i] == firstState + i
    {
      if col[ii] - firstState != ii {
        return;
      }
      k := ii;
      ii := ii + 1;
    }
  }

  /** The factor after the states missing from the file are filled in:
      from row `from` on, the diagonal and upper entries come from the
      transposed Cholesky factor of the assembled covariance. */
  function WithFullFactorRows(m: Matrix, full: Matrix, from: nat): (r: Matrix)
    requires IsSquare(m) && IsRect(full, |m|, |m|)
    ensures IsRect(r, |m|, |m|)
  {
    seq(|m|, i requires 0 <= i < |m| =>
      seq(|m|, j requires 0 <= j < |m| => if i >= from && j >= i then full[i][j] else m[i][j]))
  }

  method CopyFullFactorRows(s: array2<real>, full: Matrix, from: nat)
    requires s.Length0 == s.Length1 && IsRect(full, s.Length0, s.Length0)
    modifies s
    ensures MatrixOf(s) == WithFullFactorRows(old(MatrixOf(s)), full, from)
  {
    ghost var m0 := MatrixOf(s);
    var n := s.Length0;
    var ii := from;
    while ii < n
      invariant from <= ii || n <= from
      invariant forall r, c :: 0 <= r < n && 0 <= c < n ==>
        s[r, c] == if from <= r < ii && c >= r then full[r][c] else m0[r][c]
    {
      var jj := ii;
      while jj < n
        invariant ii <= jj <= n
        invariant forall r, c :: 0 <= r < n && 0 <= c < n ==>
          s[r, c] == if (from <= r < ii && c >= r) || (r == ii && ii <= c < jj) then full[r][c] else m0[r][c]
      {
        s[ii, jj] := full[ii][jj];
        jj := jj + 1;
      }
      ii := ii + 1;
    }
    MatrixExt(MatrixOf(s), WithFullFactorRows(m0, full, from), n, n);
  }

  // ---------------------------------------------------------------------
  // State vectors

  /** Element-wise sum of two vectors of equal length. */
  function VecAdd(a: seq<real>, b: seq<real>): (r: seq<real>)
    requires |a| == |b|
    ensures |r| == |a|
  {
    seq(|a|, i requires 0 <= i < |a| => a[i] + b[i])
  }

  function Zeros(n: nat): (z: seq<real>)
    ensures |z| == n
  {
    seq(n, i => 0.0)
  }

  /** The accumulation loop `state[i] += dx[i]` of UpdateElements and
      AdvanceEpoch. */
  method AddInto(a: seq<real>, dx: seq<real>) returns (r: seq<real>)
    requires |a| == |dx|
    ensures r == VecAdd(a, dx)
  {
    r := a;
    var i := 0;
    while i < |a|
      invariant 0 <= i <= |a| && |r| == |a|
      invariant forall k :: 0 <= k < i ==> r[k] == a[k] + dx[k]
      invariant forall k :: i <= k < |a| ==> r[k] == a[k]
    {
      r := r[i := r[i] + dx[i]];
      i := i + 1;
    }
  }

  /** The state after applying each correction in turn. */
  function ApplyAll(s: seq<real>, dxs: seq<seq<real>>): (r: seq<real>)
    requires forall k :: 0 <= k < |dxs| ==> |dxs[k]| == |s|
    ensures |r| == |s|
  {
    if dxs == [] then s else VecAdd(ApplyAll(s, dxs[..|dxs| - 1]), dxs[|dxs| - 1])
  }

  /** Delayed rectification only defers: collecting corrections in a zero
      offset and folding the offset into the state once gives the state that
      applying each correction directly would have given. */
  lemma {:induction false} DeferredCorrectionsAgree(s: seq<real>, dxs: seq<seq<real>>)
    requires forall k :: 0 <= k < |dxs| ==> |dxs[k]| == |s|
    ensures VecAdd(s, ApplyAll(Zeros(|s|), dxs)) == ApplyAll(s, dxs)
  {
    if dxs == [] {
      assert VecAdd(s, Zeros(|s|)) == s;
    } else {
      var init := dxs[..|dxs| - 1];
      DeferredCorrectionsAgree(s, init);
      var o := ApplyAll(Zeros(|s|), init);
      var d := dxs[|dxs| - 1];
      assert VecAdd(s, VecAdd(o, d)) == VecAdd(VecAdd(s, o), d);
    }
  }

  // ---------------------------------------------------------------------
  // Noise epoch and deweighting

  /** The noise-update epoch (in days) after AdvanceEpoch checks it against
      the current epoch: a noise epoch the filter has reached is moved one
      noise step on, in the direction of the run. */
  function NextNoiseUpdate(nextNoise: real, current: real, forward: bool, noiseStep: real, roundoff: real): real
  {
    var dtNoise := (nextNoise - current) * SecondsPerDay;
    if forward && dtNoise < roundoff * SecondsPerDay then nextNoise + noiseStep / SecondsPerDay
    else if !forward && dtNoise > -roundoff * SecondsPerDay then nextNoise - noiseStep / SecondsPerDay
    else nextNoise
  }

  /** The noise epoch only moves in the direction of the run, and when it
      moves it lands exactly one noise step (in seconds) away. */
  lemma NoiseUpdateFollowsRun(nextNoise: real, current: real, forward: bool, noiseStep: real, roundoff: real)
    requires noiseStep >= 0.0
    ensures var n := NextNoiseUpdate(nextNoise, current, forward, noiseStep, roundoff);
      && (forward ==> n >= nextNoise)
      && (!forward ==> n <= nextNoise)
      && (n == nextNoise || (n - nextNoise) * SecondsPerDay == (if forward then noiseStep else -noiseStep))
  {
  }

  /** The deweighting scale of ComputeGain: sqrt(1 + coeff) when the
      position sigma exceeds the threshold and the coefficient is positive,
      1 otherwise. The square root is a parameter. */
  function DeweightScale(pBar: Matrix, threshold: real, coeff: real, sqrt: real -> real): real
    requires |pBar| >= 3 && forall i :: 0 <= i < 3 ==> |pBar[i]| >= 3
  {
    var posCovTraceSqrt := sqrt(pBar[0][0] + pBar[1][1] + pBar[2][2]);
    if posCovTraceSqrt > threshold && coeff > 0.0 then sqrt(1.0 + coeff) else 1.0
  }

  /** With a true square root, the scale is at least 1, and it squares to
      1 + coeff exactly when the measurement is deweighted and to 1
      otherwise. */
  lemma DeweightScaleSquares(pBar: Matrix, threshold: real, coeff: real, sqrt: real -> real)
    requires |pBar| >= 3 && forall i :: 0 <= i < 3 ==> |pBar[i]| >= 3
    requires coeff > 0.0 ==> sqrt(1.0 + coeff) >= 0.0 && sqrt(1.0 + coeff) * sqrt(1.0 + coeff) == 1.0 + coeff
    ensures var s := DeweightScale(pBar, threshold, coeff, sqrt);
      && s >= 1.0
      && s * s == (if sqrt(pBar[0][0] + pBar[1][1] + pBar[2][2]) > threshold && coeff > 0.0 then 1.0 + coeff else 1.0)
  {
    var s := DeweightScale(pBar, threshold, coeff, sqrt);
    if s != 1.0 {
      SquareAtLeastOne(s);
    }
  }

  lemma MulMonotone(a: real, b: real, c: real)
    requires 0.0 <= a && b <= c
    ensures a * b <= a * c
  {
  }

  /** A non-negative number whose square is at least 1 is at least 1. */
  lemma SquareAtLeastOne(s: real)
    requires s >= 0.0 && s * s >= 1.0
    ensures s >= 1.0
  {
    if s < 1.0 {
      MulMonotone(s, s, 1.0);
    }
  }

  // ---------------------------------------------------------------------
  // The filter

  /** The edit flag of a measurement: NORMAL, or any of the editing
      reasons. */
  datatype EditFlag = Normal | Edited

  /** How a warm-start covariance was read. */
  datatype ReadPath = BaseReader | FactorRead(alignedIndex: int)

  /** The results of the collaborators ReadCovarianceFromDataFile calls:
      the transposed Cholesky factor of the covariance assembled for states
      missing from the file, dX/dS, its inverse, and the transposed Cholesky
      factor of the covariance converted back to the solve-for
      representation. */
  /** A fresh n-by-n array holding the matrix k. */
  method ArrayOf(k: Matrix, n: nat) returns (a: array2<real>)
    requires IsRect(k, n, n)
    ensures fresh(a) && a.Length0 == n && a.Length1 == n
    ensures MatrixOf(a) == k
  {
    a := new real[n, n]((i, j) requires 0 <= i < n && 0 <= j < n => k[i][j]);
    MatrixExt(MatrixOf(a), k, n, n);
  }

  datatype ReadFactors = ReadFactors(fullFactor: Matrix, dXdS: Matrix, dSdX: Matrix, solveForFactor: Matrix)

  const CovarianceSizeMessage: string :=
    "In ExtendedKalmanFilter::Estimate(), the covariance matrix is not sized correctly!!!"
  const NoObservationMessage: string := "Error: No observation data was used for estimation.\n"
  const CovarianceHeader: string := "SqrtCovariance_1_1"

  class ExtendedKalmanFilter {
    var stateSize: nat
    /** GetEpsilonConversion of each solve-for state. */
    var epsilonConversions: seq<real>
    /** The square-root covariance; 0-by-0 until it is sized. */
    var sqrtP: array2<real>
    var sqrtPSized: bool
    /** The state covariance matrix P. */
    var covariance: Matrix
    var informationInverse: Matrix
    /** The factor reported for the first update, in converted units. */
    var reportedSqrtCov: Matrix
    var estimationState: seq<real>
    var stateOffset: seq<real>
    var hasStateOffset: bool
    var currentState: SolverState
    /** Epochs in days. */
    var estimationEpoch: real
    var currentEpoch: real
    var nextMeasurementEpoch: real
    var nextNoiseUpdate: real
    /** Seconds. */
    var processNoiseStep: real
    var delayRectifySpan: real

    ghost predicate Valid()
      reads this
    {
      && |epsilonConversions| == stateSize && NonzeroConversions(epsilonConversions)
      && |estimationState| == stateSize && |stateOffset| == stateSize
      && sqrtP.Length0 == sqrtP.Length1
      && (if sqrtPSized then sqrtP.Length0 == stateSize else sqrtP.Length0 == 0)
    }

    /** A filter as the sequential estimator leaves it: no factor yet, no
        state offset. */
    constructor (conv: seq<real>, cov: Matrix, state: seq<real>, epoch: real, noiseStep: real, delaySpan: real)
      requires |conv| == |state| && NonzeroConversions(conv)
      ensures Valid()
      ensures stateSize == |state| && epsilonConversions == conv && covariance == cov
      ensures estimationState == state && stateOffset == Zeros(|state|) && !hasStateOffset
      ensures !sqrtPSized && fresh(sqrtP)
      ensures currentState == Initializing
      ensures estimationEpoch == epoch && currentEpoch == epoch
      ensures processNoiseStep == noiseStep && delayRectifySpan == delaySpan
    {
      stateSize := |state|;
      epsilonConversions := conv;
      sqrtP := new real[0, 0];
      sqrtPSized := false;
      covariance := cov;
      informationInverse := cov;
      reportedSqrtCov := [];
      estimationState := state;
      stateOffset := Zeros(|state|);
      hasStateOffset := false;
      currentState := Initializing;
      estimationEpoch := epoch;
      currentEpoch := epoch;
      nextMeasurementEpoch := epoch;
      nextNoiseUpdate := epoch;
      processNoiseStep := noiseStep;
      delayRectifySpan := delaySpan;
    }

    /** Sizes sqrtP from the covariance's factor when it is not sized yet. */
    method EnsureFactor(factorOfCovariance: Matrix)
      requires Valid() && IsRect(factorOfCovariance, stateSize, stateSize)
      modifies this
      ensures Valid() && sqrtPSized
      ensures old(sqrtPSized) ==> sqrtP == old(sqrtP)
      ensures !old(sqrtPSized) ==> fresh(sqrtP) && MatrixOf(sqrtP) == factorOfCovariance
      ensures stateSize == old(stateSize) && epsilonConversions == old(epsilonConversions)
      ensures covariance == old(covariance) && informationInverse == old(informationInverse)
      ensures reportedSqrtCov == old(reportedSqrtCov)
      ensures estimationState == old(estimationState) && stateOffset == old(stateOffset)
      ensures hasStateOffset == old(hasStateOffset) && currentState == old(currentState)
      ensures estimationEpoch == old(estimationEpoch) && currentEpoch == old(currentEpoch)
      ensures nextMeasurementEpoch == old(nextMeasurementEpoch) && nextNoiseUpdate == old(nextNoiseUpdate)
      ensures processNoiseStep == old(processNoiseStep) && delayRectifySpan == old(delayRectifySpan)
    {
      if !sqrtPSized {
        var n := stateSize;
        sqrtP := ArrayOf(factorOfCovariance, n);
        sqrtPSized := true;
      }
    }

    /** The checks of CompleteInitialization: the covariance must have the
        state's dimension and an observation must exist; on success the
        converted factor is reported for the first update. */
    method CompleteInitialization(observationPresent: bool, factorOfCovariance: Matrix) returns (res: Outcome)
      requires Valid() && IsRect(factorOfCovariance, stateSize, stateSize)
      modifies this
      ensures Valid()
      ensures |old(covariance)| != old(stateSize) ==> res == Fail(CovarianceSizeMessage) && unchanged(this)
      ensures |old(covariance)| == old(stateSize) ==>
        && sqrtPSized
        && (old(sqrtPSized) ==> sqrtP == old(sqrtP))
        && (!old(sqrtPSized) ==> MatrixOf(sqrtP) == factorOfCovariance)
      ensures |old(covariance)| == old(stateSize) && !observationPresent ==>
        res == Fail(NoObservationMessage) && reportedSqrtCov == old(reportedSqrtCov)
      ensures |old(covariance)| == old(stateSize) && observationPresent ==>
        res == Pass && reportedSqrtCov == EpsilonScaled(MatrixOf(sqrtP), epsilonConversions)
      ensures covariance == old(covariance) && estimationState == old(estimationState)
      ensures stateOffset == old(stateOffset) && epsilonConversions == old(epsilonConversions)
    {
      if |covariance| != stateSize {
        return Fail(CovarianceSizeMessage);
      }
      EnsureFactor(factorOfCovariance);
      if !observationPresent {
        return Fail(NoObservationMessage);
      }
      var n := stateSize;
      var s := sqrtP;
      var outSqrtCov := new real[n, n]((i, j) reads s requires 0 <= i < n && 0 <= j < n => s[i, j]);
      MatrixExt(MatrixOf(outSqrtCov), MatrixOf(sqrtP), n, n);
      SqrtCovarianceEpsilonConversion(outSqrtCov, epsilonConversions);
      reportedSqrtCov := MatrixOf(outSqrtCov);
      res := Pass;
    }

    /** UpdateCovarianceNominalValues: rescales the factor's rows whose
        conversion changed and rebuilds the covariance iff one did. */
    method UpdateCovarianceNominalValues(prevConversions: seq<real>, factorOfCovariance: Matrix)
      requires Valid() && |prevConversions| == stateSize && IsRect(factorOfCovariance, stateSize, stateSize)
      modifies this, sqrtP
      ensures epsilonConversions == old(epsilonConversions) && stateSize == old(stateSize)
      ensures Valid() && sqrtPSized
      ensures MatrixOf(sqrtP) == Renominalized(if old(sqrtPSized) then old(MatrixOf(sqrtP)) else factorOfCovariance,
                                               prevConversions, epsilonConversions)
      ensures covariance == if SomeConversionChanged(prevConversions, epsilonConversions)
                            then Gram(MatrixOf(sqrtP)) else old(covariance)
      ensures estimationState == old(estimationState) && stateOffset == old(stateOffset)
    {
      EnsureFactor(factorOfCovariance);
      var changed := RenominalizeRows(sqrtP, prevConversions, epsilonConversions);
      if changed {
        covariance := Gram(MatrixOf(sqrtP));
      }
    }

    /** WriteCovarianceToDataFile: the values written after the state, the
        converted lower triangle of the factor, refactored from the
        Cartesian covariance when dX/dS is not the identity. */
    method WriteCovarianceToDataFile(factorOfCovariance: Matrix, dXdS: Matrix, cartesianFactor: Matrix)
      returns (values: seq<real>)
      requires Valid() && IsRect(factorOfCovariance, stateSize, stateSize)
      requires IsRect(dXdS, stateSize, stateSize) && IsRect(cartesianFactor, stateSize, stateSize)
      modifies this
      ensures Valid() && sqrtPSized
      ensures old(sqrtPSized) ==> sqrtP == old(sqrtP)
      ensures !old(sqrtPSized) ==> MatrixOf(sqrtP) == factorOfCovariance
      ensures values == PackLower(if IsIdentityOf(dXdS, stateSize) then MatrixOf(sqrtP) else cartesianFactor,
                                  epsilonConversions, stateSize)
      ensures covariance == old(covariance) && estimationState == old(estimationState)
      ensures epsilonConversions == old(epsilonConversions) && stateSize == old(stateSize)
    {
      EnsureFactor(factorOfCovariance);
      var sqrtPOut := MatrixOf(sqrtP);
      var notCartesian := DiffersFromIdentity(dXdS, stateSize);
      if notCartesian {
        sqrtPOut := cartesianFactor;
      }
      values := WriteLowerTriangle(sqrtPOut, epsilonConversions);
    }

    /** ReadCovarianceFromDataFile. Without a "SqrtCovariance_1_1" column the
        base reader takes over. Otherwise the lower triangle is read from
        the restart row and mapped onto the solve-for states, the states
        missing from the file are filled from the full factor, and the
        covariance is rebuilt and converted back when dX/dS is not the
        identity. */
    method ReadCovarianceFromDataFile(header: seq<string>, restartData: seq<real>, firstStateIndex: nat,
                                      stateColumnNum: seq<int>, f: ReadFactors)
      returns (res: Result<ReadPath>)
      requires Valid() && stateSize <= |stateColumnNum|
      requires IsRect(f.fullFactor, stateSize, stateSize) && IsRect(f.dXdS, stateSize, stateSize)
      requires IsRect(f.dSdX, stateSize, stateSize) && IsRect(f.solveForFactor, stateSize, stateSize)
      modifies this
      ensures epsilonConversions == old(epsilonConversions) && stateSize == old(stateSize)
      ensures Valid()
      ensures CovarianceHeader !in header ==> res == Ok(BaseReader) && unchanged(this)
      ensures res.Err? ==> unchanged(this)
      ensures res.Ok? && res.value.FactorRead? <==>
        ReadSucceeds(header, restartData, firstStateIndex, stateColumnNum, old(stateSize))
      ensures res.Ok? && res.value.FactorRead? ==>
        var fileStateSize := FirstIndex(header, CovarianceHeader) - firstStateIndex;
        && IsAlignedPrefix(stateColumnNum, firstStateIndex, fileStateSize, res.value.alignedIndex)
        && var r := ReadFactor(header, restartData, firstStateIndex, stateColumnNum, old(epsilonConversions),
                               old(stateSize), res.value.alignedIndex, f.fullFactor);
        && sqrtPSized
        && (IsIdentityOf(f.dXdS, stateSize) ==> MatrixOf(sqrtP) == r && covariance == Gram(r))
        && (!IsIdentityOf(f.dXdS, stateSize) ==>
              MatrixOf(sqrtP) == f.solveForFactor
              && covariance == MatMul(MatMul(f.dSdX, Gram(r), stateSize, stateSize, stateSize),
                                      Transpose(f.dSdX, stateSize, stateSize), stateSize, stateSize, stateSize))
      ensures estimationState == old(estimationState) && stateOffset == old(stateOffset)
    {
      var path, s := BuildReadFactor(header, restartData, firstStateIndex, stateColumnNum,
                                     epsilonConversions, stateSize, f.fullFactor);
      if path.Err? || path.value.BaseReader? {
        return path;
      }
      sqrtP := s;
      sqrtPSized := true;
      covariance := Gram(MatrixOf(sqrtP));
      var notCartesian := DiffersFromIdentity(f.dXdS, stateSize);
      if notCartesian {
        var n := stateSize;
        covariance := MatMul(MatMul(f.dSdX, covariance, n, n, n), Transpose(f.dSdX, n, n), n, n, n);
        sqrtP := ArrayOf(f.solveForFactor, n);
      }
      res := path;
    }

    /** UpdateElements: a NORMAL measurement adds the correction to the
        state, or to the state offset while delayed rectification is active,
        and takes the updated factor; the covariance is rebuilt from the
        factor in every case and is symmetric. */
    method UpdateElements(flag: EditFlag, dx: seq<real>, sqrtPupdate: Matrix)
      requires Valid() && |dx| == stateSize && IsRect(sqrtPupdate, stateSize, stateSize)
      modifies this
      ensures Valid()
      ensures flag == Normal && old(hasStateOffset) ==>
        stateOffset == VecAdd(old(stateOffset), dx) && estimationState == old(estimationState)
      ensures flag == Normal && !old(hasStateOffset) ==>
        estimationState == VecAdd(old(estimationState), dx) && stateOffset == old(stateOffset)
      ensures flag == Normal ==> sqrtPSized && MatrixOf(sqrtP) == sqrtPupdate && covariance == Gram(sqrtPupdate)
      ensures flag != Normal ==>
        && estimationState == old(estimationState) && stateOffset == old(stateOffset)
        && sqrtP == old(sqrtP) && sqrtPSized == old(sqrtPSized)
        && covariance == Gram(MatrixOf(sqrtP))
      ensures IsSquare(covariance) && IsSymmetric(covariance) && informationInverse == covariance
      ensures hasStateOffset == old(hasStateOffset) && currentState == old(currentState)
      ensures epsilonConversions == old(epsilonConversions) && stateSize == old(stateSize)
    {
      if flag == Normal {
        if hasStateOffset {
          stateOffset := AddInto(stateOffset, dx);
        } else {
          estimationState := AddInto(estimationState, dx);
        }
        var n := stateSize;
        sqrtP := ArrayOf(sqrtPupdate, n);
        sqrtPSized := true;
        covariance := Gram(sqrtPupdate);
      } else {
        covariance := Gram(MatrixOf(sqrtP));
      }
      GramIsSymmetric(MatrixOf(sqrtP));
      informationInverse := covariance;
    }

    /** AdvanceEpoch after the next observation is fetched: at the end of
        the table the run is checked; otherwise delayed rectification ends
        once the next measurement is more than the span away from the
        estimation epoch (the offset is folded into the state and zeroed),
        the noise epoch is moved on, and the filter propagates unless the
        next epoch is not positive. */
    /** Folds the deferred state offset into the estimation state once the
        next measurement is more than delayRectifySpan seconds away from the
        estimation epoch. */
    method RectifyIfDue()
      requires Valid()
      modifies this
      ensures Valid()
      ensures var rectify := old(hasStateOffset) &&
                Abs((nextMeasurementEpoch - estimationEpoch) * SecondsPerDay) > delayRectifySpan;
        && (rectify ==> estimationState == VecAdd(old(estimationState), old(stateOffset))
                        && stateOffset == Zeros(stateSize) && !hasStateOffset)
        && (!rectify ==> estimationState == old(estimationState) && stateOffset == old(stateOffset)
                         && hasStateOffset == old(hasStateOffset))
      ensures sqrtP == old(sqrtP) && sqrtPSized == old(sqrtPSized) && covariance == old(covariance)
      ensures epsilonConversions == old(epsilonConversions) && stateSize == old(stateSize)
      ensures estimationEpoch == old(estimationEpoch) && currentEpoch == old(currentEpoch)
      ensures nextMeasurementEpoch == old(nextMeasurementEpoch) && nextNoiseUpdate == old(nextNoiseUpdate)
      ensures processNoiseStep == old(processNoiseStep) && delayRectifySpan == old(delayRectifySpan)
      ensures currentState == old(currentState)
    {
      if hasStateOffset {
        var elapsedTime := (nextMeasurementEpoch - estimationEpoch) * SecondsPerDay;
        if Abs(elapsedTime) > delayRectifySpan {
          estimationState := AddInto(estimationState, stateOffset);
          stateOffset := Zeros(stateSize);
          hasStateOffset := false;
        }
      }
    }

    method AdvanceEpoch(endOfTable: bool, nextEpoch: real, forward: bool, roundoff: real)
      requires Valid()
      modifies this
      ensures Valid()
      ensures endOfTable ==>
        && currentState == CheckingRun
        && estimationState == old(estimationState) && stateOffset == old(stateOffset)
        && hasStateOffset == old(hasStateOffset) && nextNoiseUpdate == old(nextNoiseUpdate)
        && nextMeasurementEpoch == old(nextMeasurementEpoch)
      ensures !endOfTable ==> nextMeasurementEpoch == nextEpoch
      ensures !endOfTable ==>
        var rectify := old(hasStateOffset) &&
                       Abs((nextEpoch - old(estimationEpoch)) * SecondsPerDay) > old(delayRectifySpan);
        && (rectify ==> estimationState == VecAdd(old(estimationState), old(stateOffset))
                        && stateOffset == Zeros(stateSize) && !hasStateOffset)
        && (!rectify ==> estimationState == old(estimationState) && stateOffset == old(stateOffset)
                         && hasStateOffset == old(hasStateOffset))
      ensures !endOfTable ==>
        nextNoiseUpdate == NextNoiseUpdate(old(nextNoiseUpdate), old(currentEpoch), forward,
                                           old(processNoiseStep), roundoff)
      ensures !endOfTable ==> currentState == if nextEpoch >= 5.0e-12 then Propagating else CheckingRun
      ensures sqrtP == old(sqrtP) && sqrtPSized == old(sqrtPSized) && covariance == old(covariance)
      ensures epsilonConversions == old(epsilonConversions) && stateSize == old(stateSize)
      ensures estimationEpoch == old(estimationEpoch) && currentEpoch == old(currentEpoch)
    {
      if endOfTable {
        currentState := CheckingRun;
        return;
      }
      nextMeasurementEpoch := nextEpoch;
      RectifyIfDue();
      var dtNoise := (nextNoiseUpdate - currentEpoch) * SecondsPerDay;
      if forward && dtNoise < roundoff * SecondsPerDay {
        nextNoiseUpdate := nextNoiseUpdate + processNoiseStep / SecondsPerDay;
      } else if !forward && dtNoise > -roundoff * SecondsPerDay {
        nextNoiseUpdate := nextNoiseUpdate - processNoiseStep / SecondsPerDay;
      }
      if nextMeasurementEpoch >= 5.0e-12 {
        currentState := Propagating;
      } else {
        currentState := CheckingRun;
      }
    }
  }

  /** The reading steps of ReadCovarianceFromDataFile up to the factor: find
      the first covariance column, find the aligned prefix, read the
      triangle, map it onto the solve-for states and fill the rows after the
      prefix from the full factor. */
  method BuildReadFactor(header: seq<string>, restartData: seq<real>, firstStateIndex: nat, col: seq<int>,
                         conv: seq<real>, n: nat, full: Matrix)
    returns (res: Result<ReadPath>, s: array2<real>)
    requires n <= |col| && |conv| == n && NonzeroConversions(conv) && IsRect(full, n, n)
    ensures res == Ok(BaseReader) <==> CovarianceHeader !in header
    ensures res.Ok? && res.value.FactorRead? <==> ReadSucceeds(header, restartData, firstStateIndex, col, n)
    ensures res.Ok? && res.value.FactorRead? ==>
      && fresh(s) && s.Length0 == n && s.Length1 == n
      && IsAlignedPrefix(col, firstStateIndex, FirstIndex(header, CovarianceHeader) - firstStateIndex,
                         res.value.alignedIndex)
      && MatrixOf(s) == ReadFactor(header, restartData, firstStateIndex, col, conv, n, res.value.alignedIndex, full)
  {
    s := new real[0, 0];
    var found := FindColumn(header, CovarianceHeader);
    if found.None? {
      return Ok(BaseReader), s;
    }
    var firstCovIndex := found.value;
    if firstCovIndex < firstStateIndex {
      return Err("restart file: covariance columns precede the state columns"), s;
    }
    var fileStateSize := firstCovIndex - firstStateIndex;
    var stateAlignedIndex := AlignedPrefix(col, firstStateIndex, fileStateSize);
    if |restartData| < firstCovIndex + Tri(fileStateSize) {
      return Err("restart file: the restart row is shorter than its covariance"), s;
    }
    if !ColumnsInRange(col, firstStateIndex, fileStateSize, n) {
      return Err("Rmatrix index out of bounds"), s;
    }
    s := FactorFromRecordRows(restartData, firstCovIndex, firstStateIndex, col, conv, n, stateAlignedIndex, full);
    res := Ok(FactorRead(stateAlignedIndex));
  }

  /** The success path of the read: the file's triangle read, mapped onto
      the solve-for states and completed from the full factor. */
  method FactorFromRecordRows(restartData: seq<real>, first: nat, firstState: nat, col: seq<int>,
                              conv: seq<real>, n: nat, aligned: int, full: Matrix)
    returns (s: array2<real>)
    requires n <= |col| && |conv| == n && NonzeroConversions(conv) && IsRect(full, n, n) && aligned >= -1
    requires firstState <= first && first + Tri(first - firstState) <= |restartData|
    requires ColumnsInRange(col, firstState, first - firstState, n)
    ensures fresh(s) && s.Length0 == n && s.Length1 == n
    ensures MatrixOf(s) == FactorFromRecord(restartData, first, firstState, col, conv, n, aligned, full)
  {
    var fileCov := ReadLowerTriangle(restartData, first, first - firstState);
    s := MapFileFactor(fileCov, col, firstState, conv, n);
    if aligned + 1 < n {
      CopyFullFactorRows(s, full, aligned + 1);
    }
  }

  /** The first column whose header is `name`. */
  method FindColumn(header: seq<string>, name: string) returns (r: Option<nat>)
    ensures r == if name in header then Some(FirstIndex(header, name)) else None
  {
    var ii := 0;
    while ii < |header|
      invariant 0 <= ii <= |header|
      invariant forall k :: 0 <= k < ii ==> header[k] != name
    {
      if header[ii] == name {
        return Some(ii);
      }
      ii := ii + 1;
    }
    return None;
  }

  /** The checks a warm-start read with a factor passes: the covariance
      columns follow the state columns, the row holds the whole triangle and
      every mapped solve-for state is one of the file's states. */
  predicate ReadSucceeds(header: seq<string>, restartData: seq<real>, firstStateIndex: nat, col: seq<int>, n: nat)
    requires n <= |col|
  {
    && CovarianceHeader in header
    && var first := FirstIndex(header, CovarianceHeader);
       && firstStateIndex <= first
       && first + Tri(first - firstStateIndex) <= |restartData|
       && ColumnsInRange(col, firstStateIndex, first - firstStateIndex, n)
  }

  /** The factor a successful read builds before any conversion: the file's
      triangle mapped onto the solve-for states, with the rows after the
      aligned prefix filled from the full factor. */
  function ReadFactor(header: seq<string>, restartData: seq<real>, firstStateIndex: nat, col: seq<int>,
                      conv: seq<real>, n: nat, aligned: int, full: Matrix): (m: Matrix)
    requires n <= |col| && ReadSucceeds(header, restartData, firstStateIndex, col, n)
    requires |conv| == n && NonzeroConversions(conv) && IsRect(full, n, n) && aligned >= -1
    ensures IsRect(m, n, n)
  {
    FactorFromRecord(restartData, FirstIndex(header, CovarianceHeader), firstStateIndex, col, conv, n, aligned, full)
  }

  /** The factor built from a record whose covariance starts at column
      first. */
  function FactorFromRecord(restartData: seq<real>, first: nat, firstState: nat, col: seq<int>,
                            conv: seq<real>, n: nat, aligned: int, full: Matrix): (m: Matrix)
    requires n <= |col| && |conv| == n && NonzeroConversions(conv) && IsRect(full, n, n) && aligned >= -1
    requires firstState <= first && first + Tri(first - firstState) <= |restartData|
    requires ColumnsInRange(col, firstState, first - firstState, n)
    ensures IsRect(m, n, n)
  {
    var mapped := MappedFactor(Unpacked(restartData, first, first - firstState), col, firstState, conv, n);
    if aligned + 1 < n then WithFullFactorRows(mapped, full, aligned + 1) else mapped
  }
}
