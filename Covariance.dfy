/** The covariance matrix of GMAT: a square matrix made of named blocks, one
    block per estimated parameter, laid out in the order the parameters were
    added (src/base/foundation/Covariance.cpp). */
module CovarianceModel {
  import opened Common
  import opened Matrices

  // ---------------------------------------------------------------------
  // Value-level view of resizing one block

  /** Where row (or column) i of a matrix grown by k rows/columns at index at
      comes from in the old matrix; -1 for an inserted row/column. */
  function GrowSource(i: int, at: int, k: nat): int
  {
    if i < at then i else if i < at + k then -1 else i - k
  }

  /** Where row (or column) i of a matrix shrunk by k rows/columns ending just
      before index at comes from in the old matrix. */
  function ShrinkSource(i: int, at: int, k: nat): int
  {
    if i < at - k then i else i + k
  }

  /** m with k zero rows and k zero columns inserted at index at. */
  function Grown(m: Matrix, at: int, k: nat): (g: Matrix)
    requires IsSquare(m) && 0 <= at <= |m|
    ensures |g| == |m| + k && IsSquare(g)
  {
    seq(|m| + k, r requires 0 <= r < |m| + k =>
      seq(|m| + k, c requires 0 <= c < |m| + k =>
        var sr, sc := GrowSource(r, at, k), GrowSource(c, at, k);
        if sr < 0 || sc < 0 then 0.0 else m[sr][sc]))
  }

  /** m with the k rows and k columns just before index at removed (shifted to
      the start when at < k). */
  function Shrunk(m: Matrix, at: int, k: nat): (s: Matrix)
    requires IsSquare(m) && k < |m|
    ensures |s| == |m| - k && IsSquare(s)
  {
    seq(|m| - k, r requires 0 <= r < |m| - k =>
      seq(|m| - k, c requires 0 <= c < |m| - k =>
        m[ShrinkSource(r, at, k)][ShrinkSource(c, at, k)]))
  }

  /** Growing a block and then removing the rows it added gives back the
      original matrix. */
  lemma ShrinkUndoesGrow(m: Matrix, at: int, k: nat)
    requires IsSquare(m) && 0 <= at <= |m| && 0 < |m|
    ensures Shrunk(Grown(m, at, k), at + k, k) == m
  {
    var g := Grown(m, at, k);
    var s := Shrunk(g, at + k, k);
    forall r, c | 0 <= r < |m| && 0 <= c < |m|
      ensures s[r][c] == m[r][c]
    {
      var r', c' := ShrinkSource(r, at + k, k), ShrinkSource(c, at + k, k);
      assert GrowSource(r', at, k) == r && GrowSource(c', at, k) == c;
    }
    MatrixExt(s, m, |m|, |m|);
  }

  /** The inserted rows and columns of a grown matrix are zero; every other
      entry is an old entry, shifted by k past the insertion point. */
  lemma GrownEntries(m: Matrix, at: int, k: nat, r: nat, c: nat)
    requires IsSquare(m) && 0 <= at <= |m| && r < |m| + k && c < |m| + k
    ensures (at <= r < at + k || at <= c < at + k) ==> Grown(m, at, k)[r][c] == 0.0
    ensures !(at <= r < at + k || at <= c < at + k) ==>
              Grown(m, at, k)[r][c] == m[if r < at then r else r - k][if c < at then c else c - k]
  {
  }

  /** The block of n rows and columns starting at (start, start). */
  function SubBlock(m: Matrix, start: int, n: nat): (b: Matrix)
    requires IsSquare(m) && 0 <= start && start + n <= |m|
    ensures |b| == n && IsSquare(b)
  {
    seq(n, j requires 0 <= j < n => seq(n, k requires 0 <= k < n => m[start + j][start + k]))
  }

  /** m with the block at (start, start) replaced by the diagonal matrix diag. */
  function WithDiagonalBlock(m: Matrix, start: int, diag: seq<real>): (w: Matrix)
    requires IsSquare(m) && 0 <= start && start + |diag| <= |m|
    ensures |w| == |m| && IsSquare(w)
  {
    seq(|m|, i requires 0 <= i < |m| => seq(|m|, j requires 0 <= j < |m| =>
      if start <= i < start + |diag| && start <= j < start + |diag| then
        (if i == j then diag[i - start] else 0.0)
      else m[i][j]))
  }

  /** m with the block at (start, start) replaced by the symmetric part of
      data: its diagonal, and (data[i][j] + data[j][i]) / 2 off it. */
  function WithSymmetrizedBlock(m: Matrix, start: int, data: Matrix): (w: Matrix)
    requires IsSquare(m) && IsSquare(data) && 0 <= start && start + |data| <= |m|
    ensures |w| == |m| && IsSquare(w)
  {
    seq(|m|, i requires 0 <= i < |m| => seq(|m|, j requires 0 <= j < |m| =>
      if start <= i < start + |data| && start <= j < start + |data| then
        SymValue(data, i - start, j - start)
      else m[i][j]))
  }

  /** Entry (i, j) of the symmetric part of a square matrix. */
  function SymValue(data: Matrix, i: nat, j: nat): real
    requires IsSquare(data) && i < |data| && j < |data|
  {
    if i == j then data[i][i] else (data[i][j] + data[j][i]) / 2.0
  }

  /** One entry of the symmetrized block, in block coordinates. */
  lemma SymmetrizedEntry(m: Matrix, start: int, data: Matrix, i: nat, j: nat)
    requires IsSquare(m) && IsSquare(data) && 0 <= start && start + |data| <= |m|
    requires i < |data| && j < |data|
    ensures WithSymmetrizedBlock(m, start, data)[start + i][start + j] ==
              if i == j then data[i][i] else (data[i][j] + data[j][i]) / 2.0
  {
    assert WithSymmetrizedBlock(m, start, data)[start + i][start + j] == SymValue(data, i, j);
  }

  /** One entry of the block written by the matrix form of ConstructRHS. */
  lemma SymmetrizedBlockAt(m: Matrix, start: int, data: Matrix, i: nat, j: nat)
    requires IsSquare(m) && IsSquare(data) && 0 <= start && start + |data| <= |m|
    requires i < |data| && j < |data|
    ensures SubBlock(WithSymmetrizedBlock(m, start, data), start, |data|)[i][j] ==
              if i == j then data[i][i] else (data[i][j] + data[j][i]) / 2.0
  {
    SymmetrizedEntry(m, start, data, i, j);
  }

  /** The block written by the matrix form of ConstructRHS is symmetric. */
  lemma SymmetrizedBlockIsSymmetric(m: Matrix, start: int, data: Matrix)
    requires IsSquare(m) && IsSquare(data) && 0 <= start && start + |data| <= |m|
    ensures IsSymmetric(SubBlock(WithSymmetrizedBlock(m, start, data), start, |data|))
  {
    var b := SubBlock(WithSymmetrizedBlock(m, start, data), start, |data|);
    forall i, j | 0 <= i < |data| && 0 <= j < |data|
      ensures b[i][j] == b[j][i]
    {
      SymmetrizedBlockAt(m, start, data, i, j);
      SymmetrizedBlockAt(m, start, data, j, i);
    }
  }

  /** ... keeps the input's diagonal ... */
  lemma SymmetrizedBlockKeepsDiagonal(m: Matrix, start: int, data: Matrix)
    requires IsSquare(m) && IsSquare(data) && 0 <= start && start + |data| <= |m|
    ensures forall i :: 0 <= i < |data| ==>
              SubBlock(WithSymmetrizedBlock(m, start, data), start, |data|)[i][i] == data[i][i]
  {
    var b := SubBlock(WithSymmetrizedBlock(m, start, data), start, |data|);
    forall i | 0 <= i < |data|
      ensures b[i][i] == data[i][i]
    {
      SymmetrizedBlockAt(m, start, data, i, i);
    }
  }

  /** ... and reads back as the input itself when the input is symmetric. */
  lemma SymmetrizedBlockOfSymmetric(m: Matrix, start: int, data: Matrix)
    requires IsSquare(m) && IsSquare(data) && 0 <= start && start + |data| <= |m|
    requires IsSymmetric(data)
    ensures SubBlock(WithSymmetrizedBlock(m, start, data), start, |data|) == data
  {
    var b := SubBlock(WithSymmetrizedBlock(m, start, data), start, |data|);
    forall i, j | 0 <= i < |data| && 0 <= j < |data|
      ensures b[i][j] == data[i][j]
    {
      SymmetrizedBlockAt(m, start, data, i, j);
      assert data[j][i] == data[i][j];
    }
    MatrixExt(b, data, |data|, |data|);
  }

  /** The sum of a sequence in which one entry grew by k grows by k. */
  lemma {:induction false} SumUpdate(s: seq<int>, i: nat, k: int)
    requires i < |s|
    ensures Sum(s[i := s[i] + k]) == Sum(s) + k
    decreases |s|
  {
    var t := s[i := s[i] + k];
    if i == |s| - 1 {
      assert t[..|t| - 1] == s[..|s| - 1];
    } else {
      assert t[..|t| - 1] == s[..|s| - 1][i := s[i] + k];
      SumUpdate(s[..|s| - 1], i, k);
    }
  }

  /** Whether the symmetrizing loop of ConstructRHS has written block entry
      (r, c) once it has reached row i, column j of the upper triangle. */
  predicate Visited(r: int, c: int, n: int, i: int, j: int)
  {
    0 <= r < n && 0 <= c < n &&
    var lo, hi := if r <= c then r else c, if r <= c then c else r;
    lo < i || (lo == i && hi < j)
  }

  /** The in-place loop of the vector form of ConstructRHS: the block at
      (start, start) gets d on its diagonal and zeros elsewhere. */
  method WriteDiagonalBlock(t: array2<real>, start: nat, d: seq<real>)
    requires t.Length0 == t.Length1 && start + |d| <= t.Length0
    modifies t
    ensures MatrixOf(t) == WithDiagonalBlock(old(MatrixOf(t)), start, d)
  {
    ghost var m := MatrixOf(t);
    ghost var w := WithDiagonalBlock(m, start, d);
    var length := |d|;
    var i := start;
    while i < start + length
      invariant start <= i <= start + length
      invariant forall r, c :: 0 <= r < t.Length0 && 0 <= c < t.Length1 ==>
                  t[r, c] == (if start <= r < i && start <= c < start + length then w[r][c] else m[r][c])
    {
      var j := start;
      while j < start + length
        invariant start <= j <= start + length
        invariant forall r, c :: 0 <= r < t.Length0 && 0 <= c < t.Length1 ==>
                    t[r, c] == (if (start <= r < i && start <= c < start + length) || (r == i && start <= c < j)
                                then w[r][c] else m[r][c])
      {
        if i == j {
          t[i, j] := d[i - start];
        } else {
          t[i, j] := 0.0;
        }
        j := j + 1;
      }
      i := i + 1;
    }
    MatrixExt(MatrixOf(t), w, t.Length0, t.Length0);
  }

  /** The in-place loop of the matrix form of ConstructRHS: write the upper
      triangle of the block and mirror each off-diagonal value. */
  method WriteSymmetrizedBlock(t: array2<real>, start: nat, a: Matrix)
    requires t.Length0 == t.Length1 && IsSquare(a) && start + |a| <= t.Length0
    modifies t
    ensures MatrixOf(t) == WithSymmetrizedBlock(old(MatrixOf(t)), start, a)
  {
    var n := |a|;
    var i := 0;
    while i < n
      invariant 0 <= i <= n
      invariant forall r, c :: 0 <= r < t.Length0 && 0 <= c < t.Length1 ==>
                  t[r, c] == (if Visited(r - start, c - start, n, i, i) then SymValue(a, r - start, c - start)
                              else old(t[r, c]))
    {
      var j := i;
      while j < n
        invariant i <= j <= n
        invariant forall r, c :: 0 <= r < t.Length0 && 0 <= c < t.Length1 ==>
                    t[r, c] == (if Visited(r - start, c - start, n, i, j) then SymValue(a, r - start, c - start)
                                else old(t[r, c]))
      {
        if i == j {
          t[i + start, j + start] := a[i][j];
        } else {
          var v := (a[i][j] + a[j][i]) / 2.0;
          t[j + start, i + start] := v;
          t[i + start, j + start] := v;
        }
        j := j + 1;
      }
      i := i + 1;
    }
    MatrixExt(MatrixOf(t), WithSymmetrizedBlock(old(MatrixOf(t)), start, a), t.Length0, t.Length0);
  }

  /** Nested copy loop that builds the grown matrix (the loop body of
      IncreasingElementSize, and of AddCovarianceElement at the end). */
  method GrowMatrix(a: array2<real>, at: int, k: nat) returns (b: array2<real>)
    requires a.Length0 == a.Length1 && 0 <= at <= a.Length0
    ensures fresh(b)
    ensures b.Length0 == b.Length1 == a.Length0 + k
    ensures MatrixOf(b) == Grown(MatrixOf(a), at, k)
  {
    ghost var m := MatrixOf(a);
    var n := a.Length0 + k;
    b := new real[n, n];
    var row := 0;
    while row < n
      invariant 0 <= row <= n
      invariant forall i, j :: 0 <= i < row && 0 <= j < n ==> b[i, j] == Grown(m, at, k)[i][j]
    {
      var col := 0;
      while col < n
        invariant 0 <= col <= n
        invariant forall i, j :: 0 <= i < row && 0 <= j < n ==> b[i, j] == Grown(m, at, k)[i][j]
        invariant forall j :: 0 <= j < col ==> b[row, j] == Grown(m, at, k)[row][j]
      {
        if row < at {
          if col < at {
            b[row, col] := a[row, col];
          } else if col < at + k {
            b[row, col] := 0.0;
          } else {
            b[row, col] := a[row, col - k];
          }
        } else if row < at + k {
          b[row, col] := 0.0;
        } else {
          if col < at {
            b[row, col] := a[row - k, col];
          } else if col < at + k {
            b[row, col] := 0.0;
          } else {
            b[row, col] := a[row - k, col - k];
          }
        }
        col := col + 1;
      }
      row := row + 1;
    }
    MatrixExt(MatrixOf(b), Grown(m, at, k), n, n);
  }

  /** Nested copy loop of DecreasingElementSize. */
  method ShrinkMatrix(a: array2<real>, at: int, k: nat) returns (b: array2<real>)
    requires a.Length0 == a.Length1 && k < a.Length0
    ensures fresh(b)
    ensures b.Length0 == b.Length1 == a.Length0 - k
    ensures MatrixOf(b) == Shrunk(MatrixOf(a), at, k)
  {
    ghost var m := MatrixOf(a);
    var n := a.Length0 - k;
    b := new real[n, n];
    var row := 0;
    while row < n
      invariant 0 <= row <= n
      invariant forall i, j :: 0 <= i < row && 0 <= j < n ==> b[i, j] == Shrunk(m, at, k)[i][j]
    {
      var col := 0;
      while col < n
        invariant 0 <= col <= n
        invariant forall i, j :: 0 <= i < row && 0 <= j < n ==> b[i, j] == Shrunk(m, at, k)[i][j]
        invariant forall j :: 0 <= j < col ==> b[row, j] == Shrunk(m, at, k)[row][j]
      {
        if row < at - k {
          if col < at - k {
            b[row, col] := a[row, col];
          } else {
            b[row, col] := a[row, col + k];
          }
        } else {
          if col < at - k {
            b[row, col] := a[row + k, col];
          } else {
            b[row, col] := a[row + k, col + k];
          }
        }
        col := col + 1;
      }
      row := row + 1;
    }
    MatrixExt(MatrixOf(b), Shrunk(m, at, k), n, n);
  }

  /** Copy of a rectangular matrix value into a fresh array (Rmatrix assignment). */
  method ArrayOf(m: Matrix, rows: nat, cols: nat) returns (b: array2<real>)
    requires IsRect(m, rows, cols)
    ensures fresh(b)
    ensures b.Length0 == rows && b.Length1 == cols
    ensures MatrixOf(b) == m
  {
    b := new real[rows, cols];
    var i := 0;
    while i < rows
      invariant 0 <= i <= rows
      invariant forall r, c :: 0 <= r < i && 0 <= c < cols ==> b[r, c] == m[r][c]
    {
      var j := 0;
      while j < cols
        invariant 0 <= j <= cols
        invariant forall r, c :: 0 <= r < i && 0 <= c < cols ==> b[r, c] == m[r][c]
        invariant forall c :: 0 <= c < j ==> b[i, c] == m[i][c]
      {
        b[i, j] := m[i][j];
        j := j + 1;
      }
      i := i + 1;
    }
    MatrixExt(MatrixOf(b), m, rows, cols);
  }

  /** The id of the last element named `name`, or -1 when no element has
      that name. */
  function IdOfName(names: seq<string>, ids: seq<int>, name: string): (id: int)
    requires |names| == |ids|
    ensures name !in names ==> id == -1
    ensures name in names ==> id == ids[LastIndex(names, name)]
  {
    var i := LastIndex(names, name);
    if i == -1 then -1 else ids[i]
  }

  /** Rmatrix element access is bounds checked: reading or writing outside the
      matrix raises an exception. */
  const OutOfBounds := "Rmatrix index out of bounds"

  /** The covariance's element bookkeeping and its entries at one moment. */
  datatype CovarianceState = CovarianceState(names: seq<string>, ids: seq<int>, sizes: seq<int>, dimension: int, entries: Matrix)
  {
    predicate WellFormed() {
      |ids| == |names| && |sizes| == |names| && |entries| == dimension && IsSquare(entries)
    }
  }

  /** What resizing element `index` to elementSize does to layout s, with the
      rows and columns added or removed at absolute row `at`: a larger size
      inserts zero rows and columns there when `at` is inside the matrix, a
      smaller one removes those ending just before `at` unless the change is
      not below the matrix size (false), and the same size changes nothing.
      The size that changes is that of the last element with the same name. */
  ghost predicate ResizedAt(s: CovarianceState, t: CovarianceState, index: nat, at: int, elementSize: int, res: Result<bool>)
    requires s.WellFormed() && index < |s.sizes|
  {
    var size := s.sizes[index];
    var idx := LastIndex(s.names, s.names[index]);
    if size < elementSize then
      && (res.Ok? <==> 0 <= at <= s.dimension)
      && (res.Ok? ==>
            && res.value
            && t.entries == Grown(s.entries, at, elementSize - size)
            && t.sizes == s.sizes[idx := s.sizes[idx] + (elementSize - size)]
            && t.dimension == s.dimension + (elementSize - size))
      && (res.Err? ==> t.sizes == s.sizes && t.dimension == s.dimension && t.entries == s.entries)
    else if elementSize < size && size - elementSize < s.dimension then
      && res == Ok(true)
      && t.entries == Shrunk(s.entries, at, size - elementSize)
      && t.sizes == s.sizes[idx := s.sizes[idx] - (size - elementSize)]
      && t.dimension == s.dimension - (size - elementSize)
    else
      && res == Ok(elementSize == size)
      && t.sizes == s.sizes && t.dimension == s.dimension && t.entries == s.entries
  }

  /** What both SetElementSize forms do once they hold an id: when an element
      has that id, the last such element is resized with the rows and columns
      added or removed at offset + its size + the start of the first element
      with its name; otherwise nothing changes, and the answer is true exactly
      when the size asked for is the -1 that GetElementSize gives for an
      unknown id. */
  ghost predicate ResizedForId(s: CovarianceState, t: CovarianceState, id: int, offset: int, elementSize: int, res: Result<bool>)
    requires s.WellFormed()
  {
    var index := LastIndex(s.ids, id);
    if index >= 0 then
      var nameStart := Sum(s.sizes[..FirstIndex(s.names, s.names[index])]);
      ResizedAt(s, t, index, offset + s.sizes[index] + nameStart, elementSize, res)
    else
      && res == (if elementSize == -1 then Ok(true) else Err(OutOfBounds))
      && t.sizes == s.sizes && t.dimension == s.dimension && t.entries == s.entries
  }

  class Covariance {
    var elementNames: seq<string>
    var elementIDs: seq<int>
    var elementSizes: seq<int>
    /** The owners' names: GMAT compares owners by GetName(). */
    var elementOwners: seq<string>
    var dimension: int
    var theCovariance: array2<real>

    ghost predicate Valid()
      reads this
    {
      && |elementIDs| == |elementNames|
      && |elementSizes| == |elementNames|
      && |elementOwners| == |elementNames|
      && theCovariance.Length0 == dimension
      && theCovariance.Length1 == dimension
      && Sum(elementSizes) == dimension
    }

    /** The covariance matrix as a value. */
    ghost function Entries(): (m: Matrix)
      reads this, theCovariance
      requires Valid()
      ensures |m| == dimension && IsSquare(m)
    {
      MatrixOf(theCovariance)
    }

    /** The bookkeeping and the entries as one value. */
    ghost function State(): (s: CovarianceState)
      reads this, theCovariance
      requires Valid()
      ensures s.WellFormed()
    {
      CovarianceState(elementNames, elementIDs, elementSizes, dimension, Entries())
    }

    constructor ()
      ensures Valid()
      ensures elementNames == [] && dimension == 0
    {
      elementNames, elementIDs, elementSizes, elementOwners := [], [], [], [];
      dimension := 0;
      theCovariance := new real[0, 0];
    }

    /** operator()(r, c): a bounds-checked element read. */
    function At(r: int, c: int): (v: Result<real>)
      reads this, theCovariance
      requires Valid()
      ensures v.Ok? <==> 0 <= r < dimension && 0 <= c < dimension
      ensures v.Ok? ==> v.value == Entries()[r][c]
    {
      if r < 0 || r >= dimension then Err("Covariance row index out of bounds")
      else if c < 0 || c >= dimension then Err("Covariance column index out of bounds")
      else Ok(theCovariance[r, c])
    }

    /** operator()(r, c) as an lvalue: a bounds-checked element write. */
    method Put(r: int, c: int, v: real) returns (res: Outcome)
      requires Valid()
      modifies theCovariance
      ensures Valid()
      ensures res.Pass? <==> 0 <= r < dimension && 0 <= c < dimension
      ensures res.Pass? ==> Entries() == old(Entries())[r := old(Entries())[r][c := v]]
      ensures res.Fail? ==> Entries() == old(Entries())
    {
      if r < 0 || r >= dimension {
        return Fail("Covariance row index out of bounds");
      }
      if c < 0 || c >= dimension {
        return Fail("Covariance column index out of bounds");
      }
      theCovariance[r, c] := v;
      res := Pass;
      MatrixExt(Entries(), old(Entries())[r := old(Entries())[r][c := v]], dimension, dimension);
    }

    /** AddCovarianceElement: the parameter id and covariance size come from the
        owner object (GetParameterID, HasParameterCovariances) and are inputs. */
    method AddCovarianceElement(name: string, owner: string, parmID: int, covSize: int)
      returns (res: Outcome)
      requires Valid()
      modifies this
      ensures Valid()
      ensures theCovariance == old(theCovariance) || fresh(theCovariance)
      ensures covSize <= 0 ==> res.Fail?
      ensures res.Pass? <==> covSize > 0
      ensures var present := (exists i :: 0 <= i < |old(elementNames)| &&
                                old(elementNames)[i] == name && old(elementOwners)[i] == owner);
        if covSize <= 0 || present then
          && elementNames == old(elementNames) && elementIDs == old(elementIDs)
          && elementSizes == old(elementSizes) && elementOwners == old(elementOwners)
          && dimension == old(dimension) && theCovariance == old(theCovariance)
        else
          && elementNames == old(elementNames) + [name]
          && elementIDs == old(elementIDs) + [parmID]
          && elementSizes == old(elementSizes) + [covSize]
          && elementOwners == old(elementOwners) + [owner]
          && dimension == old(dimension) + covSize
          && Entries() == Grown(old(Entries()), old(dimension), covSize)
    {
      if covSize <= 0 {
        return Fail("Covariance handling for " + name + " is not implemented");
      }
      var index := -1;
      var i := 0;
      while i < |elementNames|
        invariant 0 <= i <= |elementNames|
        invariant forall j :: 0 <= j < i ==> !(elementNames[j] == name && elementOwners[j] == owner)
      {
        if name == elementNames[i] && elementOwners[i] == owner {
          index := i;
          break;
        }
        i := i + 1;
      }
      if index == -1 {
        SumAppend(elementSizes, covSize);
        elementNames := elementNames + [name];
        elementIDs := elementIDs + [parmID];
        elementSizes := elementSizes + [covSize];
        elementOwners := elementOwners + [owner];
        theCovariance := GrowMatrix(theCovariance, dimension, covSize);
        dimension := dimension + covSize;
      }
      res := Pass;
    }

    /** ConstructRHS(Rvector, start): write a diagonal block. None stands for an
        unsized vector. GMAT's return value is never set to true. */
    method ConstructDiagonalRHS(diagonal: Option<seq<real>>, start: int) returns (res: Result<bool>)
      requires Valid()
      modifies theCovariance
      ensures Valid()
      ensures res.Ok? <==> diagonal.Some? && start + |diagonal.value| <= dimension &&
                           (0 <= start || |diagonal.value| == 0)
      ensures res.Ok? ==> res.value == false
      ensures res.Ok? && diagonal.value != [] ==>
                Entries() == WithDiagonalBlock(old(Entries()), start, diagonal.value)
      ensures res.Err? || diagonal.value == [] ==> Entries() == old(Entries())
    {
      if diagonal.None? {
        return Err("Diagonal covariance vector is not properly initialized");
      }
      var d := diagonal.value;
      var length := |d|;
      if start + length > dimension {
        return Err("Diagonal covariance vector is will not fit in the allocated covariance matrix");
      }
      if length == 0 {
        return Ok(false);
      }
      if start < 0 {
        return Err(OutOfBounds);
      }
      WriteDiagonalBlock(theCovariance, start, d);
      res := Ok(false);
    }

    /** ConstructRHS(Rmatrix, start): write the symmetric part of a square
        matrix as the block at (start, start). None stands for an unsized matrix;
        data must be a rectangular matrix value. */
    method ConstructMatrixRHS(data: Option<Matrix>, cols: nat, start: int) returns (res: Result<bool>)
      requires Valid()
      requires data.Some? ==> IsRect(data.value, |data.value|, cols)
      modifies theCovariance
      ensures Valid()
      ensures res.Ok? <==> data.Some? && cols == |data.value| && start + |data.value| <= dimension &&
                           (0 <= start || |data.value| == 0)
      ensures res.Ok? ==> res.value == false
      ensures res.Ok? && data.value != [] ==>
                Entries() == WithSymmetrizedBlock(old(Entries()), start, data.value)
      ensures res.Err? || data.value == [] ==> Entries() == old(Entries())
    {
      if data.None? {
        return Err("Input covariance matrix is not properly initialized");
      }
      var a := data.value;
      var length := |a|;
      if cols != length {
        return Err("Input covariance matrix is not square");
      }
      if start + length > dimension {
        return Err("Input covariance matrix is will not fit in the allocated covariance matrix");
      }
      if length == 0 {
        return Ok(false);
      }
      if start < 0 {
        return Err(OutOfBounds);
      }
      WriteSymmetrizedBlock(theCovariance, start, a);
      res := Ok(false);
    }

    /** FillMatrix: replace the whole matrix. In override-and-fill mode a
        differently sized input discards the element list for one generic
        element. */
    method FillMatrix(rhs: Matrix, cols: nat, overrideAndFill: bool) returns (res: Result<bool>)
      requires Valid()
      requires IsRect(rhs, |rhs|, cols)
      modifies this
      ensures Valid()
      ensures theCovariance == old(theCovariance) || fresh(theCovariance)
      ensures res.Ok? <==> (overrideAndFill || old(dimension) == |rhs|) && |rhs| == cols
      ensures res.Ok? ==> res.value && Entries() == rhs && dimension == |rhs|
      ensures res.Ok? && old(dimension) != |rhs| ==>
                elementNames == ["GenericCovariance"] && elementIDs == [-1] &&
                elementSizes == [|rhs|] && elementOwners == [""]
      ensures res.Err? || old(dimension) == |rhs| ==>
                elementNames == old(elementNames) && elementIDs == old(elementIDs) &&
                elementSizes == old(elementSizes) && elementOwners == old(elementOwners)
      ensures res.Err? ==> dimension == old(dimension) && theCovariance == old(theCovariance)
    {
      if !overrideAndFill && dimension != |rhs| {
        return Err("Covariance assignment dimensions do not match");
      }
      if |rhs| != cols {
        return Err("Input covariance matrix is not square");
      }
      if dimension != |rhs| {
        elementNames := ["GenericCovariance"];
        elementIDs := [-1];
        dimension := |rhs|;
        elementSizes := [dimension];
        assert Sum(elementSizes) == Sum([]) + dimension;
        elementOwners := [""];
      }
      theCovariance := ArrayOf(rhs, |rhs|, cols);
      res := Ok(true);
    }

    /** GetElementIndex(name): the LAST index holding the name, or -1. */
    function ElementIndexByName(name: string): (i: int)
      reads this
      requires Valid()
      ensures -1 <= i < |elementNames|
      ensures i >= 0 ==> elementNames[i] == name
      ensures i == -1 <==> name !in elementNames
    {
      LastIndex(elementNames, name)
    }

    /** GetElementSize(name): the size of the last element with that name, or -1. */
    function ElementSizeByName(name: string): (size: int)
      reads this
      requires Valid()
      ensures name !in elementNames ==> size == -1
      ensures name in elementNames ==> size == elementSizes[LastIndex(elementNames, name)]
    {
      var i := LastIndex(elementNames, name);
      if i == -1 then -1 else elementSizes[i]
    }

    /** GetElementID(name): the id of the last element with that name, or -1. */
    function ElementIdByName(name: string): (id: int)
      reads this
      requires Valid()
      ensures name !in elementNames ==> id == -1
      ensures name in elementNames ==> id == elementIDs[LastIndex(elementNames, name)]
    {
      IdOfName(elementNames, elementIDs, name)
    }

    /** GetElementSize(id): the size of the last element with that id, or -1. */
    function ElementSizeById(id: int): (size: int)
      reads this
      requires Valid()
      ensures id !in elementIDs ==> size == -1
      ensures id in elementIDs ==> size == elementSizes[LastIndex(elementIDs, id)]
    {
      var i := LastIndex(elementIDs, id);
      if i == -1 then -1 else elementSizes[i]
    }

    /** GetSubMatrixLocationStart(id): the sum of the sizes before the first
        element with that id (the sum of all sizes when there is none). */
    method SubMatrixStartById(id: int) returns (loc: int)
      requires Valid()
      ensures loc == Sum(elementSizes[..FirstIndex(elementIDs, id)])
      ensures id !in elementIDs ==> loc == dimension
    {
      loc := 0;
      var i := 0;
      while i < |elementIDs|
        invariant 0 <= i <= |elementIDs|
        invariant i <= FirstIndex(elementIDs, id)
        invariant loc == Sum(elementSizes[..i])
      {
        if elementIDs[i] == id {
          break;
        }
        assert elementSizes[..i + 1] == elementSizes[..i] + [elementSizes[i]];
        SumAppend(elementSizes[..i], elementSizes[i]);
        loc := loc + elementSizes[i];
        i := i + 1;
      }
      assert elementSizes[..|elementSizes|] == elementSizes;
    }

    /** GetSubMatrixLocationStart(name): as above by name, but an absent name
        throws. */
    method SubMatrixStartByName(name: string) returns (loc: Result<int>)
      requires Valid()
      ensures loc.Ok? <==> name in elementNames
      ensures loc.Ok? ==> loc.value == Sum(elementSizes[..FirstIndex(elementNames, name)])
    {
      var index := 0;
      var start := 0;
      while index < |elementNames|
        invariant 0 <= index <= |elementNames|
        invariant index <= FirstIndex(elementNames, name)
        invariant start == Sum(elementSizes[..index])
      {
        if elementNames[index] == name {
          break;
        }
        assert elementSizes[..index + 1] == elementSizes[..index] + [elementSizes[index]];
        SumAppend(elementSizes[..index], elementSizes[index]);
        start := start + elementSizes[index];
        index := index + 1;
      }
      if index == |elementNames| {
        return Err("Error: cannot find covariance sub matrix for parameter " + name + ".\n");
      }
      loc := Ok(start);
    }

    /** IncreasingElementSize(name, atRow, k): insert k zero rows and columns at
        atRow + (start of the element's block), and grow the element (the last
        one with that name) and the dimension by k. */
    method IncreasingElementSize(elementName: string, atRow: int, increasingSize: nat)
      returns (res: Result<bool>)
      requires Valid() && increasingSize > 0
      modifies this
      ensures Valid()
      ensures theCovariance == old(theCovariance) || fresh(theCovariance)
      ensures res.Ok? <==> (elementName in old(elementNames) &&
                            0 <= atRow + Sum(old(elementSizes)[..FirstIndex(old(elementNames), elementName)]) <= old(dimension))
      ensures res.Ok? ==>
                var at := atRow + Sum(old(elementSizes)[..FirstIndex(old(elementNames), elementName)]);
                var idx := LastIndex(old(elementNames), elementName);
                && res.value
                && Entries() == Grown(old(Entries()), at, increasingSize)
                && elementSizes == old(elementSizes)[idx := old(elementSizes)[idx] + increasingSize]
                && dimension == old(dimension) + increasingSize
      ensures elementNames == old(elementNames) && elementIDs == old(elementIDs)
      ensures elementOwners == old(elementOwners)
      ensures res.Err? ==> elementSizes == old(elementSizes) && dimension == old(dimension) &&
                           theCovariance == old(theCovariance)
    {
      var start := SubMatrixStartByName(elementName);
      if start.Err? {
        return Err(start.msg);
      }
      var atAbsIndex := atRow + start.value;
      if atAbsIndex < 0 || atAbsIndex > dimension {
        return Err(OutOfBounds);
      }
      theCovariance := GrowMatrix(theCovariance, atAbsIndex, increasingSize);
      var index := LastIndex(elementNames, elementName);
      SumUpdate(elementSizes, index, increasingSize);
      elementSizes := elementSizes[index := elementSizes[index] + increasingSize];
      dimension := dimension + increasingSize;
      res := Ok(true);
    }

    /** The common tail of both DecreasingElementSize forms: remove k rows
        and columns ending just before `at`, and shrink element `index` by k. */
    method ShrinkElement(index: nat, at: int, k: nat)
      requires Valid() && index < |elementSizes| && k < dimension
      modifies this
      ensures Valid()
      ensures fresh(theCovariance)
      ensures Entries() == Shrunk(old(Entries()), at, k)
      ensures elementSizes == old(elementSizes)[index := old(elementSizes)[index] - k]
      ensures dimension == old(dimension) - k
      ensures elementNames == old(elementNames) && elementIDs == old(elementIDs)
      ensures elementOwners == old(elementOwners)
    {
      theCovariance := ShrinkMatrix(theCovariance, at, k);
      SumUpdate(elementSizes, index, -(k as int));
      elementSizes := elementSizes[index := elementSizes[index] + -(k as int)];
      dimension := dimension - k;
    }

    /** DecreasingElementSize(name, atRow, k): refuse (false) when k is not
        below the matrix size; otherwise remove the k rows and columns ending
        just before atRow + (start of the element's block). */
    method DecreasingElementSize(elementName: string, atRow: int, decreasingSize: nat)
      returns (res: Result<bool>)
      requires Valid() && decreasingSize > 0
      modifies this
      ensures Valid()
      ensures theCovariance == old(theCovariance) || fresh(theCovariance)
      ensures decreasingSize >= old(dimension) ==> res == Ok(false)
      ensures res.Err? <==> decreasingSize < old(dimension) && elementName !in old(elementNames)
      ensures res.Ok? && res.value ==>
                var at := atRow + Sum(old(elementSizes)[..FirstIndex(old(elementNames), elementName)]);
                var idx := LastIndex(old(elementNames), elementName);
                && Entries() == Shrunk(old(Entries()), at, decreasingSize)
                && elementSizes == old(elementSizes)[idx := old(elementSizes)[idx] - decreasingSize]
                && dimension == old(dimension) - decreasingSize
      ensures res.Ok? <==> !res.Err?
      ensures (res.Ok? && !res.value) || res.Err? ==>
                elementSizes == old(elementSizes) && dimension == old(dimension) &&
                theCovariance == old(theCovariance)
      ensures (res.Ok? && res.value) <==> decreasingSize < old(dimension) && elementName in old(elementNames)
      ensures elementNames == old(elementNames) && elementIDs == old(elementIDs)
      ensures elementOwners == old(elementOwners)
    {
      if decreasingSize >= dimension {
        return Ok(false);
      }
      var start := SubMatrixStartByName(elementName);
      if start.Err? {
        return Err(start.msg);
      }
      var atAbsIndex := atRow + start.value;
      ShrinkElement(LastIndex(elementNames, elementName), atAbsIndex, decreasingSize);
      res := Ok(true);
    }

    /** IncreasingElementSize(id, atRow, k): as the by-name form, with the
        block start and the resized element found by parameter id. An unknown
        id makes GMAT write elementSizes[-1]; that is an error here. */
    method IncreasingElementSizeById(forParameterID: int, atRow: int, increasingSize: nat)
      returns (res: Result<bool>)
      requires Valid() && increasingSize > 0
      modifies this
      ensures Valid()
      ensures theCovariance == old(theCovariance) || fresh(theCovariance)
      ensures res.Ok? <==> (forParameterID in old(elementIDs) &&
                            0 <= atRow + Sum(old(elementSizes)[..FirstIndex(old(elementIDs), forParameterID)]) <= old(dimension))
      ensures res.Ok? ==>
                var at := atRow + Sum(old(elementSizes)[..FirstIndex(old(elementIDs), forParameterID)]);
                var idx := LastIndex(old(elementIDs), forParameterID);
                && res.value
                && Entries() == Grown(old(Entries()), at, increasingSize)
                && elementSizes == old(elementSizes)[idx := old(elementSizes)[idx] + increasingSize]
                && dimension == old(dimension) + increasingSize
      ensures elementNames == old(elementNames) && elementIDs == old(elementIDs)
      ensures elementOwners == old(elementOwners)
      ensures res.Err? ==> elementSizes == old(elementSizes) && dimension == old(dimension) &&
                           theCovariance == old(theCovariance)
    {
      var start := SubMatrixStartById(forParameterID);
      var atAbsIndex := atRow + start;
      var index := LastIndex(elementIDs, forParameterID);
      if index == -1 || atAbsIndex < 0 || atAbsIndex > dimension {
        return Err(OutOfBounds);
      }
      theCovariance := GrowMatrix(theCovariance, atAbsIndex, increasingSize);
      SumUpdate(elementSizes, index, increasingSize);
      elementSizes := elementSizes[index := elementSizes[index] + increasingSize];
      dimension := dimension + increasingSize;
      res := Ok(true);
    }

    /** DecreasingElementSize(id, atRow, k): as the by-name form, by parameter
        id; an unknown id is an error here (GMAT writes elementSizes[-1]). */
    method DecreasingElementSizeById(forParameterID: int, atRow: int, decreasingSize: nat)
      returns (res: Result<bool>)
      requires Valid() && decreasingSize > 0
      modifies this
      ensures Valid()
      ensures theCovariance == old(theCovariance) || fresh(theCovariance)
      ensures decreasingSize >= old(dimension) ==> res == Ok(false)
      ensures res.Err? <==> decreasingSize < old(dimension) && forParameterID !in old(elementIDs)
      ensures (res.Ok? && res.value) <==> decreasingSize < old(dimension) && forParameterID in old(elementIDs)
      ensures res.Ok? && res.value ==>
                var at := atRow + Sum(old(elementSizes)[..FirstIndex(old(elementIDs), forParameterID)]);
                var idx := LastIndex(old(elementIDs), forParameterID);
                && Entries() == Shrunk(old(Entries()), at, decreasingSize)
                && elementSizes == old(elementSizes)[idx := old(elementSizes)[idx] - decreasingSize]
                && dimension == old(dimension) - decreasingSize
      ensures (res.Ok? && !res.value) || res.Err? ==>
                elementSizes == old(elementSizes) && dimension == old(dimension) &&
                theCovariance == old(theCovariance)
      ensures elementNames == old(elementNames) && elementIDs == old(elementIDs)
      ensures elementOwners == old(elementOwners)
    {
      if decreasingSize >= dimension {
        return Ok(false);
      }
      var index := LastIndex(elementIDs, forParameterID);
      if index == -1 {
        return Err(OutOfBounds);
      }
      var start := SubMatrixStartById(forParameterID);
      var atAbsIndex := atRow + start;
      ShrinkElement(index, atAbsIndex, decreasingSize);
      res := Ok(true);
    }

    /** The tail both SetElementSize forms share once the element is found:
        nothing to do for the same size, otherwise IncreasingElementSize or
        DecreasingElementSize by the element's name, told atRow. */
    method ResizeElement(index: nat, atRow: int, elementSize: int, ghost at: int) returns (res: Result<bool>)
      requires Valid() && index < |elementSizes|
      requires at == atRow + Sum(elementSizes[..FirstIndex(elementNames, elementNames[index])])
      modifies this
      ensures Valid()
      ensures theCovariance == old(theCovariance) || fresh(theCovariance)
      ensures elementNames == old(elementNames) && elementIDs == old(elementIDs)
      ensures elementOwners == old(elementOwners)
      ensures ResizedAt(old(State()), State(), index, at, elementSize, res)
    {
      var size := elementSizes[index];
      if size == elementSize {
        return Ok(true);
      }
      if elementSize > size {
        res := GrowElement(index, atRow, elementSize, at);
      } else {
        res := ShrinkElementTo(index, atRow, elementSize, at);
      }
    }

    /** The larger-size branch of ResizeElement. */
    method GrowElement(index: nat, atRow: int, elementSize: int, ghost at: int) returns (res: Result<bool>)
      requires Valid() && index < |elementSizes| && elementSizes[index] < elementSize
      requires at == atRow + Sum(elementSizes[..FirstIndex(elementNames, elementNames[index])])
      modifies this
      ensures Valid()
      ensures theCovariance == old(theCovariance) || fresh(theCovariance)
      ensures elementNames == old(elementNames) && elementIDs == old(elementIDs)
      ensures elementOwners == old(elementOwners)
      ensures ResizedAt(old(State()), State(), index, at, elementSize, res)
    {
      ghost var before := State();
      res := IncreasingElementSize(elementNames[index], atRow, elementSize - elementSizes[index]);
      ghost var after := State();
      if res.Err? {
        assert after.entries == before.entries;
      }
    }

    /** The smaller-size branch of ResizeElement. */
    method ShrinkElementTo(index: nat, atRow: int, elementSize: int, ghost at: int) returns (res: Result<bool>)
      requires Valid() && index < |elementSizes| && elementSize < elementSizes[index]
      requires at == atRow + Sum(elementSizes[..FirstIndex(elementNames, elementNames[index])])
      modifies this
      ensures Valid()
      ensures theCovariance == old(theCovariance) || fresh(theCovariance)
      ensures elementNames == old(elementNames) && elementIDs == old(elementIDs)
      ensures elementOwners == old(elementOwners)
      ensures ResizedAt(old(State()), State(), index, at, elementSize, res)
    {
      ghost var before := State();
      res := DecreasingElementSize(elementNames[index], atRow, elementSizes[index] - elementSize);
      ghost var after := State();
      if !res.value {
        assert after.entries == before.entries;
      }
    }

    /** The shared tail of the SetElementSize forms: the element with the id,
        and the row the callee is told, offset + the element's size. */
    method ResizeForId(id: int, offset: int, elementSize: int) returns (res: Result<bool>)
      requires Valid()
      modifies this
      ensures Valid()
      ensures theCovariance == old(theCovariance) || fresh(theCovariance)
      ensures elementNames == old(elementNames) && elementIDs == old(elementIDs)
      ensures elementOwners == old(elementOwners)
      ensures ResizedForId(old(State()), State(), id, offset, elementSize, res)
    {
      var index := LastIndex(elementIDs, id);
      if index == -1 {
        return if elementSize == -1 then Ok(true) else Err(OutOfBounds);
      }
      res := ResizeElement(index, offset + elementSizes[index], elementSize,
                           offset + elementSizes[index] + Sum(elementSizes[..FirstIndex(elementNames, elementNames[index])]));
    }

    /** SetElementSize(name, size): resize the element found through its id.
        As written, the row passed on is startLoc + size, to which the callee
        adds the block start once more (ByNameInsertIndex). An id with no
        element makes GMAT index elementNames[-1]; that case is an error
        here, unless the size asked for is the -1 GetElementSize answers. */
    method SetElementSizeByName(elementName: string, elementSize: int) returns (res: Result<bool>)
      requires Valid()
      modifies this
      ensures Valid()
      ensures theCovariance == old(theCovariance) || fresh(theCovariance)
      ensures elementNames == old(elementNames) && elementIDs == old(elementIDs)
      ensures elementOwners == old(elementOwners)
      ensures var id := IdOfName(old(elementNames), old(elementIDs), elementName);
              ResizedForId(old(State()), State(), id, Sum(old(elementSizes)[..FirstIndex(old(elementIDs), id)]), elementSize, res)
    {
      var id := ElementIdByName(elementName);
      var startLoc := SubMatrixStartById(id);
      res := ResizeForId(id, startLoc, elementSize);
    }

    /** SetElementSize(id, size): resize the element with that id; here the
        row passed on is the element's own size, so the callee inserts or
        removes at the end of the element's block (ByIdInsertIndex). */
    method SetElementSizeById(forParameterID: int, elementSize: int) returns (res: Result<bool>)
      requires Valid()
      modifies this
      ensures Valid()
      ensures theCovariance == old(theCovariance) || fresh(theCovariance)
      ensures elementNames == old(elementNames) && elementIDs == old(elementIDs)
      ensures elementOwners == old(elementOwners)
      ensures ResizedForId(old(State()), State(), forParameterID, 0, elementSize, res)
    {
      res := ResizeForId(forParameterID, 0, elementSize);
    }

    /** GetCovariance(id): the size-by-size diagonal block of the first element
        with that id, at its offset; None (NULL) for an unknown id. */
    method GetCovarianceBlock(forParameterID: int) returns (res: Result<Option<Matrix>>)
      requires Valid()
      ensures forParameterID !in elementIDs ==> res == Ok(None)
      ensures forParameterID in elementIDs ==>
                var i := FirstIndex(elementIDs, forParameterID);
                var loc := Sum(elementSizes[..i]);
                var size := elementSizes[i];
                if size >= 0 && 0 <= loc && loc + size <= dimension
                then res == Ok(Some(SubBlock(Entries(), loc, size)))
                else res.Err?
    {
      var loc := 0;
      var i := 0;
      while i < |elementIDs|
        invariant 0 <= i <= |elementIDs|
        invariant i <= FirstIndex(elementIDs, forParameterID)
        invariant loc == Sum(elementSizes[..i])
      {
        if elementIDs[i] == forParameterID {
          var parmSize := elementSizes[i];
          if parmSize < 0 || loc < 0 || loc + parmSize > dimension {
            return Err(OutOfBounds);
          }
          var block := CopyBlock(loc, parmSize);
          return Ok(Some(block));
        }
        assert elementSizes[..i + 1] == elementSizes[..i] + [elementSizes[i]];
        SumAppend(elementSizes[..i], elementSizes[i]);
        loc := loc + elementSizes[i];
        i := i + 1;
      }
      res := Ok(None);
    }

    /** The j/k copy loop of GetCovariance. */
    method CopyBlock(loc: nat, n: nat) returns (block: Matrix)
      requires Valid() && loc + n <= dimension
      ensures block == SubBlock(Entries(), loc, n)
    {
      block := [];
      var j := 0;
      while j < n
        invariant 0 <= j <= n && |block| == j
        invariant forall r :: 0 <= r < j ==> block[r] == SubBlock(Entries(), loc, n)[r]
      {
        var row := [];
        var k := 0;
        while k < n
          invariant 0 <= k <= n && |row| == k
          invariant forall c :: 0 <= c < k ==> row[c] == theCovariance[loc + j, loc + c]
        {
          row := row + [theCovariance[loc + j, loc + k]];
          k := k + 1;
        }
        block := block + [row];
        j := j + 1;
      }
    }

    /** PrepareMatrix: resize to dimension-by-dimension and set the identity. */
    method PrepareMatrix()
      requires Valid()
      modifies this
      ensures Valid()
      ensures theCovariance == old(theCovariance) || fresh(theCovariance)
      ensures Entries() == Identity(dimension)
      ensures elementNames == old(elementNames) && elementSizes == old(elementSizes)
      ensures elementIDs == old(elementIDs) && elementOwners == old(elementOwners)
      ensures dimension == old(dimension)
    {
      var n := dimension;
      var a := new real[n, n];
      var i := 0;
      while i < n
        modifies a
        invariant 0 <= i <= n
        invariant forall r, c :: 0 <= r < i && 0 <= c < n ==> a[r, c] == if r == c then 1.0 else 0.0
      {
        var j := 0;
        while j < n
          modifies a
          invariant 0 <= j <= n
          invariant forall r, c :: 0 <= r < i && 0 <= c < n ==> a[r, c] == if r == c then 1.0 else 0.0
          invariant forall c :: 0 <= c < j ==> a[i, c] == if i == c then 1.0 else 0.0
        {
          a[i, j] := if i == j then 1.0 else 0.0;
          j := j + 1;
        }
        i := i + 1;
      }
      theCovariance := a;
      MatrixExt(Entries(), Identity(dimension), dimension, dimension);
    }
  }

  /** The by-name resize passes startLoc + size to a callee that adds the
      block start again. With blocks "a" (size 1) and "b" (size 1), growing
      "b" is told to insert at index 3 of a 2-by-2 matrix, while the end of
      "b"'s block is index 2; the by-id path passes the right index. */
  function ByNameInsertIndex(sizes: seq<int>, i: nat): int
    requires i < |sizes|
  {
    var start := Sum(sizes[..i]);
    (start + sizes[i]) + start
  }

  function ByIdInsertIndex(sizes: seq<int>, i: nat): (at: int)
    requires i < |sizes|
    ensures at == Sum(sizes[..i + 1])
  {
    assert sizes[..i + 1] == sizes[..i] + [sizes[i]];
    SumAppend(sizes[..i], sizes[i]);
    sizes[i] + Sum(sizes[..i])
  }

  /** The two paths agree exactly when the element's block starts at 0. */
  lemma ByNameInsertIndexOffByStart(sizes: seq<int>, i: nat)
    requires i < |sizes|
    ensures ByNameInsertIndex(sizes, i) == ByIdInsertIndex(sizes, i) + Sum(sizes[..i])
    ensures ByNameInsertIndex(sizes, i) == ByIdInsertIndex(sizes, i) <==> Sum(sizes[..i]) == 0
  {
  }

  lemma ByNameInsertIndexCounterexample()
    ensures ByNameInsertIndex([1, 1], 1) == 3
    ensures ByIdInsertIndex([1, 1], 1) == 2 == Sum([1, 1])
  {
    assert [1, 1][..1] == [1];
    assert [1][..0] == [];
    assert [1, 1][..2] == [1, 1];
  }
}
