/** Gauss-Jordan elimination with partial pivoting, in place on an augmented matrix. */
module RidgeSolver {
  import opened Wrappers
  import opened Sequences
  import opened Vectors

  const SINGULAR: real := 0.000000000001

  function Abs(r: real): real {
    if r < 0.0 then -r else r
  }

  type Matrix = seq<Vector>

  predicate Shaped(a: Matrix, rows: nat, columns: nat) {
    |a| == rows && forall i :: 0 <= i < rows ==> |a[i]| == columns
  }

  predicate Satisfies(matrix: Matrix, vector: Vector, x: Vector) {
    |x| == |vector| == |matrix| && forall i :: 0 <= i < |matrix| ==> Dot(matrix[i], x) == vector[i]
  }

  function Augmented(matrix: Matrix, vector: Vector): (a: Matrix)
    requires |matrix| == |vector|
    ensures |a| == |matrix| && forall i :: 0 <= i < |matrix| ==> a[i] == matrix[i] + [vector[i]]
  {
    seq(|matrix|, i requires 0 <= i < |matrix| => matrix[i] + [vector[i]])
  }

  /** Every equation holds at `y`, whose last entry is -1 for the right-hand side. */
  predicate Kernel(a: Matrix, y: Vector) {
    forall i :: 0 <= i < |a| ==> Dot(a[i], y) == 0.0
  }

  ghost predicate Equivalent(a: Matrix, b: Matrix, columns: nat) {
    forall y: Vector :: |y| == columns ==> (Kernel(a, y) <==> Kernel(b, y))
  }

  /** The first `col` columns hold one entry each, on the diagonal. */
  predicate Reduced(a: Matrix, size: nat, col: nat)
    requires Shaped(a, size, size + 1) && col <= size
  {
    forall i, k :: 0 <= i < size && 0 <= k < col ==> if i == k then a[i][k] != 0.0 else a[i][k] == 0.0
  }

  lemma AugmentedKernel(matrix: Matrix, vector: Vector, x: Vector)
    requires Shaped(matrix, |vector|, |vector|) && |x| == |vector|
    ensures Kernel(Augmented(matrix, vector), x + [-1.0]) <==> Satisfies(matrix, vector, x)
  {
    var a, y := Augmented(matrix, vector), x + [-1.0];
    assert Init(y) == x;
    forall i | 0 <= i < |a|
      ensures Dot(a[i], y) == Dot(matrix[i], x) - vector[i]
    {
      assert Init(a[i]) == matrix[i];
    }
  }

  lemma SwapEquivalent(a: Matrix, i: nat, j: nat, y: Vector)
    requires i < |a| && j < |a|
    ensures Kernel(a, y) <==> Kernel(a[i := a[j]][j := a[i]], y)
  {
    var b := a[i := a[j]][j := a[i]];
    if Kernel(a, y) {
      assert Dot(a[i], y) == 0.0 && Dot(a[j], y) == 0.0;
    }
    if Kernel(b, y) {
      assert Dot(b[i], y) == 0.0 && Dot(b[j], y) == 0.0;
      forall k | 0 <= k < |a|
        ensures Dot(a[k], y) == 0.0
      {
        assert Dot(b[k], y) == 0.0;
      }
    }
  }

  /** What the pivot's row is multiplied by before it is subtracted from another. */
  function Factor(a: Matrix, row: nat, col: nat): real
    requires row < |a| && col < |a| && col < |a[row]| && col < |a[col]| && a[col][col] != 0.0
  {
    a[row][col] / a[col][col]
  }

  predicate Eliminable(a: Matrix, size: nat, row: nat, col: nat) {
    Shaped(a, size, size + 1) && row < size && col < size && row != col && a[col][col] != 0.0
  }

  function Eliminated(a: Matrix, size: nat, row: nat, col: nat): (b: Matrix)
    requires Eliminable(a, size, row, col)
  {
    a[row := Plus(a[row], -Factor(a, row, col), a[col])]
  }

  lemma EliminationEquivalent(a: Matrix, size: nat, row: nat, col: nat, y: Vector)
    requires Eliminable(a, size, row, col) && |y| == size + 1
    ensures Kernel(a, y) <==> Kernel(Eliminated(a, size, row, col), y)
  {
    var b := Eliminated(a, size, row, col);
    DotPlus(a[row], -Factor(a, row, col), a[col], y);
    if Kernel(a, y) {
      assert Dot(a[row], y) == 0.0 && Dot(a[col], y) == 0.0;
    }
    if Kernel(b, y) {
      assert Dot(b[row], y) == 0.0 && Dot(b[col], y) == 0.0;
      forall k | 0 <= k < |a|
        ensures Dot(a[k], y) == 0.0
      {
        assert Dot(b[k], y) == 0.0;
      }
    }
  }

  lemma EliminationKeepsSolutions(a: Matrix, size: nat, row: nat, col: nat)
    requires Eliminable(a, size, row, col)
    ensures Equivalent(a, Eliminated(a, size, row, col), size + 1)
  {
    forall y: Vector | |y| == size + 1
      ensures Kernel(a, y) <==> Kernel(Eliminated(a, size, row, col), y)
    {
      EliminationEquivalent(a, size, row, col, y);
    }
  }

  lemma SwapKeepsSolutions(a: Matrix, i: nat, j: nat, columns: nat)
    requires i < |a| && j < |a|
    ensures Equivalent(a, a[i := a[j]][j := a[i]], columns)
  {
    forall y: Vector | |y| == columns
      ensures Kernel(a, y) <==> Kernel(a[i := a[j]][j := a[i]], y)
    {
      SwapEquivalent(a, i, j, y);
    }
  }

  /** `x` is no farther from zero than `y`. */
  predicate NoFarther(x: real, y: real) {
    if y >= 0.0 then -y <= x <= y else y <= x <= -y
  }

  /** The row at or below the diagonal whose entry in a column is the largest, the first of them. */
  method SelectPivot(a: array<Vector>, col: nat) returns (pivot: nat)
    requires col < a.Length && forall i :: 0 <= i < a.Length ==> |a[i]| == a.Length + 1
    ensures col <= pivot < a.Length
    ensures forall row :: col <= row < a.Length ==> NoFarther(a[row][col], a[pivot][col])
    ensures forall row :: col <= row < pivot ==> !NoFarther(a[pivot][col], a[row][col])
  {
    pivot := col;
    for row := col + 1 to a.Length
      invariant col <= pivot < row
      invariant forall r :: col <= r < row ==> Abs(a[r][col]) <= Abs(a[pivot][col])
      invariant forall r :: col <= r < pivot ==> Abs(a[r][col]) < Abs(a[pivot][col])
    {
      if Abs(a[row][col]) > Abs(a[pivot][col]) {
        pivot := row;
      }
    }
  }

  /** Subtracts a multiple of the pivot's row from another one, entry by entry from the pivot's column. */
  method EliminateRow(a: array<Vector>, row: nat, col: nat)
    requires Eliminable(a[..], a.Length, row, col)
    requires forall k :: 0 <= k < col ==> a[col][k] == 0.0
    modifies a
    ensures a[..] == Eliminated(old(a[..]), a.Length, row, col)
  {
    ghost var before := a[..];
    var factor := a[row][col] / a[col][col];
    ghost var target := Plus(before[row], -factor, before[col]);
    assert forall i :: 0 <= i < a.Length ==> |a[..][i]| == a.Length + 1;
    assert forall j :: 0 <= j < col ==> target[j] == before[row][j];
    for k := col to a.Length + 1
      invariant |a[row]| == a.Length + 1
      invariant forall i :: 0 <= i < a.Length && i != row ==> a[i] == before[i]
      invariant forall j :: 0 <= j < k ==> a[row][j] == target[j]
      invariant forall j :: k <= j <= a.Length ==> a[row][j] == before[row][j]
    {
      Negated(a[row][k], factor, a[col][k]);
      a[row] := a[row][k := a[row][k] - factor * a[col][k]];
    }
    assert a[row] == target;
  }

  /** The rows before `row`, apart from the pivot's, hold nothing in column `col`. */
  predicate Cleared(a: Matrix, size: nat, col: nat, row: nat)
    requires Shaped(a, size, size + 1) && col < size && row <= size
  {
    a[col][col] != 0.0 && forall i :: 0 <= i < row && i != col ==> a[i][col] == 0.0
  }

  lemma DivideBack(a: real, d: real)
    requires d != 0.0
    ensures a / d * d == a
  {
  }

  lemma RowCleared(a: Matrix, size: nat, col: nat, row: nat)
    requires Eliminable(a, size, row, col)
    requires Reduced(a, size, col) && Cleared(a, size, col, row)
    ensures var b := Eliminated(a, size, row, col);
            Shaped(b, size, size + 1) && Reduced(b, size, col) && Cleared(b, size, col, row + 1)
  {
    var f := Factor(a, row, col);
    var b := Eliminated(a, size, row, col);
    DivideBack(a[row][col], a[col][col]);
    Negated(a[row][col], f, a[col][col]);
    assert b[row][col] == 0.0;
    forall k | 0 <= k < col
      ensures b[row][k] == a[row][k]
    {
      assert a[col][k] == 0.0;
    }
    SameBeforeColumn(a, b, size, col);
  }

  lemma SameBeforeColumn(a: Matrix, b: Matrix, size: nat, col: nat)
    requires Shaped(a, size, size + 1) && Shaped(b, size, size + 1) && col <= size
    requires forall i, k :: 0 <= i < size && 0 <= k < col ==> b[i][k] == a[i][k]
    ensures Reduced(a, size, col) ==> Reduced(b, size, col)
  {
  }

  method EliminateColumn(a: array<Vector>, col: nat)
    requires col < a.Length && Shaped(a[..], a.Length, a.Length + 1)
    requires Reduced(a[..], a.Length, col) && a[col][col] != 0.0
    modifies a
    ensures Shaped(a[..], a.Length, a.Length + 1) && Reduced(a[..], a.Length, col + 1)
    ensures Equivalent(old(a[..]), a[..], a.Length + 1)
  {
    ghost var before := a[..];
    for row := 0 to a.Length
      invariant Shaped(a[..], a.Length, a.Length + 1) && Reduced(a[..], a.Length, col)
      invariant Cleared(a[..], a.Length, col, row)
      invariant Equivalent(before, a[..], a.Length + 1)
    {
      if row != col {
        ghost var current := a[..];
        assert forall k :: 0 <= k < col ==> current[col][k] == 0.0;
        RowCleared(current, a.Length, col, row);
        EliminationKeepsSolutions(current, a.Length, row, col);
        EliminateRow(a, row, col);
      }
    }
  }

  /** Elimination came to a column without an entry to divide by. */
  ghost predicate Stuck(start: Matrix, size: nat) {
    exists a: Matrix, col: nat :: StuckAt(start, a, size, col)
  }

  ghost predicate StuckAt(start: Matrix, a: Matrix, size: nat, col: nat) {
    && Shaped(a, size, size + 1) && col < size
    && Equivalent(start, a, size + 1)
    && Reduced(a, size, col)
    && forall row :: col <= row < size ==> -0.000000000001 < a[row][col] < 0.000000000001
  }

  // Refusing a regular system

  /** Nothing but zero is mapped to zero. */
  ghost predicate Regular(matrix: Matrix) {
    forall d: Vector :: |d| == |matrix| && Kernel(matrix, d) ==> d == Zeros(|matrix|)
  }

  /** Elimination came to a column whose entries are below the threshold, though one of them is not zero. */
  ghost predicate NearlyStuck(start: Matrix, size: nat) {
    exists a: Matrix, col: nat, row: nat ::
      StuckAt(start, a, size, col) && col <= row < size && EntryLeft(a, row, col)
  }

  predicate EntryLeft(a: Matrix, row: nat, col: nat) {
    row < |a| && col < |a[row]| && a[row][col] != 0.0
  }

  lemma AugmentedHomogeneous(matrix: Matrix, vector: Vector, d: Vector)
    requires Shaped(matrix, |vector|, |vector|) && |d| == |vector|
    ensures Kernel(Augmented(matrix, vector), d + [0.0]) <==> Kernel(matrix, d)
  {
    var a, y := Augmented(matrix, vector), d + [0.0];
    assert Init(y) == d;
    forall i | 0 <= i < |a|
      ensures Dot(a[i], y) == Dot(matrix[i], d)
    {
      assert Init(a[i]) == matrix[i];
    }
  }

  /** What a column without pivot leaves free: one there, and what balances it in the reduced columns. */
  function Direction(a: Matrix, size: nat, col: nat): (d: Vector)
    requires Shaped(a, size, size + 1) && col < size && Reduced(a, size, col)
    ensures |d| == size + 1
    ensures forall k :: 0 <= k <= size ==>
              (k < col ==> a[k][k] != 0.0 && d[k] == -a[k][col] / a[k][k])
              && (k >= col ==> d[k] == if k == col then 1.0 else 0.0)
  {
    seq(size + 1, k requires 0 <= k <= size => if k < col then -a[k][col] / a[k][k] else if k == col then 1.0 else 0.0)
  }

  lemma Balanced(d: real, v: real)
    requires d != 0.0
    ensures d * (-v / d) + v * 1.0 == 0.0
  {
  }

  lemma DirectionInKernel(a: Matrix, size: nat, col: nat)
    requires Shaped(a, size, size + 1) && col < size && Reduced(a, size, col)
    requires forall row :: col <= row < size ==> a[row][col] == 0.0
    ensures Kernel(a, Direction(a, size, col))
  {
    var y := Direction(a, size, col);
    forall i | 0 <= i < size
      ensures Dot(a[i], y) == 0.0
    {
      forall k | 0 <= k <= size && k != col && (k != i || i >= col)
        ensures ApartAt(a[i], y, k)
      {
      }
      if i < col {
        DotPair(a[i], y, i, col);
        Balanced(a[i][i], a[i][col]);
      } else {
        assert ApartAt(a[i], y, col);
        DotApart(a[i], y);
      }
    }
  }

  /** A column that is empty from the diagonal on belongs to a singular system. */
  lemma EmptyColumnIsSingular(matrix: Matrix, vector: Vector, a: Matrix, col: nat)
    requires Shaped(matrix, |vector|, |vector|) && Shaped(a, |vector|, |vector| + 1) && col < |vector|
    requires Equivalent(Augmented(matrix, vector), a, |vector| + 1) && Reduced(a, |vector|, col)
    requires forall row :: col <= row < |vector| ==> a[row][col] == 0.0
    ensures !Regular(matrix)
  {
    var y := Direction(a, |vector|, col);
    var d := Init(y);
    DirectionInKernel(a, |vector|, col);
    assert y == d + [0.0] && d[col] == 1.0;
    assert Kernel(Augmented(matrix, vector), y);
    AugmentedHomogeneous(matrix, vector, d);
  }

  /** A regular system always has an entry left to divide by; only the threshold can refuse it. */
  lemma RegularHasEntry(matrix: Matrix, vector: Vector, a: Matrix, col: nat) returns (row: nat)
    requires Shaped(matrix, |vector|, |vector|) && Regular(matrix)
    requires StuckAt(Augmented(matrix, vector), a, |vector|, col)
    ensures col <= row < |vector| && EntryLeft(a, row, col)
  {
    var size := |vector|;
    if forall r :: col <= r < size ==> a[r][col] == 0.0 {
      EmptyColumnIsSingular(matrix, vector, a, col);
    }
    row :| col <= row < size && a[row][col] != 0.0;
  }

  /** A system with exactly one solution is regular. */
  lemma OneSolutionRegular(matrix: Matrix, vector: Vector, x: Vector)
    requires Shaped(matrix, |vector|, |vector|) && Satisfies(matrix, vector, x)
    requires forall z :: Satisfies(matrix, vector, z) ==> z == x
    ensures Regular(matrix)
  {
    forall d: Vector | |d| == |matrix| && Kernel(matrix, d)
      ensures d == Zeros(|matrix|)
    {
      var z := Plus(x, 1.0, d);
      forall i | 0 <= i < |matrix|
        ensures Dot(matrix[i], z) == vector[i]
      {
        DotCommutes(matrix[i], z);
        DotCommutes(matrix[i], x);
        DotCommutes(matrix[i], d);
        DotPlus(x, 1.0, d, matrix[i]);
        assert Dot(matrix[i], x) == vector[i] && Dot(matrix[i], d) == 0.0;
      }
      assert Satisfies(matrix, vector, z);
      assert forall k :: 0 <= k < |x| ==> z[k] == x[k] + 1.0 * d[k];
    }
  }

  lemma RefusedNearly(matrix: Matrix, vector: Vector)
    requires Shaped(matrix, |vector|, |vector|) && Regular(matrix)
    requires Stuck(Augmented(matrix, vector), |vector|)
    ensures NearlyStuck(Augmented(matrix, vector), |vector|)
  {
    var start := Augmented(matrix, vector);
    var a: Matrix, col: nat :| StuckAt(start, a, |vector|, col);
    var row := RegularHasEntry(matrix, vector, a, col);
  }

  /** The elimination loop of `solve`. */
  method Eliminate(a: array<Vector>) returns (regular: bool)
    requires Shaped(a[..], a.Length, a.Length + 1)
    modifies a
    ensures Shaped(a[..], a.Length, a.Length + 1)
    ensures Equivalent(old(a[..]), a[..], a.Length + 1)
    ensures regular ==> Reduced(a[..], a.Length, a.Length)
    ensures !regular ==> Stuck(old(a[..]), a.Length)
  {
    ghost var start := a[..];
    for col := 0 to a.Length
      invariant Shaped(a[..], a.Length, a.Length + 1) && Reduced(a[..], a.Length, col)
      invariant Equivalent(start, a[..], a.Length + 1)
    {
      assert forall i :: 0 <= i < a.Length ==> |a[..][i]| == a.Length + 1;
      var pivot := SelectPivot(a, col);
      if Abs(a[pivot][col]) < SINGULAR {
        assert forall row :: col <= row < a.Length ==> NoFarther(a[row][col], a[pivot][col]);
        assert StuckAt(start, a[..], a.Length, col);
        return false;
      }
      ghost var current := a[..];
      SwapKeepsSolutions(current, col, pivot, a.Length + 1);
      a[col], a[pivot] := a[pivot], a[col];
      assert a[..] == current[col := current[pivot]][pivot := current[col]];
      EliminateColumn(a, col);
    }
    regular := true;
  }

  /** Divides each right-hand side by its diagonal entry. */
  function ReadOff(a: Matrix, size: nat): (x: Vector)
    requires Shaped(a, size, size + 1) && Reduced(a, size, size)
    ensures |x| == size && forall i :: 0 <= i < size ==> a[i][i] != 0.0 && x[i] == a[i][size] / a[i][i]
  {
    seq(size, i requires 0 <= i < size => a[i][size] / a[i][i])
  }

  /** A fully reduced system has exactly one solution. */
  lemma ReducedSolution(a: Matrix, size: nat, z: Vector)
    requires Shaped(a, size, size + 1) && Reduced(a, size, size) && |z| == size
    ensures Kernel(a, z + [-1.0]) <==> z == ReadOff(a, size)
  {
    var y := z + [-1.0];
    forall i | 0 <= i < size
      ensures Dot(a[i], y) == 0.0 <==> z[i] == ReadOff(a, size)[i]
    {
      ReducedRow(a, size, i, z);
      Quotient(a[i][i], z[i], a[i][size]);
    }
  }

  lemma ReducedRow(a: Matrix, size: nat, i: nat, z: Vector)
    requires Shaped(a, size, size + 1) && Reduced(a, size, size) && |z| == size && i < size
    ensures Dot(a[i], z + [-1.0]) == a[i][i] * z[i] - a[i][size]
  {
    assert Init(z + [-1.0]) == z;
    assert forall k :: 0 <= k < size && k != i ==> Init(a[i])[k] == 0.0;
    DotSingle(Init(a[i]), z, i);
  }

  lemma Quotient(d: real, x: real, v: real)
    requires d != 0.0
    ensures d * x == v <==> x == v / d
  {
  }

  /**
   `solve`: when it gives an answer, that answer satisfies the equations and nothing else does; it
   refuses only when elimination, which keeps the solutions, comes to a column of small entries, and
   of those some are not zero when the matrix is regular.
   */
  method Solve(matrix: Matrix, vector: Vector) returns (solution: Option<Vector>)
    requires Shaped(matrix, |vector|, |vector|)
    ensures solution.Some? ==> Satisfies(matrix, vector, solution.value)
    ensures solution.Some? ==> forall z :: Satisfies(matrix, vector, z) ==> z == solution.value
    ensures solution.None? ==> Stuck(Augmented(matrix, vector), |vector|)
    ensures solution.Some? ==> Regular(matrix)
    ensures solution.None? && Regular(matrix) ==> NearlyStuck(Augmented(matrix, vector), |vector|)
  {
    var size := |vector|;
    var rows := Augmented(matrix, vector);
    var a := new Vector[size](i requires 0 <= i < size => rows[i]);
    assert a[..] == rows;
    var regular := Eliminate(a);
    if !regular {
      if Regular(matrix) {
        RefusedNearly(matrix, vector);
      }
      return None;
    }
    var x := ReadOff(a[..], size);
    forall z: Vector | |z| == size
      ensures Satisfies(matrix, vector, z) <==> z == x
    {
      AugmentedKernel(matrix, vector, z);
      ReducedSolution(a[..], size, z);
      assert Kernel(rows, z + [-1.0]) <==> Kernel(a[..], z + [-1.0]);
    }
    OneSolutionRegular(matrix, vector, x);
    solution := Some(x);
  }
}
