/** Gauss-Jordan elimination with row pivoting, over the reals. */
module LinearSolve {
  import opened Options

  type Row = seq<real>
  type Matrix = seq<Row>

  /** A pivot smaller than this counts as none. */
  const TINY := 0.000000000001

  function Abs(x: real): real { if x < 0.0 then -x else x }

  /** The first `n` products of two vectors, summed. */
  function Dot(a: Row, x: Row, n: nat): real
    requires n <= |a| && n <= |x|
  {
    if n == 0 then 0.0 else Dot(a, x, n - 1) + a[n - 1] * x[n - 1]
  }

  ghost predicate Square(matrix: Matrix, n: nat) {
    |matrix| == n && forall i :: 0 <= i < n ==> |matrix[i]| == n
  }

  ghost predicate IsSolution(matrix: Matrix, vector: Row, x: Row)
    requires Square(matrix, |vector|)
  {
    |x| == |vector| && forall i :: 0 <= i < |vector| ==> Dot(matrix[i], x, |vector|) == vector[i]
  }

  /** `n` equations in `n` unknowns, each row followed by its right-hand side. */
  ghost predicate Shape(m: Matrix, n: nat) {
    |m| == n && forall i :: 0 <= i < n ==> |m[i]| == n + 1
  }

  ghost predicate Holds(row: Row, x: Row, n: nat)
    requires |row| == n + 1 && |x| == n
  {
    Dot(row, x, n) == row[n]
  }

  ghost predicate Solves(m: Matrix, x: Row, n: nat)
    requires Shape(m, n) && |x| == n
  {
    forall i :: 0 <= i < n ==> Holds(m[i], x, n)
  }

  ghost predicate SameSolutions(m: Matrix, m': Matrix, n: nat)
    requires Shape(m, n) && Shape(m', n)
  {
    forall x: Row :: |x| == n ==> (Solves(m, x, n) <==> Solves(m', x, n))
  }

  /** The first `k` columns are eliminated: only their diagonal entry is left, and it is not zero. */
  ghost predicate Eliminated(m: Matrix, n: nat, k: nat)
    requires Shape(m, n) && k <= n
  {
    forall j :: 0 <= j < k ==> OnlyDiagonal(m, n, j)
  }

  ghost predicate OnlyDiagonal(m: Matrix, n: nat, j: nat)
    requires Shape(m, n) && j < n
  {
    m[j][j] != 0.0 && forall i :: 0 <= i < n && i != j ==> m[i][j] == 0.0
  }

  /** In column `k` nothing is left that could serve as a pivot. */
  ghost predicate NoPivot(m: Matrix, n: nat, k: nat)
    requires Shape(m, n) && k < n
  {
    forall r :: k <= r < n ==> Abs(m[r][k]) < TINY
  }

  // ---- row steps -----------------------------------------------------------------------------

  function Minus(a: Row, b: Row, f: real): Row
    requires |a| == |b|
  {
    seq(|a|, i requires 0 <= i < |a| => a[i] - f * b[i])
  }

  function Swapped(m: Matrix, a: nat, b: nat): Matrix
    requires a < |m| && b < |m|
  {
    m[a := m[b]][b := m[a]]
  }

  /** Row `k` taken off every other row, as often as clears column `k` there. */
  function Cleared(m: Matrix, n: nat, k: nat): Matrix
    requires Shape(m, n) && k < n && m[k][k] != 0.0
  {
    seq(n, r requires 0 <= r < n => if r == k then m[k] else Minus(m[r], m[k], m[r][k] / m[k][k]))
  }

  lemma {:induction false} DotMinus(a: Row, b: Row, f: real, x: Row, n: nat)
    requires |a| == |b| && n <= |a| && n <= |x|
    ensures Dot(Minus(a, b, f), x, n) == Dot(a, x, n) - f * Dot(b, x, n)
  {
    if n > 0 {
      DotMinus(a, b, f, x, n - 1);
      var u, v, w := a[n - 1], b[n - 1], x[n - 1];
      assert (u - f * v) * w == u * w - f * (v * w);
      assert f * (Dot(b, x, n - 1) + v * w) == f * Dot(b, x, n - 1) + f * (v * w);
    }
  }

  lemma SwapSame(m: Matrix, n: nat, a: nat, b: nat)
    requires Shape(m, n) && a < n && b < n
    ensures Shape(Swapped(m, a, b), n) && SameSolutions(m, Swapped(m, a, b), n)
  {
    var m' := Swapped(m, a, b);
    forall x: Row | |x| == n ensures Solves(m, x, n) <==> Solves(m', x, n) {
      assert m'[a] == m[b] && m'[b] == m[a];
      assert forall i :: 0 <= i < n && i != a && i != b ==> m'[i] == m[i];
    }
  }

  lemma RowCleared(m: Matrix, n: nat, k: nat, r: nat, x: Row)
    requires Shape(m, n) && k < n && m[k][k] != 0.0 && r < n && |x| == n && Holds(m[k], x, n)
    ensures Holds(m[r], x, n) <==> Holds(Cleared(m, n, k)[r], x, n)
  {
    if r != k { DotMinus(m[r], m[k], m[r][k] / m[k][k], x, n); }
  }

  lemma ClearSame(m: Matrix, n: nat, k: nat)
    requires Shape(m, n) && k < n && m[k][k] != 0.0
    ensures Shape(Cleared(m, n, k), n) && SameSolutions(m, Cleared(m, n, k), n)
  {
    var m' := Cleared(m, n, k);
    forall x: Row | |x| == n ensures Solves(m, x, n) <==> Solves(m', x, n) {
      if Holds(m[k], x, n) {
        forall r | 0 <= r < n ensures Holds(m[r], x, n) <==> Holds(m'[r], x, n) { RowCleared(m, n, k, r, x); }
      } else {
        assert !Holds(m'[k], x, n);
      }
    }
  }

  /** Clearing one more column leaves the earlier ones eliminated. */
  lemma ClearEliminates(m: Matrix, n: nat, k: nat)
    requires Shape(m, n) && k < n && Eliminated(m, n, k) && m[k][k] != 0.0
    ensures Eliminated(Cleared(m, n, k), n, k + 1)
  {
    var m' := Cleared(m, n, k);
    forall j | 0 <= j < k ensures OnlyDiagonal(m', n, j) {
      assert OnlyDiagonal(m, n, j) && m[k][j] == 0.0;
      forall i | 0 <= i < n ensures m'[i][j] == m[i][j] {
        if i != k { assert m'[i][j] == m[i][j] - m[i][k] / m[k][k] * m[k][j]; }
      }
    }
    forall i | 0 <= i < n && i != k ensures m'[i][k] == 0.0 {}
  }

  lemma SwapEliminated(m: Matrix, n: nat, k: nat, p: nat)
    requires Shape(m, n) && k <= p < n && Eliminated(m, n, k)
    ensures Shape(Swapped(m, k, p), n) && Eliminated(Swapped(m, k, p), n, k)
  {
    forall j | 0 <= j < k ensures OnlyDiagonal(Swapped(m, k, p), n, j) { assert OnlyDiagonal(m, n, j); }
  }

  // ---- the diagonal system -------------------------------------------------------------------

  lemma {:induction false} DotDiagonal(a: Row, x: Row, i: nat, n: nat)
    requires n <= |a| && n <= |x| && forall j :: 0 <= j < n && j != i ==> a[j] == 0.0
    ensures Dot(a, x, n) == if i < n then a[i] * x[i] else 0.0
  {
    if n > 0 { DotDiagonal(a, x, i, n - 1); }
  }

  function ReadOff(m: Matrix, n: nat): Row
    requires Shape(m, n) && Eliminated(m, n, n)
  {
    seq(n, i requires 0 <= i < n && OnlyDiagonal(m, n, i) => m[i][n] / m[i][i])
  }

  lemma ReadOffUnique(m: Matrix, n: nat, x: Row)
    requires Shape(m, n) && Eliminated(m, n, n) && |x| == n
    ensures Solves(m, x, n) <==> x == ReadOff(m, n)
  {
    forall i | 0 <= i < n ensures Holds(m[i], x, n) <==> x[i] == ReadOff(m, n)[i] {
      assert OnlyDiagonal(m, n, i);
      forall j | 0 <= j < n && j != i ensures m[i][j] == 0.0 { assert OnlyDiagonal(m, n, j); }
      DotDiagonal(m[i], x, i, n);
    }
  }

  // ---- the algorithm -------------------------------------------------------------------------

  function Augmented(matrix: Matrix, vector: Row): Matrix
    requires Square(matrix, |vector|)
  {
    seq(|vector|, i requires 0 <= i < |vector| => matrix[i] + [vector[i]])
  }

  lemma {:induction false} DotPrefix(a: Row, b: real, x: Row, n: nat)
    requires n <= |a| && n <= |x|
    ensures Dot(a + [b], x, n) == Dot(a, x, n)
  {
    if n > 0 { DotPrefix(a, b, x, n - 1); }
  }

  lemma AugmentedMeans(matrix: Matrix, vector: Row, x: Row)
    requires Square(matrix, |vector|) && |x| == |vector|
    ensures Shape(Augmented(matrix, vector), |vector|)
    ensures IsSolution(matrix, vector, x) <==> Solves(Augmented(matrix, vector), x, |vector|)
  {
    var n, m := |vector|, Augmented(matrix, vector);
    forall i | 0 <= i < n ensures Holds(m[i], x, n) <==> Dot(matrix[i], x, n) == vector[i] {
      DotPrefix(matrix[i], vector[i], x, n);
    }
  }

  /** The first row from `col` on whose entry in that column is largest in size. */
  method PivotRow(m: Matrix, n: nat, col: nat) returns (p: nat)
    requires Shape(m, n) && col < n
    ensures col <= p < n
    ensures forall r :: col <= r < n ==> Abs(m[r][col]) <= Abs(m[p][col])
    ensures forall r :: col <= r < p ==> Abs(m[r][col]) < Abs(m[p][col])
  {
    p := col;
    for r := col + 1 to n
      invariant col <= p < r
      invariant forall i :: col <= i < r ==> Abs(m[i][col]) <= Abs(m[p][col])
      invariant forall i :: col <= i < p ==> Abs(m[i][col]) < Abs(m[p][col])
    {
      if Abs(m[r][col]) > Abs(m[p][col]) { p := r; }
    }
  }

  method Clear(m0: Matrix, n: nat, col: nat) returns (m: Matrix)
    requires Shape(m0, n) && col < n && m0[col][col] != 0.0
    ensures m == Cleared(m0, n, col)
  {
    m := m0;
    for r := 0 to n
      invariant |m| == n && m[col] == m0[col]
      invariant forall i :: 0 <= i < r ==> m[i] == Cleared(m0, n, col)[i]
      invariant forall i :: r <= i < n ==> m[i] == m0[i]
    {
      if r != col {
        var f := m[r][col] / m[col][col];
        m := m[r := Minus(m[r], m[col], f)];
      }
    }
  }

  /** Where elimination stopped: an equivalent system whose next column has no pivot. */
  ghost predicate Stuck(matrix: Matrix, vector: Row)
    requires Square(matrix, |vector|)
  {
    exists m: Matrix, k: nat :: StuckAt(matrix, vector, m, k)
  }

  ghost predicate StuckAt(matrix: Matrix, vector: Row, m: Matrix, k: nat)
    requires Square(matrix, |vector|)
  {
    && k < |vector| && Shape(m, |vector|) && Shape(Augmented(matrix, vector), |vector|)
    && SameSolutions(Augmented(matrix, vector), m, |vector|)
    && Eliminated(m, |vector|, k) && NoPivot(m, |vector|, k)
  }

  lemma StepSame(m0: Matrix, m: Matrix, n: nat, k: nat, p: nat)
    requires Shape(m0, n) && Shape(m, n) && SameSolutions(m0, m, n)
    requires k <= p < n && Eliminated(m, n, k) && m[p][k] != 0.0
    ensures Shape(Swapped(m, k, p), n) && Swapped(m, k, p)[k][k] != 0.0
    ensures var m' := Cleared(Swapped(m, k, p), n, k);
      Shape(m', n) && SameSolutions(m0, m', n) && Eliminated(m', n, k + 1)
  {
    var w := Swapped(m, k, p);
    SwapSame(m, n, k, p);
    SwapEliminated(m, n, k, p);
    ClearSame(w, n, k);
    ClearEliminates(w, n, k);
    forall x: Row | |x| == n ensures Solves(m0, x, n) <==> Solves(Cleared(w, n, k), x, n) {
      assert Solves(m, x, n) <==> Solves(w, x, n);
    }
  }

  /** Some(x): `x` is the one and only solution. None: an equivalent system lacks a pivot. */
  method Solve(matrix: Matrix, vector: Row) returns (x: Option<Row>)
    requires Square(matrix, |vector|)
    ensures x.Some? ==> forall y: Row :: IsSolution(matrix, vector, y) <==> y == x.value
    ensures x.None? ==> Stuck(matrix, vector)
  {
    var n := |vector|;
    var m := Augmented(matrix, vector);
    ghost var m0 := m;
    assert Shape(m0, n);
    for col := 0 to n
      invariant Shape(m, n) && SameSolutions(m0, m, n) && Eliminated(m, n, col)
    {
      var pivot := PivotRow(m, n, col);
      if Abs(m[pivot][col]) < TINY {
        assert StuckAt(matrix, vector, m, col);
        return None;
      }
      StepSame(m0, m, n, col, pivot);
      m := Swapped(m, col, pivot);
      m := Clear(m, n, col);
    }
    x := Some(ReadOff(m, n));
    forall y: Row ensures IsSolution(matrix, vector, y) <==> y == x.value {
      if |y| == n {
        AugmentedMeans(matrix, vector, y);
        ReadOffUnique(m, n, y);
      }
    }
  }
}
