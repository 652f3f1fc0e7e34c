/** The decode length model: TPOT against running sequences and the context they hold. */
module DecodeLength {
  import opened Options
  import opened LinearSolve
  import opened LeastSquares
  import opened Sorting

  /** Running sequences, the context tokens they hold, and the TPOT in ms. */
  datatype Point = Point(running: real, kv: real, tpot: real)

  datatype Model = Model(alpha: real, beta: real, gamma: real, r95: real)

  /** Which slopes are fitted; the other one is 0. */
  datatype Columns = Both | RunningOnly | KvOnly

  function Width(cols: Columns): nat { if cols.Both? then 3 else 2 }

  function Features(p: Point, cols: Columns): Row {
    match cols
    case Both => [1.0, p.running, p.kv]
    case RunningOnly => [1.0, p.running]
    case KvOnly => [1.0, p.kv]
  }

  function AsSamples(points: seq<Point>, cols: Columns): (r: seq<Sample>)
    ensures Samples(r, Width(cols))
  {
    seq(|points|, i requires 0 <= i < |points| => Sample(Features(points[i], cols), points[i].tpot))
  }

  function Zeros(n: nat): Row { seq(n, i => 0.0) }

  /** Coefficients over a column set, read as a model. */
  function AsModel(cols: Columns, c: Row, r95: real): Model
    requires |c| == Width(cols)
  {
    match cols
    case Both => Model(c[0], c[1], c[2], r95)
    case RunningOnly => Model(c[0], c[1], 0.0, r95)
    case KvOnly => Model(c[0], 0.0, c[1], r95)
  }

  function Mean(m: Model, p: Point): real { m.alpha + m.beta * p.running + m.gamma * p.kv }

  function Residual(m: Model, p: Point): real { p.tpot - Mean(m, p) }

  // ---- which column set is used --------------------------------------------------------------

  function FitMatrix(points: seq<Point>, cols: Columns): Matrix {
    NormalMatrix(AsSamples(points, cols), Width(cols), Zeros(Width(cols)))
  }

  function FitVector(points: seq<Point>, cols: Columns): Row {
    NormalVector(AsSamples(points, cols), Width(cols), Zeros(Width(cols)), Zeros(Width(cols)))
  }

  ghost predicate OnlyFit(points: seq<Point>, cols: Columns, c: Row) {
    && |c| == Width(cols) && Square(FitMatrix(points, cols), |FitVector(points, cols)|)
    && forall d: Row :: IsSolution(FitMatrix(points, cols), FitVector(points, cols), d) <==> d == c
  }

  predicate SlopesOk(c: Row) { forall i :: 1 <= i < |c| ==> c[i] >= 0.0 }

  ghost predicate Accepts(points: seq<Point>, cols: Columns, c: Row) { OnlyFit(points, cols, c) && SlopesOk(c) }

  /** The column set cannot be solved, or its one fit has a negative slope. */
  ghost predicate Refuses(points: seq<Point>, cols: Columns) {
    && Square(FitMatrix(points, cols), |FitVector(points, cols)|)
    && (Stuck(FitMatrix(points, cols), FitVector(points, cols)) ||
      exists c: Row :: OnlyFit(points, cols, c) && !SlopesOk(c))
  }

  /** The column sets in the order in which they are tried. */
  const TRIED := [Both, RunningOnly, KvOnly]

  /** The first column set that is not refused. */
  ghost predicate Settles(points: seq<Point>, k: nat, c: Row) {
    && k < |TRIED| && Accepts(points, TRIED[k], c)
    && AllRefused(points, k)
  }

  /** The first `k` column sets are refused. */
  ghost predicate AllRefused(points: seq<Point>, k: nat) {
    forall j :: 0 <= j < k && j < |TRIED| ==> Refuses(points, TRIED[j])
  }

  /** Squared error of a model over the points. */
  function ModelError(points: seq<Point>, m: Model): real {
    if points == [] then 0.0 else
      var k := |points| - 1;
      ModelError(points[..k], m) + Sq(Residual(m, points[k]))
  }

  lemma {:induction false} NoPenalty(w: Row, prior: Row, c: Row, k: nat)
    requires k <= |w| && k <= |prior| && k <= |c| && forall i :: 0 <= i < |w| ==> w[i] == 0.0
    ensures Penalty(w, prior, c, k) == 0.0
  {
    if k > 0 { NoPenalty(w, prior, c, k - 1); }
  }

  lemma DotFeatures(p: Point, cols: Columns, c: Row, r95: real)
    requires |c| == Width(cols)
    ensures Dot(c, Features(p, cols), Width(cols)) == Mean(AsModel(cols, c, r95), p)
  {
    var x := Features(p, cols);
    assert Dot(c, x, 1) == Dot(c, x, 0) + c[0] * 1.0;
    assert Dot(c, x, 2) == Dot(c, x, 1) + c[1] * x[1];
    if cols.Both? { assert Dot(c, x, 3) == Dot(c, x, 2) + c[2] * x[2]; }
  }

  lemma {:induction false} ErrorIsModelError(points: seq<Point>, cols: Columns, c: Row, r95: real)
    requires |c| == Width(cols)
    ensures Error(AsSamples(points, cols), Width(cols), c) == ModelError(points, AsModel(cols, c, r95))
  {
    if points != [] {
      var k := |points| - 1;
      ErrorIsModelError(points[..k], cols, c, r95);
      assert AsSamples(points, cols)[..k] == AsSamples(points[..k], cols);
      DotFeatures(points[k], cols, c, r95);
    }
  }

  lemma ObjectiveIsModelError(points: seq<Point>, cols: Columns, c: Row, r95: real)
    requires |c| == Width(cols)
    ensures Problem(AsSamples(points, cols), Width(cols), Zeros(Width(cols)), Zeros(Width(cols)))
    ensures Objective(AsSamples(points, cols), Width(cols), Zeros(Width(cols)), Zeros(Width(cols)), c) ==
      ModelError(points, AsModel(cols, c, r95))
  {
    NoPenalty(Zeros(Width(cols)), Zeros(Width(cols)), c, Width(cols));
    ErrorIsModelError(points, cols, c, r95);
  }

  /** Whatever is accepted beats every other model over the same columns. */
  lemma AcceptedIsBest(points: seq<Point>, cols: Columns, c: Row, d: Row, r95: real)
    requires OnlyFit(points, cols, c) && |d| == Width(cols) && d != c
    ensures ModelError(points, AsModel(cols, c, r95)) < ModelError(points, AsModel(cols, d, r95))
  {
    ObjectiveIsModelError(points, cols, c, r95);
    ObjectiveIsModelError(points, cols, d, r95);
    SolutionIsBest(AsSamples(points, cols), Width(cols), Zeros(Width(cols)), Zeros(Width(cols)), c);
  }

  // ---- the residuals -------------------------------------------------------------------------

  function Residuals(points: seq<Point>, m: Model): seq<real> {
    seq(|points|, i requires 0 <= i < |points| => Residual(m, points[i]))
  }

  function Ordered(q: seq<real>): seq<real> { Sort(q, LeReal) }

  lemma OrderedAscending(q: seq<real>)
    ensures Sorted(Ordered(q), LeReal) && multiset(Ordered(q)) == multiset(q)
  {
    SortSorted(q, LeReal);
  }

  /** How many values are at most `v`. */
  function AtMost(q: seq<real>, v: real): nat {
    if q == [] then 0 else AtMost(q[..|q| - 1], v) + if q[|q| - 1] <= v then 1 else 0
  }

  lemma {:induction false} AtMostCons(x: real, q: seq<real>, v: real)
    ensures AtMost([x] + q, v) == AtMost(q, v) + if x <= v then 1 else 0
  {
    if q == [] {
      assert [x] + q == [x] && [x][..0] == [];
    } else {
      AtMostCons(x, q[..|q| - 1], v);
      assert ([x] + q)[..|q|] == [x] + q[..|q| - 1];
    }
  }

  lemma {:induction false} AtMostInsert(q: seq<real>, x: real, v: real)
    ensures AtMost(Insert(q, x, LeReal), v) == AtMost(q, v) + if x <= v then 1 else 0
  {
    if q == [] || x <= q[0] {
      AtMostCons(x, q, v);
    } else {
      AtMostInsert(q[1..], x, v);
      AtMostCons(q[0], Insert(q[1..], x, LeReal), v);
      AtMostCons(q[0], q[1..], v);
      assert q == [q[0]] + q[1..];
    }
  }

  lemma {:induction false} AtMostOrdered(q: seq<real>, v: real)
    ensures AtMost(Ordered(q), v) == AtMost(q, v)
  {
    if q != [] {
      AtMostOrdered(q[..|q| - 1], v);
      AtMostInsert(Ordered(q[..|q| - 1]), q[|q| - 1], v);
    }
  }

  /** Everything up to position `k` of an ascending list is at most its entry there. */
  lemma {:induction false} AtMostPrefix(q: seq<real>, k: nat, n: nat)
    requires Sorted(q, LeReal) && k < n <= |q|
    ensures AtMost(q[..n], q[k]) >= k + 1
  {
    assert q[..n][..n - 1] == q[..n - 1];
    if n > k + 1 {
      AtMostPrefix(q, k, n - 1);
    } else {
      AtMostAll(q, k, n - 1);
    }
  }

  lemma {:induction false} AtMostAll(q: seq<real>, k: nat, n: nat)
    requires Sorted(q, LeReal) && k < |q| && n <= k
    ensures AtMost(q[..n], q[k]) == n
  {
    if n > 0 {
      AtMostAll(q, k, n - 1);
      assert q[..n][..n - 1] == q[..n - 1];
    }
  }

  /** The position of the 95th percentile among `n` values. */
  function P95(n: nat): (k: nat)
    requires n >= 1
    ensures k < n
  {
    var k := (0.95 * (n - 1) as real + 0.5).Floor;
    if k < n - 1 then k else n - 1
  }

  function Bound(m: Model, p: Point): real { Mean(m, p) + m.r95 }

  /** How many points the model's bound covers. */
  function Covered(points: seq<Point>, m: Model): nat {
    if points == [] then 0 else
      var k := |points| - 1;
      Covered(points[..k], m) + if points[k].tpot <= Bound(m, points[k]) then 1 else 0
  }

  lemma {:induction false} CoveredMore(points: seq<Point>, m: Model, v: real)
    requires v <= m.r95
    ensures AtMost(Residuals(points, m), v) <= Covered(points, m)
  {
    if points != [] {
      var k := |points| - 1;
      CoveredMore(points[..k], m, v);
      assert Residuals(points, m)[..k] == Residuals(points[..k], m);
    }
  }

  lemma SameResiduals(points: seq<Point>, m: Model, r95: real)
    ensures Residuals(points, m.(r95 := r95)) == Residuals(points, m)
  {}

  function R95(points: seq<Point>, m: Model): real
    requires points != []
  {
    var r := Ordered(Residuals(points, m))[P95(|points|)];
    if r < 0.0 then 0.0 else r
  }

  /** The bound with r95 covers at least as many points as its percentile promises. */
  lemma R95Covers(points: seq<Point>, m: Model)
    requires points != [] && m.r95 == R95(points, m)
    ensures Covered(points, m) >= P95(|points|) + 1
  {
    var r := Residuals(points, m);
    var v := Ordered(r)[P95(|points|)];
    OrderedAscending(r);
    AtMostPrefix(Ordered(r), P95(|points|), |points|);
    assert Ordered(r)[..|points|] == Ordered(r);
    AtMostOrdered(r, v);
    CoveredMore(points, m, v);
  }

  // ---- the fit -------------------------------------------------------------------------------

  /** What `fit_decode_length` promises of the model it returns. */
  ghost predicate GoodModel(points: seq<Point>, m: Model) {
    && m.beta >= 0.0 && m.gamma >= 0.0 && m.r95 >= 0.0
    && points != [] && Covered(points, m) >= P95(|points|) + 1
    && exists k: nat, c: Row :: Settles(points, k, c) && m == AsModel(TRIED[k], c, m.r95)
  }

  method TryColumns(points: seq<Point>, cols: Columns) returns (c: Option<Row>)
    ensures c.Some? ==> Accepts(points, cols, c.value)
    ensures c.None? ==> Refuses(points, cols)
  {
    var solution := Solve(FitMatrix(points, cols), FitVector(points, cols));
    if solution.None? { return None; }
    assert IsSolution(FitMatrix(points, cols), FitVector(points, cols), solution.value);
    assert OnlyFit(points, cols, solution.value);
    var ok := true;
    for i := 1 to |solution.value|
      invariant ok <==> forall k :: 1 <= k < i ==> solution.value[k] >= 0.0
    {
      if solution.value[i] < 0.0 { ok := false; }
    }
    c := if ok then solution else None;
  }

  function Finished(points: seq<Point>, cols: Columns, c: Row): Model
    requires points != [] && |c| == Width(cols)
  {
    AsModel(cols, c, R95(points, AsModel(cols, c, 0.0)))
  }

  lemma FinishedGood(points: seq<Point>, k: nat, c: Row)
    requires points != [] && Settles(points, k, c)
    ensures GoodModel(points, Finished(points, TRIED[k], c))
    ensures Finished(points, TRIED[k], c).r95 == R95(points, Finished(points, TRIED[k], c))
  {
    var cols := TRIED[k];
    var m := Finished(points, cols, c);
    SameResiduals(points, AsModel(cols, c, 0.0), m.r95);
    assert AsModel(cols, c, 0.0).(r95 := m.r95) == m;
    R95Covers(points, m);
    assert c[1] >= 0.0 && (cols.Both? ==> c[2] >= 0.0);
  }

  method Finish(points: seq<Point>, k: nat, c: Row) returns (m: Option<Model>)
    requires points != [] && Settles(points, k, c)
    ensures m.Some? && GoodModel(points, m.value) && m.value.r95 == R95(points, m.value)
  {
    FinishedGood(points, k, c);
    m := Some(Finished(points, TRIED[k], c));
  }

  lemma RefusedMore(points: seq<Point>, k: nat)
    requires k < |TRIED| && AllRefused(points, k) && Refuses(points, TRIED[k])
    ensures AllRefused(points, k + 1)
  {}

  method FitDecodeLength(points: seq<Point>) returns (m: Option<Model>)
    ensures m.Some? ==> |points| >= 4 && GoodModel(points, m.value) && m.value.r95 == R95(points, m.value)
    ensures m.None? ==> |points| < 4 || AllRefused(points, |TRIED|)
  {
    if |points| < 4 { return None; }
    for k := 0 to |TRIED|
      invariant AllRefused(points, k)
    {
      var cols := TRIED[k];
      var c := TryColumns(points, cols);
      if c.Some? {
        m := Finish(points, k, c.value);
        return;
      }
      RefusedMore(points, k);
    }
    m := None;
  }
}
