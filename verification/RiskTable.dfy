/** The online risk table: violation rates by state, made safe for sparse states by monotonicity. */
module RiskTable {
  import opened Groups
  import opened Options
  import opened Reals
  import opened Tallies
  import opened Wilson

  /** Bucket indices of one state: the queue, the prompt, and whether D is busy. */
  datatype Cell = Cell(clock: ClockPoint, nAwait: nat, prompt: nat, busy: bool)

  datatype Source = Observed | HeavierBound | PooledBound | Unknown

  datatype Estimate = Estimate(risk: real, source: Source, samples: nat)

  const UNSAFE := 1.0

  datatype Table = Table(cells: map<Cell, Tally>, minSamples: nat, rows: nat, cols: nat)

  ghost predicate TableOk(t: Table) {
    t.minSamples >= 1 && forall c :: c in t.cells ==> TallyOk(t.cells[c])
  }

  function Stats(t: Table, c: Cell): Tally { if c in t.cells then t.cells[c] else Tally(0, 0) }

  function RateOf(s: Tally): real
    requires s.admitted > 0
  {
    s.violated as real / s.admitted as real
  }

  predicate Sampled(t: Table, c: Cell) { c in t.cells && t.cells[c].admitted >= t.minSamples }

  /** The cell's own rate, once it has enough samples. */
  function Own(t: Table, c: Cell): Option<real> {
    if Sampled(t, c) then Some(if t.cells[c].admitted > 0 then RateOf(t.cells[c]) else 0.0) else None
  }

  /** `a` is at most as heavy as `b`: no more waiting, no longer a prompt, no busier a D. */
  predicate Le(a: Cell, b: Cell) {
    a.clock == b.clock && a.nAwait <= b.nAwait && a.prompt <= b.prompt && (a.busy ==> b.busy)
  }

  predicate InShape(t: Table, c: Cell) { c.nAwait < t.rows && c.prompt < t.cols }

  // ---- what an estimate is made of -------------------------------------------------------------

  predicate Lighter(t: Table, c: Cell, x: Cell) { Le(c, x) && c != x && Sampled(t, c) }

  predicate Heavier(t: Table, c: Cell, x: Cell) { Le(x, c) && c != x && InShape(t, c) && Sampled(t, c) }

  /** The largest rate of a well-sampled lighter cell, 0 without one. */
  ghost predicate IsLower(t: Table, x: Cell, lower: real) {
    && lower >= 0.0
    && (forall c :: Lighter(t, c, x) ==> Own(t, c).value <= lower)
    && (lower == 0.0 || exists c :: Lighter(t, c, x) && Own(t, c).value == lower)
  }

  /** The smallest rate of a well-sampled heavier cell. */
  ghost predicate IsUpper(t: Table, x: Cell, upper: Option<real>) {
    && (upper.None? ==> forall c :: !Heavier(t, c, x))
    && (upper.Some? ==> forall c :: Heavier(t, c, x) ==> upper.value <= Own(t, c).value)
    && (upper.Some? ==> exists c :: Heavier(t, c, x) && Own(t, c).value == upper.value)
  }

  /** Same queue, prompt at least as long. */
  function RowOf(t: Table, x: Cell, d: bool): seq<Tally> {
    seq(if x.prompt < t.cols then t.cols - x.prompt else 0, (k: nat) => Stats(t, Cell(x.clock, x.nAwait, x.prompt + k, d)))
  }

  /** Same prompt bucket, queue at least as long. */
  function ColOf(t: Table, x: Cell, d: bool): seq<Tally> {
    seq(if x.nAwait < t.rows then t.rows - x.nAwait else 0, (k: nat) => Stats(t, Cell(x.clock, x.nAwait + k, x.prompt, d)))
  }

  function Region(t: Table, x: Cell, d: bool, row: bool): seq<Tally> { if row then RowOf(t, x, d) else ColOf(t, x, d) }

  function Pooled(t: Table, x: Cell, row: bool): Tally {
    if x.busy then Pool(Region(t, x, true, row)) else
      Joined(Pool(Region(t, x, false, row)), Pool(Region(t, x, true, row)))
  }

  /** A pooled rate replaces the bound when it is backed by enough samples and lower. */
  function WithPool(upper: Option<real>, source: Source, pool: Tally, minSamples: nat): (Option<real>, Source) {
    if pool.admitted >= minSamples && pool.admitted > 0 && (upper.None? || RateOf(pool) < upper.value)
    then (Some(RateOf(pool)), PooledBound) else (upper, source)
  }

  ghost predicate IsEstimate(t: Table, x: Cell, e: Estimate) {
    exists lower: real, upper: Option<real> ::
      IsLower(t, x, lower) && IsUpper(t, x, upper) && e == Combine(t, x, lower, upper)
  }

  /** Own rate, else the least risky heavier bound, never below what lighter cells show. */
  function Combine(t: Table, x: Cell, lower: real, upper: Option<real>): Estimate {
    if Sampled(t, x) then Estimate(Max(Own(t, x).value, lower), Observed, t.cells[x].admitted) else
      Sparse(lower, upper, Pooled(t, x, true), Pooled(t, x, false), t.minSamples)
  }

  // ---- the bound of a sparse cell, over the counts -----------------------------------------------

  predicate Enough(t: Table, pool: Tally) { pool.admitted >= t.minSamples && pool.admitted > 0 }

  /** Enough requests in the row or column, and fewer violations among them than in any well-sampled heavier cell. */
  ghost predicate PoolWins(t: Table, x: Cell, row: bool) {
    && Enough(t, Pooled(t, x, row))
    && forall c :: Heavier(t, c, x) ==> RateOf(Pooled(t, x, row)) < Own(t, c).value
  }

  /** The least of the rates of the well-sampled heavier cells and of the pools with enough requests; 1 without any. */
  ghost predicate IsBound(t: Table, x: Cell, b: real) {
    && (forall c :: Heavier(t, c, x) ==> b <= Own(t, c).value)
    && NotAbove(t, b, Pooled(t, x, true)) && NotAbove(t, b, Pooled(t, x, false))
    && ((exists c :: Heavier(t, c, x) && b == Own(t, c).value)
      || IsRate(t, b, Pooled(t, x, true)) || IsRate(t, b, Pooled(t, x, false))
      || (b == UNSAFE && (forall c :: !Heavier(t, c, x))
        && !Enough(t, Pooled(t, x, true)) && !Enough(t, Pooled(t, x, false))))
  }

  predicate NotAbove(t: Table, b: real, pool: Tally) { Enough(t, pool) ==> b <= RateOf(pool) }

  predicate IsRate(t: Table, b: real, pool: Tally) { Enough(t, pool) && b == RateOf(pool) }

  function BoundOf(upper: Option<real>, row: Tally, col: Tally, minSamples: nat): real {
    var a := WithPool(upper, HeavierBound, row, minSamples);
    var b := WithPool(a.0, a.1, col, minSamples);
    if b.0.None? then UNSAFE else b.0.value
  }

  lemma BoundIs(t: Table, x: Cell, upper: Option<real>)
    requires IsUpper(t, x, upper)
    ensures IsBound(t, x, BoundOf(upper, Pooled(t, x, true), Pooled(t, x, false), t.minSamples))
  {
    var b := BoundOf(upper, Pooled(t, x, true), Pooled(t, x, false), t.minSamples);
    LeastOfThree(t, upper, Pooled(t, x, true), Pooled(t, x, false));
    if upper.Some? {
      var c :| Heavier(t, c, x) && Own(t, c).value == upper.value;
      assert b <= Own(t, c).value;
    }
  }

  lemma LeastOfThree(t: Table, upper: Option<real>, row: Tally, col: Tally)
    ensures var b := BoundOf(upper, row, col, t.minSamples);
      && NotAbove(t, b, row) && NotAbove(t, b, col) && (upper.Some? ==> b <= upper.value)
      && (IsRate(t, b, row) || IsRate(t, b, col) || (upper.Some? && b == upper.value)
        || (upper.None? && b == UNSAFE && !Enough(t, row) && !Enough(t, col)))
  {}

  lemma OneBound(t: Table, x: Cell, a: real, b: real)
    requires IsBound(t, x, a) && IsBound(t, x, b)
    ensures a == b
  {}

  /** The source of a sparse estimate says "pooled" exactly when a pool beats every heavier cell. */
  lemma PooledExactly(t: Table, x: Cell, e: Estimate)
    requires IsEstimate(t, x, e) && !Sampled(t, x)
    ensures e.source == PooledBound <==> PoolWins(t, x, true) || PoolWins(t, x, false)
  {
    var lower: real, upper: Option<real> :| IsLower(t, x, lower) && IsUpper(t, x, upper) && e == Combine(t, x, lower, upper);
    PoolWinsMeans(t, x, upper, true);
    PoolWinsMeans(t, x, upper, false);
  }

  lemma PoolWinsMeans(t: Table, x: Cell, upper: Option<real>, row: bool)
    requires IsUpper(t, x, upper)
    ensures PoolWins(t, x, row) <==>
      Enough(t, Pooled(t, x, row)) && (upper.None? || RateOf(Pooled(t, x, row)) < upper.value)
  {
    if upper.Some? {
      var c :| Heavier(t, c, x) && Own(t, c).value == upper.value;
    }
  }

  /** A sparse estimate is its bound, but never below what lighter cells show. */
  lemma SparseEstimate(t: Table, x: Cell, e: Estimate) returns (lower: real, bound: real)
    requires TableOk(t) && IsEstimate(t, x, e) && !Sampled(t, x)
    ensures IsLower(t, x, lower) && IsBound(t, x, bound) && e.risk == Max(bound, lower)
  {
    var upper: Option<real>;
    lower, upper :| IsLower(t, x, lower) && IsUpper(t, x, upper) && e == Combine(t, x, lower, upper);
    LowerRange(t, x, lower);
    BoundIs(t, x, upper);
    bound := BoundOf(upper, Pooled(t, x, true), Pooled(t, x, false), t.minSamples);
  }

  /**
    Two sparse states are in order exactly when the bound of the lighter one is not above that of the
    heavier one, or some cell lighter than the heavier one is as bad.
  */
  lemma SparseExactly(t: Table, x: Cell, y: Cell, e: Estimate, f: Estimate, boundX: real, boundY: real, lowerY: real)
    requires TableOk(t) && Le(x, y) && !Sampled(t, x) && !Sampled(t, y)
    requires IsEstimate(t, x, e) && IsEstimate(t, y, f)
    requires IsBound(t, x, boundX) && IsBound(t, y, boundY) && IsLower(t, y, lowerY)
    ensures e.risk <= f.risk <==> boundX <= boundY || boundX <= lowerY
  {
    var lower, bound := SparseEstimate(t, x, e);
    var lower', bound' := SparseEstimate(t, y, f);
    OneBound(t, x, bound, boundX);
    OneBound(t, y, bound', boundY);
    LowerMonotone(t, x, y, lower, lowerY);
    LowerMonotone(t, y, y, lower', lowerY);
    LowerMonotone(t, y, y, lowerY, lower');
  }

  function Sparse(lower: real, upper: Option<real>, row: Tally, col: Tally, minSamples: nat): Estimate {
    var a := WithPool(upper, HeavierBound, row, minSamples);
    var b := WithPool(a.0, a.1, col, minSamples);
    if b.0.None? then Estimate(UNSAFE, Unknown, 0) else Estimate(Max(b.0.value, lower), b.1, 0)
  }

  // ---- properties ------------------------------------------------------------------------------

  lemma RateRange(s: Tally)
    requires s.admitted > 0 && TallyOk(s)
    ensures 0.0 <= RateOf(s) <= 1.0
  {
    RateInRange(s.violated, s.admitted);
    assert Rate(s.violated, s.admitted) == RateOf(s);
  }

  lemma OwnRange(t: Table, c: Cell)
    requires TableOk(t) && Sampled(t, c)
    ensures 0.0 <= Own(t, c).value <= 1.0
  {
    RateRange(t.cells[c]);
  }

  lemma RegionOk(t: Table, x: Cell, d: bool, row: bool)
    requires TableOk(t)
    ensures TallyOk(Pool(Region(t, x, d, row)))
  {
    var cells := Region(t, x, d, row);
    forall i | 0 <= i < |cells| ensures TallyOk(cells[i]) {
      var c := if row then Cell(x.clock, x.nAwait, x.prompt + i, d) else Cell(x.clock, x.nAwait + i, x.prompt, d);
      assert cells[i] == Stats(t, c);
    }
    PoolOk(cells);
  }

  lemma PooledOk(t: Table, x: Cell, row: bool)
    requires TableOk(t)
    ensures TallyOk(Pooled(t, x, row))
  {
    RegionOk(t, x, true, row);
    RegionOk(t, x, false, row);
  }

  lemma LowerRange(t: Table, x: Cell, lower: real)
    requires TableOk(t) && IsLower(t, x, lower)
    ensures 0.0 <= lower <= 1.0
  {
    if lower != 0.0 {
      var c :| Lighter(t, c, x) && Own(t, c).value == lower;
      OwnRange(t, c);
    }
  }

  lemma PoolKeepsRange(upper: Option<real>, source: Source, pool: Tally, minSamples: nat)
    requires TallyOk(pool) && (upper.Some? ==> 0.0 <= upper.value <= 1.0)
    ensures var r := WithPool(upper, source, pool, minSamples).0; r.Some? ==> 0.0 <= r.value <= 1.0
  {
    if pool.admitted > 0 { RateRange(pool); }
  }

  lemma SparseRange(lower: real, upper: Option<real>, row: Tally, col: Tally, minSamples: nat)
    requires TallyOk(row) && TallyOk(col) && 0.0 <= lower <= 1.0 && (upper.Some? ==> 0.0 <= upper.value <= 1.0)
    ensures 0.0 <= Sparse(lower, upper, row, col, minSamples).risk <= 1.0
  {
    var a := WithPool(upper, HeavierBound, row, minSamples);
    PoolKeepsRange(upper, HeavierBound, row, minSamples);
    PoolKeepsRange(a.0, a.1, col, minSamples);
  }

  /** Every estimate is a risk between 0 and 1. */
  lemma EstimateRange(t: Table, x: Cell, e: Estimate)
    requires TableOk(t) && IsEstimate(t, x, e)
    ensures 0.0 <= e.risk <= 1.0
  {
    var lower: real, upper: Option<real> :| IsLower(t, x, lower) && IsUpper(t, x, upper) && e == Combine(t, x, lower, upper);
    LowerRange(t, x, lower);
    if Sampled(t, x) {
      OwnRange(t, x);
    } else {
      if upper.Some? {
        var c :| Heavier(t, c, x) && Own(t, c).value == upper.value;
        OwnRange(t, c);
      }
      PooledOk(t, x, true);
      PooledOk(t, x, false);
      SparseRange(lower, upper, Pooled(t, x, true), Pooled(t, x, false), t.minSamples);
    }
  }

  /** What is lighter than a lighter cell is lighter, so lower bounds grow with the cell. */
  lemma LowerMonotone(t: Table, x: Cell, y: Cell, lowerX: real, lowerY: real)
    requires Le(x, y) && IsLower(t, x, lowerX) && IsLower(t, y, lowerY)
    ensures lowerX <= lowerY
    ensures x != y && Sampled(t, x) ==> Own(t, x).value <= lowerY
  {
    if lowerX != 0.0 {
      var c :| Lighter(t, c, x) && Own(t, c).value == lowerX;
      assert Lighter(t, c, y);
    }
    if x != y && Sampled(t, x) { assert Lighter(t, x, y); }
  }

  /** Pooling can only lower the bound; without it the bound is the one of single cells. */
  lemma PoolsOnlyLower(lower: real, upper: Option<real>, row: Tally, col: Tally, minSamples: nat)
    ensures var e := Sparse(lower, upper, row, col, minSamples);
      && (upper.Some? ==> e.risk <= Max(upper.value, lower))
      && (e.source != PooledBound ==> e.risk == if upper.Some? then Max(upper.value, lower) else 1.0)
  {}

  /** The bound of a sparse cell, when it has a well-sampled heavier cell. */
  lemma SparseBelowHeavier(t: Table, x: Cell, y: Cell, lower: real, upper: Option<real>, row: Tally, col: Tally)
    requires IsUpper(t, x, upper) && Heavier(t, y, x)
    ensures Sparse(lower, upper, row, col, t.minSamples).risk <= Max(Own(t, y).value, lower)
  {
    PoolsOnlyLower(lower, upper, row, col, t.minSamples);
  }

  /**
    A heavier state is never estimated less risky: more waiting, a longer prompt or a busy D can only
    raise the estimate. The one exception is two sparse cells of which the heavier has a pool that beats
    every cell heavier than it; `SparseExactly` says when these are in order.
  */
  lemma EstimateMonotone(t: Table, x: Cell, y: Cell, e: Estimate, f: Estimate)
    requires TableOk(t) && InShape(t, y) && Le(x, y) && IsEstimate(t, x, e) && IsEstimate(t, y, f)
    requires Sampled(t, x) || Sampled(t, y) || (!PoolWins(t, y, true) && !PoolWins(t, y, false))
    ensures e.risk <= f.risk
  {
    if !Sampled(t, y) { PooledExactly(t, y, f); }
    var lowerX: real, upperX: Option<real> :|
      IsLower(t, x, lowerX) && IsUpper(t, x, upperX) && e == Combine(t, x, lowerX, upperX);
    var lowerY: real, upperY: Option<real> :|
      IsLower(t, y, lowerY) && IsUpper(t, y, upperY) && f == Combine(t, y, lowerY, upperY);
    EstimateRange(t, x, e);
    if x == y {
      OneEstimate(t, x, e, f);
    } else {
      BoundsMonotone(t, x, y, lowerX, upperX, lowerY, upperY);
    }
  }

  lemma BoundsMonotone(
    t: Table, x: Cell, y: Cell, lowerX: real, upperX: Option<real>, lowerY: real, upperY: Option<real>)
    requires TableOk(t) && InShape(t, y) && Le(x, y) && x != y
    requires IsLower(t, x, lowerX) && IsUpper(t, x, upperX) && IsLower(t, y, lowerY) && IsUpper(t, y, upperY)
    requires Combine(t, x, lowerX, upperX).risk <= 1.0
    requires Sampled(t, x) || Sampled(t, y) || Combine(t, y, lowerY, upperY).source != PooledBound
    ensures Combine(t, x, lowerX, upperX).risk <= Combine(t, y, lowerY, upperY).risk
  {
    LowerMonotone(t, x, y, lowerX, lowerY);
    if Sampled(t, x) {
      LowerRange(t, y, lowerY);
    } else if Sampled(t, y) {
      SparseBelowHeavier(t, x, y, lowerX, upperX, Pooled(t, x, true), Pooled(t, x, false));
    } else {
      BothSparse(
        t, x, y, lowerX, upperX, Pooled(t, x, true), Pooled(t, x, false),
        lowerY, upperY, Pooled(t, y, true), Pooled(t, y, false));
    }
  }

  /** The estimate of a cell is determined by the table. */
  lemma OneEstimate(t: Table, x: Cell, e: Estimate, f: Estimate)
    requires IsEstimate(t, x, e) && IsEstimate(t, x, f)
    ensures e == f
  {
    var lowerE: real, upperE: Option<real> :|
      IsLower(t, x, lowerE) && IsUpper(t, x, upperE) && e == Combine(t, x, lowerE, upperE);
    var lowerF: real, upperF: Option<real> :|
      IsLower(t, x, lowerF) && IsUpper(t, x, upperF) && f == Combine(t, x, lowerF, upperF);
    SameUpper(t, x, upperE, upperF);
    LowerMonotone(t, x, x, lowerE, lowerF);
    LowerMonotone(t, x, x, lowerF, lowerE);
  }

  lemma BothSparse(
    t: Table, x: Cell, y: Cell, lowerX: real, upperX: Option<real>, rowX: Tally, colX: Tally,
    lowerY: real, upperY: Option<real>, rowY: Tally, colY: Tally)
    requires Le(x, y) && !Sampled(t, x) && lowerX <= lowerY && IsUpper(t, x, upperX) && IsUpper(t, y, upperY)
    requires Sparse(lowerX, upperX, rowX, colX, t.minSamples).risk <= 1.0
    requires Sparse(lowerY, upperY, rowY, colY, t.minSamples).source != PooledBound
    ensures Sparse(lowerX, upperX, rowX, colX, t.minSamples).risk <= Sparse(lowerY, upperY, rowY, colY, t.minSamples).risk
  {
    PoolsOnlyLower(lowerY, upperY, rowY, colY, t.minSamples);
    if upperY.Some? {
      var c :| Heavier(t, c, y) && Own(t, c).value == upperY.value;
      assert Heavier(t, c, x);
      SparseBelowHeavier(t, x, c, lowerX, upperX, rowX, colX);
    }
  }

  lemma SameUpper(t: Table, x: Cell, a: Option<real>, b: Option<real>)
    requires IsUpper(t, x, a) && IsUpper(t, x, b)
    ensures a == b
  {
    if a.Some? { var c :| Heavier(t, c, x) && Own(t, c).value == a.value; }
    if b.Some? { var c :| Heavier(t, c, x) && Own(t, c).value == b.value; }
  }

  // ---- buckets -----------------------------------------------------------------------------------

  ghost predicate Increasing(edges: seq<nat>) { forall i, j :: 0 <= i < j < |edges| ==> edges[i] < edges[j] }

  /** The first edge at or above the value; beyond the last one, the overflow bucket. */
  function Index(edges: seq<nat>, value: nat): (i: nat)
    ensures i <= |edges|
    ensures forall k :: 0 <= k < i ==> edges[k] < value
    ensures i < |edges| ==> value <= edges[i]
  {
    if edges == [] || value <= edges[0] then 0 else 1 + Index(edges[1..], value)
  }

  lemma IndexMonotone(edges: seq<nat>, a: nat, b: nat)
    requires Increasing(edges) && a <= b
    ensures Index(edges, a) <= Index(edges, b)
  {
    assert forall k :: 0 <= k < Index(edges, a) ==> edges[k] < a;
  }

  datatype Buckets = Buckets(nAwait: seq<nat>, promptTokens: seq<nat>)

  function CellFor(b: Buckets, clock: ClockPoint, nAwait: nat, tokens: nat, busy: bool): Cell {
    Cell(clock, Index(b.nAwait, nAwait), Index(b.promptTokens, tokens), busy)
  }

  /** In terms of requests: more waiting, a longer prompt or a busy D means a cell at least as heavy. */
  lemma HeavierRequest(b: Buckets, clock: ClockPoint, n: nat, tokens: nat, busy: bool, n': nat, tokens': nat, busy': bool)
    requires Increasing(b.nAwait) && Increasing(b.promptTokens) && n <= n' && tokens <= tokens' && (busy ==> busy')
    ensures Le(CellFor(b, clock, n, tokens, busy), CellFor(b, clock, n', tokens', busy'))
    ensures CellFor(b, clock, n', tokens', busy').nAwait < |b.nAwait| + 1
    ensures CellFor(b, clock, n', tokens', busy').prompt < |b.promptTokens| + 1
  {
    IndexMonotone(b.nAwait, n, n');
    IndexMonotone(b.promptTokens, tokens, tokens');
  }

  // ---- the loops ---------------------------------------------------------------------------------

  function DIndex(c: Cell): nat { if c.busy then 1 else 0 }

  /** Cells in the order in which they are looked at: by D, then queue, then prompt. */
  predicate Before(c: Cell, d: nat, i: nat, j: nat) {
    DIndex(c) < d || (DIndex(c) == d && (c.nAwait < i || (c.nAwait == i && c.prompt < j)))
  }

  ghost predicate LowerUpTo(t: Table, x: Cell, lower: real, d: nat, i: nat, j: nat) {
    && lower >= 0.0
    && (forall c :: Lighter(t, c, x) && Before(c, d, i, j) ==> Own(t, c).value <= lower)
    && (lower == 0.0 || exists c :: Lighter(t, c, x) && Own(t, c).value == lower)
  }

  ghost predicate UpperUpTo(t: Table, x: Cell, upper: Option<real>, d: nat, i: nat, j: nat) {
    && (upper.None? ==> forall c :: Heavier(t, c, x) ==> !Before(c, d, i, j))
    && (upper.Some? ==> forall c :: Heavier(t, c, x) && Before(c, d, i, j) ==> upper.value <= Own(t, c).value)
    && (upper.Some? ==> exists c :: Heavier(t, c, x) && Own(t, c).value == upper.value)
  }

  lemma LowerNext(t: Table, x: Cell, lower: real, lower': real, d: nat, i: nat, j: nat)
    requires LowerUpTo(t, x, lower, d, i, j) && d < 2
    requires var c := Cell(x.clock, i, j, d == 1);
      lower' == if Lighter(t, c, x) then Max(lower, Own(t, c).value) else lower
    ensures LowerUpTo(t, x, lower', d, i, j + 1)
  {
    var c := Cell(x.clock, i, j, d == 1);
    forall o | Lighter(t, o, x) && Before(o, d, i, j + 1) ensures Own(t, o).value <= lower' {
      if !Before(o, d, i, j) { assert o == c; }
    }
  }

  lemma UpperNext(t: Table, x: Cell, upper: Option<real>, upper': Option<real>, d: nat, i: nat, j: nat)
    requires UpperUpTo(t, x, upper, d, i, j) && d < 2
    requires var c := Cell(x.clock, i, j, d == 1);
      upper' ==
        if Heavier(t, c, x) && (upper.None? || Own(t, c).value < upper.value) then Some(Own(t, c).value) else upper
    ensures UpperUpTo(t, x, upper', d, i, j + 1)
  {
    var c := Cell(x.clock, i, j, d == 1);
    forall o | Heavier(t, o, x) && Before(o, d, i, j + 1) ensures upper'.Some? && upper'.value <= Own(t, o).value {
      if !Before(o, d, i, j) { assert o == c; }
    }
  }

  lemma LowerWrap(t: Table, x: Cell, lower: real, d: nat, i: nat)
    ensures LowerUpTo(t, x, lower, d, i, x.prompt + 1) ==> LowerUpTo(t, x, lower, d, i + 1, 0)
    ensures LowerUpTo(t, x, lower, d, x.nAwait + 1, 0) ==> LowerUpTo(t, x, lower, d + 1, 0, 0)
  {}

  lemma UpperWrap(t: Table, x: Cell, upper: Option<real>, d: nat, i: nat)
    ensures UpperUpTo(t, x, upper, d, i, t.cols) ==> UpperUpTo(t, x, upper, d, i + 1, x.prompt)
    ensures UpperUpTo(t, x, upper, d, t.rows, x.prompt) ==> UpperUpTo(t, x, upper, d + 1, x.nAwait, x.prompt)
  {}

  method LowerBound(t: Table, x: Cell) returns (lower: real)
    ensures IsLower(t, x, lower)
  {
    lower := 0.0;
    for d := 0 to if x.busy then 2 else 1
      invariant LowerUpTo(t, x, lower, d, 0, 0)
    {
      for i := 0 to x.nAwait + 1
        invariant LowerUpTo(t, x, lower, d, i, 0)
      {
        for j := 0 to x.prompt + 1
          invariant LowerUpTo(t, x, lower, d, i, j)
        {
          var c := Cell(x.clock, i, j, d == 1);
          ghost var before := lower;
          if c != x {
            var other := Own(t, c);
            if other.Some? { lower := Max(lower, other.value); }
          }
          LowerNext(t, x, before, lower, d, i, j);
        }
        LowerWrap(t, x, lower, d, i);
      }
      LowerWrap(t, x, lower, d, 0);
    }
  }

  method UpperBound(t: Table, x: Cell) returns (upper: Option<real>)
    requires InShape(t, x)
    ensures IsUpper(t, x, upper)
  {
    upper := None;
    for d := (if x.busy then 1 else 0) to 2
      invariant UpperUpTo(t, x, upper, d, x.nAwait, x.prompt)
    {
      for i := x.nAwait to t.rows
        invariant UpperUpTo(t, x, upper, d, i, x.prompt)
      {
        for j := x.prompt to t.cols
          invariant UpperUpTo(t, x, upper, d, i, j)
        {
          var c := Cell(x.clock, i, j, d == 1);
          ghost var before := upper;
          if c != x {
            var other := Own(t, c);
            if other.Some? && (upper.None? || other.value < upper.value) { upper := other; }
          }
          UpperNext(t, x, before, upper, d, i, j);
        }
        UpperWrap(t, x, upper, d, i);
      }
      UpperWrap(t, x, upper, d, x.nAwait);
    }
  }

  method PoolRegion(t: Table, x: Cell, row: bool) returns (sum: Tally)
    ensures sum == Pooled(t, x, row)
  {
    sum := Tally(0, 0);
    for d := (if x.busy then 1 else 0) to 2
      invariant sum == if d == 2 then Pooled(t, x, row) else if d == 1 && !x.busy then Pool(Region(t, x, false, row)) else Tally(0, 0)
    {
      var region := Region(t, x, d == 1, row);
      ghost var before := sum;
      assert region[..0] == [];
      for k := 0 to |region|
        invariant sum == Joined(before, Pool(region[..k]))
      {
        assert region[..k + 1] == region[..k] + [region[k]];
        PoolAppend(region[..k], region[k]);
        sum := Joined(sum, region[k]);
      }
      assert region[..|region|] == region;
    }
  }

  class RiskTable {
    const buckets: Buckets
    const minSamples: nat
    var cells: map<Cell, Tally>
    var visits: map<Cell, nat>

    function View(): Table
      reads this
    {
      Table(cells, minSamples, |buckets.nAwait| + 1, |buckets.promptTokens| + 1)
    }

    ghost predicate Valid()
      reads this
    {
      TableOk(View()) && Increasing(buckets.nAwait) && Increasing(buckets.promptTokens)
    }

    constructor (buckets: Buckets, minSamples: nat)
      requires Increasing(buckets.nAwait) && Increasing(buckets.promptTokens) && minSamples >= 1
      ensures Valid() && this.buckets == buckets && this.minSamples == minSamples && cells == map[] && visits == map[]
    {
      this.buckets, this.minSamples, cells, visits := buckets, minSamples, map[], map[];
    }

    method Record(c: Cell, violated: bool)
      requires Valid()
      modifies this`cells
      ensures Valid() && cells == old(cells)[c := Counted(Stats(old(View()), c), violated)]
    {
      cells := cells[c := Counted(if c in cells then cells[c] else Tally(0, 0), violated)];
    }

    method EstimateCell(x: Cell) returns (e: Estimate)
      requires Valid() && InShape(View(), x)
      ensures IsEstimate(View(), x, e)
    {
      var t := View();
      var lower := LowerBound(t, x);
      var own := Own(t, x);
      if own.Some? {
        ghost var high := UpperBound(t, x);
        assert Combine(t, x, lower, high) == Estimate(Max(own.value, lower), Observed, t.cells[x].admitted);
        return Estimate(Max(own.value, lower), Observed, t.cells[x].admitted);
      }
      var single := UpperBound(t, x);
      var upper, source := single, HeavierBound;
      for k := 0 to 2
        invariant k == 0 ==> upper == single && source == HeavierBound
        invariant k == 1 ==> (upper, source) == WithPool(single, HeavierBound, Pooled(t, x, true), t.minSamples)
        invariant k == 2 ==> var a := WithPool(single, HeavierBound, Pooled(t, x, true), t.minSamples);
          (upper, source) == WithPool(a.0, a.1, Pooled(t, x, false), t.minSamples)
      {
        var pool := PoolRegion(t, x, k == 0);
        if pool.admitted >= minSamples {
          var pooled := RateOf(pool);
          if upper.None? || pooled < upper.value { upper, source := Some(pooled), PooledBound; }
        }
      }
      e := if upper.None? then Estimate(UNSAFE, Unknown, 0) else Estimate(Max(upper.value, lower), source, 0);
      assert e == Combine(t, x, lower, single);
    }

    method Lookup(clock: ClockPoint, nAwait: nat, tokens: nat, busy: bool) returns (e: Estimate)
      requires Valid()
      modifies this`visits
      ensures Valid() && IsEstimate(View(), CellFor(buckets, clock, nAwait, tokens, busy), e)
      ensures var c := CellFor(buckets, clock, nAwait, tokens, busy);
        visits == old(visits)[c := (if c in old(visits) then old(visits)[c] else 0) + 1]
    {
      var c := CellFor(buckets, clock, nAwait, tokens, busy);
      visits := visits[c := (if c in visits then visits[c] else 0) + 1];
      e := EstimateCell(c);
    }
  }

  // ---- two sparse states out of order ------------------------------------------------------------

  lemma PoolOfTwo(cells: seq<Tally>, a: Tally, b: Tally)
    requires cells == [a, b]
    ensures Pool(cells) == Joined(a, b)
  {
    assert cells[..1] == [a] && [a][..0] == [];
    assert Pool([a]) == Joined(Tally(0, 0), a);
  }

  /** A row of two prompt buckets, both values of D. */
  lemma RowOfTwo(t: Table, clock: ClockPoint, i: nat, d: bool)
    requires t.cols == 2
    ensures Pool(RowOf(t, Cell(clock, i, 0, false), d)) == Joined(Stats(t, Cell(clock, i, 0, d)), Stats(t, Cell(clock, i, 1, d)))
  {
    var cells := RowOf(t, Cell(clock, i, 0, false), d);
    assert cells[0] == Stats(t, Cell(clock, i, 0 + 0, d)) && cells[1] == Stats(t, Cell(clock, i, 0 + 1, d));
    PoolOfTwo(cells, cells[0], cells[1]);
  }

  lemma ColOfTwo(t: Table, clock: ClockPoint, j: nat, d: bool)
    requires t.rows == 2
    ensures Pool(ColOf(t, Cell(clock, 0, j, false), d)) == Joined(Stats(t, Cell(clock, 0, j, d)), Stats(t, Cell(clock, 1, j, d)))
  {
    var cells := ColOf(t, Cell(clock, 0, j, false), d);
    assert cells[0] == Stats(t, Cell(clock, 0 + 0, j, d)) && cells[1] == Stats(t, Cell(clock, 0 + 1, j, d));
    PoolOfTwo(cells, cells[0], cells[1]);
  }

  /** No cell well sampled and no pool large enough: nothing is known. */
  lemma NothingKnown(t: Table, x: Cell, e: Estimate)
    requires TableOk(t) && IsEstimate(t, x, e) && forall c :: !Sampled(t, c)
    requires !Enough(t, Pooled(t, x, true)) && !Enough(t, Pooled(t, x, false))
    ensures e.risk == UNSAFE
  {
    var lower, bound := SparseEstimate(t, x, e);
    LowerRange(t, x, lower);
  }

  /** No cell well sampled, but a pool without a violation: no risk is seen. */
  lemma NothingSeen(t: Table, x: Cell, e: Estimate)
    requires TableOk(t) && IsEstimate(t, x, e) && forall c :: !Sampled(t, c)
    requires Enough(t, Pooled(t, x, true)) && Pooled(t, x, true).violated == 0
    ensures e.risk == 0.0
  {
    EstimateRange(t, x, e);
    var lower, bound := SparseEstimate(t, x, e);
    NoLower(t, x, lower);
    AtMostZero(t, x, bound, Pooled(t, x, true));
  }

  lemma NoLower(t: Table, x: Cell, lower: real)
    requires IsLower(t, x, lower) && forall c :: !Sampled(t, c)
    ensures lower == 0.0
  {}

  lemma AtMostZero(t: Table, x: Cell, bound: real, pool: Tally)
    requires IsBound(t, x, bound) && pool == Pooled(t, x, true) && Enough(t, pool) && pool.violated == 0
    ensures bound <= 0.0
  {
    assert NotAbove(t, bound, pool);
    ZeroRate(pool);
  }

  lemma ZeroRate(s: Tally)
    requires s.admitted > 0 && s.violated == 0
    ensures RateOf(s) == 0.0
  {}

  /**
    One request without a violation in each of two states with a longer queue, two needed for a rate:
    the state with the longer queue takes the pooled bound 0, the one with the shorter queue stays unknown.
  */
  method PooledBreaksOrder(clock: ClockPoint) returns (table: RiskTable, x: Cell, y: Cell, e: Estimate, f: Estimate)
    ensures table.Valid() && Le(x, y) && InShape(table.View(), x) && InShape(table.View(), y)
    ensures IsEstimate(table.View(), x, e) && IsEstimate(table.View(), y, f) && f.risk < e.risk
  {
    x, y := Cell(clock, 0, 0, false), Cell(clock, 1, 0, false);
    table := TwoRecorded(clock);
    e := table.EstimateCell(x);
    f := table.EstimateCell(y);
    ShorterUnknown(table.View(), x, e);
    LongerPooled(table.View(), y, f);
  }

  method TwoRecorded(clock: ClockPoint) returns (table: RiskTable)
    ensures fresh(table) && table.Valid() && IsTwoCounted(table.View(), clock)
  {
    table := new RiskTable(Buckets([0], [1000]), 2);
    table.Record(Cell(clock, 1, 0, false), false);
    table.Record(Cell(clock, 1, 1, false), false);
  }

  lemma NoneSampled(t: Table, clock: ClockPoint)
    requires IsTwoCounted(t, clock)
    ensures forall c :: !Sampled(t, c)
  {}

  lemma ShorterUnknown(t: Table, x: Cell, e: Estimate)
    requires TableOk(t) && IsEstimate(t, x, e)
    requires IsTwoCounted(t, x.clock) && x.nAwait == 0 && x.prompt == 0 && !x.busy
    ensures e.risk == UNSAFE
  {
    NoneSampled(t, x.clock);
    RowCounted(t, x, Tally(0, 0));
    ColCounted(t, x, Tally(0, 0), Tally(1, 0));
    NothingKnown(t, x, e);
  }

  lemma LongerPooled(t: Table, y: Cell, f: Estimate)
    requires TableOk(t) && IsEstimate(t, y, f)
    requires IsTwoCounted(t, y.clock) && y.nAwait == 1 && y.prompt == 0 && !y.busy
    ensures f.risk == 0.0
  {
    NoneSampled(t, y.clock);
    RowCounted(t, y, Tally(1, 0));
    NothingSeen(t, y, f);
  }

  predicate IsTwoCounted(t: Table, clock: ClockPoint) {
    t == Table(map[Cell(clock, 1, 0, false) := Tally(1, 0), Cell(clock, 1, 1, false) := Tally(1, 0)], 2, 2, 2)
  }

  lemma TwoStats(t: Table, clock: ClockPoint, i: nat, j: nat, d: bool)
    requires IsTwoCounted(t, clock) && i < 2 && j < 2
    ensures Stats(t, Cell(clock, i, j, d)) == Tally(if d then 0 else i, 0)
  {}

  lemma RowCounted(t: Table, x: Cell, one: Tally)
    requires IsTwoCounted(t, x.clock) && x.nAwait < 2 && x.prompt == 0 && !x.busy && one == Tally(x.nAwait, 0)
    ensures Pooled(t, x, true).admitted == 2 * one.admitted && Pooled(t, x, true).violated == 0
  {
    TwoStats(t, x.clock, x.nAwait, 0, false);
    TwoStats(t, x.clock, x.nAwait, 1, false);
    TwoStats(t, x.clock, x.nAwait, 0, true);
    TwoStats(t, x.clock, x.nAwait, 1, true);
    RowPooled(t, x.clock, x.nAwait, one, one, Tally(0, 0), Tally(0, 0));
  }

  lemma RowPooled(t: Table, clock: ClockPoint, i: nat, a: Tally, b: Tally, a': Tally, b': Tally)
    requires t.cols == 2
    requires a == Stats(t, Cell(clock, i, 0, false)) && b == Stats(t, Cell(clock, i, 1, false))
    requires a' == Stats(t, Cell(clock, i, 0, true)) && b' == Stats(t, Cell(clock, i, 1, true))
    ensures Pooled(t, Cell(clock, i, 0, false), true) == Joined(Joined(a, b), Joined(a', b'))
  {
    RowOfTwo(t, clock, i, false);
    RowOfTwo(t, clock, i, true);
  }

  lemma ColCounted(t: Table, x: Cell, none: Tally, one: Tally)
    requires IsTwoCounted(t, x.clock) && x.nAwait == 0 && x.prompt == 0 && !x.busy
    requires none == Tally(0, 0) && one == Tally(1, 0)
    ensures Pooled(t, x, false).admitted == 1
  {
    TwoStats(t, x.clock, 0, 0, false);
    TwoStats(t, x.clock, 1, 0, false);
    TwoStats(t, x.clock, 0, 0, true);
    TwoStats(t, x.clock, 1, 0, true);
    ColPooled(t, x.clock, none, one, none, none);
  }

  lemma ColPooled(t: Table, clock: ClockPoint, a: Tally, b: Tally, a': Tally, b': Tally)
    requires t.rows == 2
    requires a == Stats(t, Cell(clock, 0, 0, false)) && b == Stats(t, Cell(clock, 1, 0, false))
    requires a' == Stats(t, Cell(clock, 0, 0, true)) && b' == Stats(t, Cell(clock, 1, 0, true))
    ensures Pooled(t, Cell(clock, 0, 0, false), false) == Joined(Joined(a, b), Joined(a', b'))
  {
    ColOfTwo(t, clock, 0, false);
    ColOfTwo(t, clock, 0, true);
  }
}
