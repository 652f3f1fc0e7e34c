/** Measured prefill times per P clock: how contradictions are repaired, and the cost read from them. */
module PrefillTables {
  import opened Options
  import opened Reals
  import opened Sorting

  /** Prompt tokens to ms. */
  type Lengths = map<int, real>

  /** P clock to its table. */
  type Tables = map<int, Lengths>

  // ---- contradictions --------------------------------------------------------------------------

  /** At some length the higher clock is slower than the lower one, beyond eps. */
  ghost predicate Contradict(t: Tables, lo: int, hi: int, eps: real)
    requires lo in t && hi in t
  {
    exists n :: n in t[hi] && n in t[lo] && t[hi][n] > (1.0 + eps) * t[lo][n]
  }

  /** A clock involved in a contradiction with a lower or a higher one. */
  ghost predicate Involved(t: Tables, f: int, eps: real) {
    f in t && exists g :: g in t && ((f < g && Contradict(t, f, g, eps)) || (g < f && Contradict(t, g, f, eps)))
  }

  method Slower(lo: Lengths, hi: Lengths, eps: real) returns (yes: bool)
    ensures yes <==> exists n :: n in hi && n in lo && hi[n] > (1.0 + eps) * lo[n]
  {
    var keys := SortedKeys(hi.Keys);
    yes := false;
    for k := 0 to |keys|
      invariant yes <==> exists j :: 0 <= j < k && keys[j] in lo && keys[j] in hi && hi[keys[j]] > (1.0 + eps) * lo[keys[j]]
    {
      var n := keys[k];
      assert n in keys;
      if n in lo && hi[n] > (1.0 + eps) * lo[n] { yes := true; }
    }
    forall n | n in hi ensures exists j :: 0 <= j < |keys| && keys[j] == n { assert n in keys; }
  }

  /** Pairs of positions, each lower clock with every higher one, in the order of the loops. */
  ghost predicate Compared(clocks: seq<int>, i: nat, j: nat, a: nat, b: nat) {
    a < b < |clocks| && (a < i || (a == i && b < j))
  }

  ghost predicate Found(t: Tables, clocks: seq<int>, out: set<int>, eps: real, i: nat, j: nat) {
    && (forall k :: 0 <= k < |clocks| ==> clocks[k] in t)
    && (forall f :: f in out ==> Involved(t, f, eps))
    && (forall a: nat, b: nat :: Compared(clocks, i, j, a, b) && Contradict(t, clocks[a], clocks[b], eps) ==>
      clocks[a] in out && clocks[b] in out)
  }

  /** The clocks whose tables contradict each other. */
  method Conflicts(t: Tables, eps: real) returns (out: set<int>)
    ensures forall f :: f in out <==> Involved(t, f, eps)
  {
    out := {};
    var clocks := SortedKeys(t.Keys);
    assert forall k :: 0 <= k < |clocks| ==> clocks[k] in clocks;
    for i := 0 to |clocks|
      invariant Found(t, clocks, out, eps, i, i + 1)
    {
      out := WithHigher(t, clocks, i, out, eps);
    }
  }

  /** One clock against every higher one. */
  method WithHigher(t: Tables, clocks: seq<int>, i: nat, out0: set<int>, eps: real) returns (out: set<int>)
    requires i < |clocks| && Ascending(clocks) && Found(t, clocks, out0, eps, i, i + 1)
    ensures Found(t, clocks, out, eps, i + 1, i + 2)
  {
    out := out0;
    for j := i + 1 to |clocks|
      invariant Found(t, clocks, out, eps, i, j)
    {
      var slower := Slower(t[clocks[i]], t[clocks[j]], eps);
      ghost var before := out;
      if slower { out := out + {clocks[i], clocks[j]}; }
    }
  }

  // ---- the envelope ----------------------------------------------------------------------------

  /** `v` is the least of the times measured for `n` at the clock `f` and below. */
  ghost predicate IsLeast(t: Tables, f: int, n: int, v: real) {
    && (forall g :: g in t && g <= f && n in t[g] ==> v <= t[g][n])
    && (exists g :: g in t && g <= f && n in t[g] && t[g][n] == v)
  }

  /** Every table is the envelope of the tables at its clock and below. */
  ghost predicate IsEnvelope(t: Tables, e: Tables) {
    && e.Keys == t.Keys
    && forall f :: f in t ==> e[f].Keys == t[f].Keys && forall n :: n in t[f] ==> IsLeast(t, f, n, e[f][n])
  }

  /** The least over the clock's own time and the first `k` clocks. */
  ghost predicate LeastSoFar(t: Tables, clocks: seq<int>, k: nat, f: int, n: int, v: real) {
    && k <= |clocks| && f in t && n in t[f] && v <= t[f][n]
    && (forall j :: 0 <= j < k && clocks[j] in t && n in t[clocks[j]] ==> v <= t[clocks[j]][n])
    && (v == t[f][n] || exists j :: 0 <= j < k && clocks[j] in t && n in t[clocks[j]] && v == t[clocks[j]][n])
  }

  ghost predicate RowSoFar(t: Tables, clocks: seq<int>, k: nat, f: int, row: Lengths) {
    f in t && row.Keys == t[f].Keys && forall n :: n in row ==> LeastSoFar(t, clocks, k, f, n, row[n])
  }

  function Least(row: Lengths, lower: Lengths, n: int): real
    requires n in row
  {
    if n in lower && lower[n] < row[n] then lower[n] else row[n]
  }

  /** One lower clock joins: the row takes over whatever is smaller there. */
  method Lower(row0: Lengths, lower: Lengths) returns (row: Lengths)
    ensures row.Keys == row0.Keys
    ensures forall n :: n in row0 ==> row[n] == Least(row0, lower, n)
  {
    row := row0;
    var keys := SortedKeys(row0.Keys);
    assert forall j :: 0 <= j < |keys| ==> keys[j] in keys;
    for k := 0 to |keys|
      invariant row.Keys == row0.Keys
      invariant forall j :: 0 <= j < |keys| ==> keys[j] in row0
      invariant forall j :: 0 <= j < k ==> row[keys[j]] == Least(row0, lower, keys[j])
      invariant forall j :: k <= j < |keys| ==> row[keys[j]] == row0[keys[j]]
    {
      var n := keys[k];
      if n in lower && lower[n] < row[n] { row := row[n := lower[n]]; }
    }
    forall n | n in row0 ensures exists j :: 0 <= j < |keys| && keys[j] == n { assert n in keys; }
  }

  lemma RowStart(t: Tables, clocks: seq<int>, f: int)
    requires f in t
    ensures RowSoFar(t, clocks, 0, f, t[f])
  {}

  /** A lower table that is already an envelope brings in everything below it. */
  lemma RowNext(t: Tables, clocks: seq<int>, k: nat, f: int, row: Lengths, lower: Lengths, row': Lengths)
    requires k < |clocks| && Lists(clocks, t.Keys) && RowSoFar(t, clocks, k, f, row)
    requires RowSoFar(t, clocks, k, clocks[k], lower) && row'.Keys == row.Keys
    requires forall n :: n in row ==> row'[n] == Least(row, lower, n)
    ensures RowSoFar(t, clocks, k + 1, f, row')
  {
    forall n | n in row' ensures LeastSoFar(t, clocks, k + 1, f, n, row'[n]) {
      assert LeastSoFar(t, clocks, k, f, n, row[n]);
      if n in lower { assert LeastSoFar(t, clocks, k, clocks[k], n, lower[n]); }
    }
  }

  lemma RowDone(t: Tables, clocks: seq<int>, i: nat, row: Lengths)
    requires i < |clocks| && Lists(clocks, t.Keys) && RowSoFar(t, clocks, i, clocks[i], row)
    ensures forall n :: n in row ==> IsLeast(t, clocks[i], n, row[n])
  {
    forall n | n in row ensures IsLeast(t, clocks[i], n, row[n]) {
      assert LeastSoFar(t, clocks, i, clocks[i], n, row[n]);
      assert clocks[i] in clocks;
      forall g | g in t && g <= clocks[i] && n in t[g] ensures row[n] <= t[g][n] {
        assert g in clocks;
        var j :| 0 <= j < |clocks| && clocks[j] == g;
        assert j <= i;
      }
      if row[n] != t[clocks[i]][n] {
        var j :| 0 <= j < i && clocks[j] in t && n in t[clocks[j]] && row[n] == t[clocks[j]][n];
        assert clocks[j] <= clocks[i];
      }
    }
  }

  /** One clock takes over what the clocks below it, already repaired, have less. */
  method RepairOne(t0: Tables, clocks: seq<int>, i: nat, tables: Tables) returns (t: Tables)
    requires i < |clocks| && Lists(clocks, t0.Keys) && tables.Keys == t0.Keys
    requires forall k :: 0 <= k < |clocks| ==> clocks[k] in t0
    requires forall k :: 0 <= k < i ==> RowSoFar(t0, clocks, k, clocks[k], tables[clocks[k]])
    requires tables[clocks[i]] == t0[clocks[i]]
    ensures t.Keys == t0.Keys && RowSoFar(t0, clocks, i, clocks[i], t[clocks[i]])
    ensures forall k :: 0 <= k < |clocks| && k != i ==> t[clocks[k]] == tables[clocks[k]]
  {
    t := tables;
    var f := clocks[i];
    RowStart(t0, clocks, f);
    for k := 0 to i
      invariant t.Keys == t0.Keys && RowSoFar(t0, clocks, k, f, t[f])
      invariant forall j :: 0 <= j < |clocks| && j != i ==> clocks[j] != f && t[clocks[j]] == tables[clocks[j]]
    {
      var row := Lower(t[f], t[clocks[k]]);
      RowNext(t0, clocks, k, f, t[f], t[clocks[k]], row);
      t := t[f := row];
    }
  }

  /** The repair in place: every clock takes the least of itself and the clocks below it. */
  method Envelope(t0: Tables) returns (t: Tables)
    ensures IsEnvelope(t0, t)
  {
    t := t0;
    var clocks := SortedKeys(t0.Keys);
    assert forall k :: 0 <= k < |clocks| ==> clocks[k] in clocks;
    for i := 0 to |clocks|
      invariant t.Keys == t0.Keys
      invariant forall k :: 0 <= k < i ==> RowSoFar(t0, clocks, k, clocks[k], t[clocks[k]])
      invariant forall k :: i <= k < |clocks| ==> t[clocks[k]] == t0[clocks[k]]
    {
      t := RepairOne(t0, clocks, i, t);
    }
    EnvelopeDone(t0, t, clocks);
  }

  lemma EnvelopeDone(t0: Tables, t: Tables, clocks: seq<int>)
    requires Lists(clocks, t0.Keys) && t.Keys == t0.Keys
    requires forall k :: 0 <= k < |clocks| ==> clocks[k] in t && RowSoFar(t0, clocks, k, clocks[k], t[clocks[k]])
    ensures IsEnvelope(t0, t)
  {
    forall f | f in t0 ensures t[f].Keys == t0[f].Keys && forall n :: n in t0[f] ==> IsLeast(t0, f, n, t[f][n]) {
      assert f in clocks;
      var i: nat :| i < |clocks| && clocks[i] == f;
      RowDone(t0, clocks, i, t[f]);
    }
  }

  /** No higher clock is slower at a shared length. */
  ghost predicate Consistent(t: Tables) {
    forall lo, hi, n :: lo in t && hi in t && lo <= hi && n in t[lo] && n in t[hi] ==> t[hi][n] <= t[lo][n]
  }

  lemma EnvelopeConsistent(t: Tables, e: Tables)
    requires IsEnvelope(t, e)
    ensures Consistent(e)
  {
    forall lo, hi, n | lo in e && hi in e && lo <= hi && n in e[lo] && n in e[hi] ensures e[hi][n] <= e[lo][n] {
      LeastFalls(t, lo, hi, n, e[lo][n], e[hi][n]);
    }
  }

  lemma LeastFalls(t: Tables, lo: int, hi: int, n: int, v: real, w: real)
    requires lo <= hi && IsLeast(t, lo, n, v) && IsLeast(t, hi, n, w)
    ensures w <= v
  {}

  ghost predicate Positives(t: Tables) { forall f, n :: f in t && n in t[f] ==> t[f][n] >= 0.0 }

  lemma EnvelopePositive(t: Tables, e: Tables)
    requires IsEnvelope(t, e) && Positives(t)
    ensures Positives(e)
  {
    forall f, n | f in e && n in e[f] ensures e[f][n] >= 0.0 {
      var g :| g in t && g <= f && n in t[g] && t[g][n] == e[f][n] by { assert IsLeast(t, f, n, e[f][n]); }
    }
  }

  lemma NoContradiction(e: Tables, eps: real, lo: int, hi: int)
    requires Consistent(e) && Positives(e) && eps >= 0.0 && lo in e && hi in e && lo < hi
    ensures !Contradict(e, lo, hi, eps)
  {
    forall n | n in e[hi] && n in e[lo] ensures e[hi][n] <= (1.0 + eps) * e[lo][n] {
      More(eps, e[lo][n], e[hi][n]);
    }
  }

  /** After the repair nothing contradicts any more. */
  lemma EnvelopeResolves(t: Tables, e: Tables, eps: real)
    requires IsEnvelope(t, e) && Positives(t) && eps >= 0.0
    ensures forall f :: !Involved(e, f, eps)
  {
    EnvelopeConsistent(t, e);
    EnvelopePositive(t, e);
    forall lo, hi | lo in e && hi in e && lo < hi ensures !Contradict(e, lo, hi, eps) {
      NoContradiction(e, eps, lo, hi);
    }
  }

  lemma More(eps: real, v: real, u: real)
    requires eps >= 0.0 && v >= 0.0 && u <= v
    ensures u <= (1.0 + eps) * v
  {
    NotNegative(eps, v);
  }

  // ---- the cost of one prefill -------------------------------------------------------------------

  datatype Point = Point(length: int, ms: real)

  /** The table as points, shortest prompt first. */
  ghost predicate IsPoints(pts: seq<Point>, t: Lengths) {
    Lists(Xs(pts), t.Keys) && forall i :: 0 <= i < |pts| ==> pts[i].length in t && pts[i].ms == t[pts[i].length]
  }

  function Xs(pts: seq<Point>): seq<int> { seq(|pts|, i requires 0 <= i < |pts| => pts[i].length) }

  /** On the straight line through two points. */
  function Line(a: Point, b: Point, length: int): real
    requires a.length < b.length
  {
    a.ms + (b.ms - a.ms) * (length - a.length) as real / (b.length - a.length) as real
  }

  /** The straight line prolonged from its second point. */
  function Beyond(a: Point, b: Point, length: int): real
    requires a.length < b.length
  {
    b.ms + (b.ms - a.ms) * (length - b.length) as real / (b.length - a.length) as real
  }

  /** S(L): flat up to the first point, then piecewise linear, the last segment prolonged. */
  function Cost(pts: seq<Point>, length: int): real
    requires Ascending(Xs(pts))
  {
    if |pts| < 2 then 0.0
    else if length <= pts[0].length then pts[0].ms
    else Along(pts, length, 0)
  }

  /** The first segment from `i` on that reaches the length; beyond the last point, the last one. */
  function Along(pts: seq<Point>, length: int, i: nat): real
    requires Ascending(Xs(pts)) && i + 1 < |pts|
    decreases |pts| - i
  {
    assert Xs(pts)[i] < Xs(pts)[i + 1];
    if length <= pts[i + 1].length then Line(pts[i], pts[i + 1], length)
    else if i + 2 < |pts| then Along(pts, length, i + 1)
    else Beyond(pts[i], pts[i + 1], length)
  }

  /** One table is nowhere above the other, on the same lengths. */
  ghost predicate Under(a: seq<Point>, b: seq<Point>) {
    |a| == |b| && forall i :: 0 <= i < |a| ==> a[i].length == b[i].length && a[i].ms <= b[i].ms
  }

  /** Between two points a lower pair of ends gives a lower line. */
  lemma LineUnder(a0: Point, a1: Point, b0: Point, b1: Point, length: int)
    requires a0.length == b0.length < length <= a1.length == b1.length && a0.ms <= b0.ms && a1.ms <= b1.ms
    ensures Line(a0, a1, length) <= Line(b0, b1, length)
  {
    var w := (a1.length - a0.length) as real;
    var x := (length - a0.length) as real;
    var t := x / w;
    assert t * w == x;
    Share(t, w, x);
    LineIs(a0, a1, length, t, x, w);
    LineIs(b0, b1, length, t, x, w);
    Mix(a0.ms, b0.ms, a1.ms, b1.ms, t);
  }

  lemma Share(t: real, w: real, x: real)
    requires t * w == x && 0.0 < x <= w
    ensures 0.0 <= t <= 1.0
  {
    Cancel(w, 0.0, t);
    Cancel(w, t, 1.0);
  }

  lemma LineIs(a: Point, b: Point, length: int, t: real, x: real, w: real)
    requires a.length < b.length && w == (b.length - a.length) as real && x == (length - a.length) as real && t == x / w
    ensures Line(a, b, length) == a.ms + (b.ms - a.ms) * t
  {
    var d := b.ms - a.ms;
    assert d * x / w == d * (x / w);
  }

  lemma Mix(a0: real, b0: real, a1: real, b1: real, t: real)
    requires a0 <= b0 && a1 <= b1 && 0.0 <= t <= 1.0
    ensures a0 + (a1 - a0) * t <= b0 + (b1 - b0) * t
  {
    assert (b1 - a1) * t >= 0.0 by { NotNegative(b1 - a1, t); }
    assert (b0 - a0) * (1.0 - t) >= 0.0 by { NotNegative(b0 - a0, 1.0 - t); }
    assert (b0 - a0) * (1.0 - t) == (b0 - a0) - (b0 - a0) * t;
  }

  lemma {:induction false} AlongUnder(a: seq<Point>, b: seq<Point>, length: int, i: nat)
    requires Ascending(Xs(a)) && Ascending(Xs(b)) && Under(a, b) && i + 1 < |a|
    requires a[i].length < length <= a[|a| - 1].length
    ensures Along(a, length, i) <= Along(b, length, i)
    decreases |a| - i
  {
    assert Xs(a)[i] < Xs(a)[i + 1] && Xs(b)[i] < Xs(b)[i + 1];
    if length <= a[i + 1].length {
      LineUnder(a[i], a[i + 1], b[i], b[i + 1], length);
    } else {
      AlongUnder(a, b, length, i + 1);
    }
  }

  /** Up to the longest measured prompt, a table that is nowhere above the other costs no more. */
  lemma CostUnder(a: seq<Point>, b: seq<Point>, length: int)
    requires Ascending(Xs(a)) && Ascending(Xs(b)) && Under(a, b)
    requires |a| >= 2 ==> length <= a[|a| - 1].length
    ensures Cost(a, length) <= Cost(b, length)
  {
    if |a| >= 2 && length > a[0].length { AlongUnder(a, b, length, 0); }
  }

  // ---- beyond the longest measured prompt ------------------------------------------------------

  function Last(pts: seq<Point>): Point
    requires |pts| >= 2
  {
    pts[|pts| - 1]
  }

  /** ms per token of the last segment. */
  function TailSlope(pts: seq<Point>): real
    requires |pts| >= 2 && Ascending(Xs(pts))
  {
    var a, b := pts[|pts| - 2], pts[|pts| - 1];
    assert Xs(pts)[|pts| - 2] < Xs(pts)[|pts| - 1];
    (b.ms - a.ms) / (b.length - a.length) as real
  }

  function Tokens(pts: seq<Point>, length: int): real
    requires |pts| >= 2
  {
    (length - Last(pts).length) as real
  }

  lemma {:induction false} AlongBeyond(pts: seq<Point>, length: int, i: nat)
    requires Ascending(Xs(pts)) && i + 1 < |pts| && length > Last(pts).length
    ensures Xs(pts)[|pts| - 2] < Xs(pts)[|pts| - 1]
    ensures Along(pts, length, i) == Beyond(pts[|pts| - 2], pts[|pts| - 1], length)
    decreases |pts| - i
  {
    assert Xs(pts)[|pts| - 2] < Xs(pts)[|pts| - 1];
    assert i + 2 < |pts| ==> Xs(pts)[i + 1] < Xs(pts)[|pts| - 1];
    if i + 2 < |pts| { AlongBeyond(pts, length, i + 1); }
  }

  lemma Prolonged(d: real, x: real, w: real)
    requires w != 0.0
    ensures d * x / w == d / w * x
  {}

  /** Beyond the last point the cost is a straight line. */
  lemma CostBeyond(pts: seq<Point>, length: int)
    requires |pts| >= 2 && Ascending(Xs(pts)) && length > Last(pts).length
    ensures Cost(pts, length) == Last(pts).ms + TailSlope(pts) * Tokens(pts, length)
  {
    var a, b := pts[|pts| - 2], pts[|pts| - 1];
    assert Xs(pts)[0] <= Xs(pts)[|pts| - 1];
    AlongBeyond(pts, length, 0);
    BeyondIs(a, b, length);
  }

  lemma BeyondIs(a: Point, b: Point, length: int)
    requires a.length < b.length
    ensures Beyond(a, b, length) ==
      b.ms + (b.ms - a.ms) / (b.length - a.length) as real * (length - b.length) as real
  {
    Prolonged(b.ms - a.ms, (length - b.length) as real, (b.length - a.length) as real);
  }

  /** Of two tables on one grid, one nowhere above the other, exactly when it is no dearer beyond them. */
  lemma BeyondExactly(hi: seq<Point>, lo: seq<Point>, length: int)
    requires Ascending(Xs(hi)) && Ascending(Xs(lo)) && Under(hi, lo) && |hi| >= 2 && length > Last(hi).length
    ensures Cost(hi, length) <= Cost(lo, length) <==>
      (TailSlope(hi) - TailSlope(lo)) * Tokens(hi, length) <= Last(lo).ms - Last(hi).ms
  {
    CostBeyond(hi, length);
    CostBeyond(lo, length);
    var u, v, x := TailSlope(hi), TailSlope(lo), Tokens(hi, length);
    assert (u - v) * x == u * x - v * x;
  }

  /** And exactly when it is no dearer at any length: its last slope is not the steeper one. */
  lemma EverywhereExactly(hi: seq<Point>, lo: seq<Point>)
    requires Ascending(Xs(hi)) && Ascending(Xs(lo)) && Under(hi, lo) && |hi| >= 2
    ensures (forall length :: Cost(hi, length) <= Cost(lo, length)) <==> TailSlope(hi) <= TailSlope(lo)
  {
    var steeper, gap := TailSlope(hi) - TailSlope(lo), Last(lo).ms - Last(hi).ms;
    if steeper <= 0.0 {
      forall length ensures Cost(hi, length) <= Cost(lo, length) {
        if length > Last(hi).length {
          BeyondExactly(hi, lo, length);
          NotNegative(-steeper, Tokens(hi, length));
        } else {
          CostUnder(hi, lo, length);
        }
      }
    } else {
      var k := Exceeds(steeper, gap);
      var length := Last(hi).length + k;
      BeyondExactly(hi, lo, length);
      assert Cost(hi, length) > Cost(lo, length);
    }
  }

  /** Enough steps of a positive size exceed any gap. */
  lemma Exceeds(step: real, gap: real) returns (k: int)
    requires step > 0.0 && gap >= 0.0
    ensures k > 0 && step * k as real > gap
  {
    var ratio := gap / step;
    assert ratio * step == gap;
    Cancel(step, 0.0, ratio);
    k := ratio.Floor + 1;
    Positive(k as real - ratio, step);
    assert (k as real - ratio) * step == step * k as real - gap;
  }

  /** A higher clock that is dearer, at the first length beyond the table. */
  lemma BeyondTheTable()
    ensures var lo, hi := [Point(1, 10.0), Point(2, 10.0)], [Point(1, 0.0), Point(2, 9.0)];
      && Ascending(Xs(lo)) && Ascending(Xs(hi)) && Under(hi, lo)
      && Cost(hi, 3) > Cost(lo, 3)
  {
    var lo, hi := [Point(1, 10.0), Point(2, 10.0)], [Point(1, 0.0), Point(2, 9.0)];
    assert Xs(lo) == [1, 2] && Xs(hi) == [1, 2];
    assert TailSlope(hi) == 9.0 && TailSlope(lo) == 0.0 && Tokens(hi, 3) == 1.0;
    BeyondExactly(hi, lo, 3);
  }

  // ---- costs below 0 ---------------------------------------------------------------------------

  ghost predicate NoNegatives(pts: seq<Point>) { forall i :: 0 <= i < |pts| ==> pts[i].ms >= 0.0 }

  lemma LinePositive(a: Point, b: Point, length: int)
    requires a.length < length <= b.length && a.ms >= 0.0 && b.ms >= 0.0
    ensures Line(a, b, length) >= 0.0
  {
    var w := (b.length - a.length) as real;
    var x := (length - a.length) as real;
    var t := x / w;
    assert t * w == x;
    Share(t, w, x);
    LineIs(a, b, length, t, x, w);
    Mix(0.0, a.ms, 0.0, b.ms, t);
  }

  lemma {:induction false} AlongPositive(pts: seq<Point>, length: int, i: nat)
    requires Ascending(Xs(pts)) && NoNegatives(pts) && i + 1 < |pts| && pts[i].length < length <= pts[|pts| - 1].length
    ensures Along(pts, length, i) >= 0.0
    decreases |pts| - i
  {
    assert Xs(pts)[i] < Xs(pts)[i + 1];
    if length <= pts[i + 1].length {
      LinePositive(pts[i], pts[i + 1], length);
    } else {
      AlongPositive(pts, length, i + 1);
    }
  }

  /** Of non-negative measurements a cost below 0 comes only from the prolonged last segment, and exactly when that has fallen so far. */
  lemma NegativeExactly(pts: seq<Point>, length: int)
    requires Ascending(Xs(pts)) && NoNegatives(pts)
    ensures Cost(pts, length) < 0.0 <==>
      |pts| >= 2 && length > Last(pts).length && Last(pts).ms + TailSlope(pts) * Tokens(pts, length) < 0.0
  {
    if |pts| >= 2 {
      if length > Last(pts).length {
        CostBeyond(pts, length);
      } else if length > pts[0].length {
        AlongPositive(pts, length, 0);
      }
    }
  }

  /** No prompt has a cost below 0 exactly when the last segment does not fall. */
  lemma NeverNegativeExactly(pts: seq<Point>)
    requires Ascending(Xs(pts)) && NoNegatives(pts) && |pts| >= 2
    ensures (forall length :: Cost(pts, length) >= 0.0) <==> TailSlope(pts) >= 0.0
  {
    var slope := TailSlope(pts);
    if slope >= 0.0 {
      forall length ensures Cost(pts, length) >= 0.0 {
        NegativeExactly(pts, length);
        if length > Last(pts).length { NotNegative(slope, Tokens(pts, length)); }
      }
    } else {
      var k := Exceeds(-slope, Last(pts).ms);
      var length := Last(pts).length + k;
      NegativeExactly(pts, length);
      assert Cost(pts, length) < 0.0;
    }
  }

  // ---- the table of a clock ----------------------------------------------------------------------

  /** The clock whose table serves `mhz`: the nearest at or below it, else the lowest; the highest when unknown. */
  ghost predicate Serves(clocks: set<int>, mhz: Option<int>, f: int) {
    && f in clocks
    && (mhz.None? ==> forall g :: g in clocks ==> g <= f)
    && (mhz.Some? ==> NearestBelow(clocks, mhz.value, f) || forall g :: g in clocks ==> mhz.value < g && f <= g)
  }

  ghost predicate NearestBelow(clocks: set<int>, mhz: int, f: int) {
    f <= mhz && forall g :: g in clocks && g <= mhz ==> g <= f
  }

  predicate AllAbove(clocks: seq<int>, i: nat, k: nat, mhz: Option<int>) {
    i <= k <= |clocks| && forall j :: i <= j < k ==> mhz.Some? && clocks[j] > mhz.value
  }

  /** The clocks whose tables have at least two points; the others are dropped. */
  function Usable(book: Tables): set<int> { set f | f in book && |book[f]| >= 2 }

  /** The table of a P clock; None stands for the cost 0 of a book without tables. */
  method ForClock(book: Tables, mhz: Option<int>) returns (f: Option<int>)
    ensures f.None? <==> Usable(book) == {}
    ensures f.Some? ==> Serves(Usable(book), mhz, f.value)
  {
    var clocks := SortedKeys(Usable(book));
    assert forall k :: 0 <= k < |clocks| ==> clocks[k] in clocks;
    if clocks == [] {
      assert forall x :: x in Usable(book) <==> x in clocks;
      return None;
    }
    var best := 0;
    for k := 1 to |clocks|
      invariant 0 <= best < k
      invariant AllAbove(clocks, best + 1, k, mhz)
      invariant best > 0 ==> mhz.None? || clocks[best] <= mhz.value
    {
      if mhz.None? || clocks[k] <= mhz.value { best := k; }
    }
    f := Some(clocks[best]);
    LastServes(clocks, Usable(book), mhz, best);
  }

  lemma LastServes(clocks: seq<int>, keys: set<int>, mhz: Option<int>, best: nat)
    requires Lists(clocks, keys) && best < |clocks|
    requires AllAbove(clocks, best + 1, |clocks|, mhz)
    requires best > 0 ==> mhz.None? || clocks[best] <= mhz.value
    ensures Serves(keys, mhz, clocks[best])
  {
    assert clocks[best] in clocks;
    forall g | g in keys ensures g <= clocks[best] || (mhz.Some? && g > mhz.value) {
      assert g in clocks;
      var j :| 0 <= j < |clocks| && clocks[j] == g;
      if j < best { assert clocks[j] < clocks[best]; }
    }
    if best == 0 {
      forall g | g in keys ensures clocks[0] <= g {
        assert g in clocks;
        var j :| 0 <= j < |clocks| && clocks[j] == g;
      }
    }
  }

  lemma ServesMonotone(clocks: set<int>, a: int, b: int, f: int, g: int)
    requires a <= b && Serves(clocks, Some(a), f) && Serves(clocks, Some(b), g)
    ensures f <= g
  {}

  /** The tables that serve a lower and a higher P clock, on one grid of lengths, after the repair. */
  ghost predicate ServePair(t: Tables, a: int, b: int, f: int, g: int, p: seq<Point>, q: seq<Point>) {
    && Consistent(t) && (forall x, y :: x in t && y in t ==> t[x].Keys == t[y].Keys)
    && a <= b && Serves(Usable(t), Some(a), f) && Serves(Usable(t), Some(b), g)
    && IsPoints(p, t[f]) && IsPoints(q, t[g])
  }

  lemma PairUnder(t: Tables, a: int, b: int, f: int, g: int, p: seq<Point>, q: seq<Point>)
    requires ServePair(t, a, b, f, g, p, q)
    ensures Under(q, p)
  {
    ServesMonotone(Usable(t), a, b, f, g);
    OneListing(Xs(p), Xs(q), t[f].Keys);
    assert |p| == |Xs(p)| == |Xs(q)| == |q|;
    forall i | 0 <= i < |p| ensures q[i].length == p[i].length && q[i].ms <= p[i].ms {
      assert Xs(p)[i] == Xs(q)[i];
    }
  }

  /** After the repair: on the same lengths, a higher P clock never costs more, up to the longest of them. */
  lemma HigherClockNoDearer(t: Tables, a: int, b: int, f: int, g: int, p: seq<Point>, q: seq<Point>, length: int)
    requires ServePair(t, a, b, f, g, p, q) && (|p| >= 2 ==> length <= Last(p).length)
    ensures Cost(q, length) <= Cost(p, length)
  {
    PairUnder(t, a, b, f, g, p, q);
    CostUnder(q, p, length);
  }

  /** Beyond it, and at every length: exactly when the higher clock's last slope is not too steep. */
  lemma HigherClockExactly(t: Tables, a: int, b: int, f: int, g: int, p: seq<Point>, q: seq<Point>, length: int)
    requires ServePair(t, a, b, f, g, p, q) && |p| >= 2
    ensures |q| == |p| && Last(q).length == Last(p).length
    ensures length > Last(p).length ==> (Cost(q, length) <= Cost(p, length) <==>
      (TailSlope(q) - TailSlope(p)) * Tokens(q, length) <= Last(p).ms - Last(q).ms)
    ensures (forall n :: Cost(q, n) <= Cost(p, n)) <==> TailSlope(q) <= TailSlope(p)
  {
    PairUnder(t, a, b, f, g, p, q);
    if length > Last(p).length { BeyondExactly(q, p, length); }
    EverywhereExactly(q, p);
  }
}
