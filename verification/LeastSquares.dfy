/** Regularised least squares by the normal equations, and why their solution is the best fit. */
module LeastSquares {
  import opened Options
  import opened LinearSolve

  /** A measured value `y` at the features `x`. */
  datatype Sample = Sample(x: Row, y: real)

  ghost predicate Samples(samples: seq<Sample>, n: nat) {
    forall s :: 0 <= s < |samples| ==> |samples[s].x| == n
  }

  function Times(a: real, b: real): real { a * b }

  function Sq(a: real): (r: real)
    ensures r >= 0.0
  {
    Times(a, a)
  }

  lemma TimesPositive(a: real, b: real)
    requires a > 0.0 && b > 0.0
    ensures Times(a, b) > 0.0 && Times(-a, -b) > 0.0
  {}

  lemma SqPositive(a: real)
    requires a != 0.0
    ensures Sq(a) > 0.0
  {
    if a > 0.0 { TimesPositive(a, a); } else { TimesPositive(-a, -a); }
  }

  // ---- the objective -----------------------------------------------------------------------

  /** What the coefficients `c` miss of one sample. */
  function Gap(s: Sample, n: nat, c: Row): real
    requires |s.x| == n && |c| == n
  {
    s.y - Dot(c, s.x, n)
  }

  /** Sum of squared errors of the coefficients `c`. */
  function Error(samples: seq<Sample>, n: nat, c: Row): (r: real)
    requires Samples(samples, n) && |c| == n
    ensures r >= 0.0
  {
    if samples == [] then 0.0 else
      var k := |samples| - 1;
      Error(samples[..k], n, c) + Sq(Gap(samples[k], n, c))
  }

  /** Weighted squared distance from the prior, over the first `k` coefficients. */
  function Penalty(weights: Row, prior: Row, c: Row, k: nat): real
    requires k <= |weights| && k <= |prior| && k <= |c|
  {
    if k == 0 then 0.0 else Penalty(weights, prior, c, k - 1) + Times(weights[k - 1], Sq(c[k - 1] - prior[k - 1]))
  }

  ghost predicate Problem(samples: seq<Sample>, n: nat, weights: Row, prior: Row) {
    Samples(samples, n) && |weights| == n && |prior| == n && forall i :: 0 <= i < n ==> weights[i] >= 0.0
  }

  function Objective(samples: seq<Sample>, n: nat, weights: Row, prior: Row, c: Row): real
    requires Problem(samples, n, weights, prior) && |c| == n
  {
    Error(samples, n, c) + Penalty(weights, prior, c, n)
  }

  // ---- the normal equations ------------------------------------------------------------------

  function Ata(samples: seq<Sample>, n: nat, i: nat, j: nat): real
    requires Samples(samples, n) && i < n && j < n
  {
    if samples == [] then 0.0 else
      var k := |samples| - 1;
      Ata(samples[..k], n, i, j) + samples[k].x[i] * samples[k].x[j]
  }

  function Aty(samples: seq<Sample>, n: nat, i: nat): real
    requires Samples(samples, n) && i < n
  {
    if samples == [] then 0.0 else
      var k := |samples| - 1;
      Aty(samples[..k], n, i) + samples[k].x[i] * samples[k].y
  }

  function AtaRow(samples: seq<Sample>, n: nat, i: nat): Row
    requires Samples(samples, n) && i < n
  {
    seq(n, j requires 0 <= j < n => Ata(samples, n, i, j))
  }

  function NormalMatrix(samples: seq<Sample>, n: nat, weights: Row): Matrix
    requires Samples(samples, n) && |weights| == n
  {
    seq(n, i requires 0 <= i < n => AtaRow(samples, n, i)[i := Ata(samples, n, i, i) + weights[i]])
  }

  function NormalVector(samples: seq<Sample>, n: nat, weights: Row, prior: Row): Row
    requires Samples(samples, n) && |weights| == n && |prior| == n
  {
    seq(n, i requires 0 <= i < n => Aty(samples, n, i) + weights[i] * prior[i])
  }

  /** Slope of the fit along coefficient `i`, without the penalty. */
  function Pull(samples: seq<Sample>, n: nat, c: Row, i: nat): real
    requires Samples(samples, n) && |c| == n && i < n
  {
    Aty(samples, n, i) - Dot(AtaRow(samples, n, i), c, n)
  }

  ghost predicate Normal(samples: seq<Sample>, n: nat, weights: Row, prior: Row, c: Row)
    requires Problem(samples, n, weights, prior) && |c| == n
  {
    forall i :: 0 <= i < n ==> Pull(samples, n, c, i) == weights[i] * (c[i] - prior[i])
  }

  lemma {:induction false} DotBumped(a: Row, i: nat, w: real, c: Row, n: nat)
    requires i < |a| && n <= |a| && n <= |c|
    ensures Dot(a[i := a[i] + w], c, n) == Dot(a, c, n) + if i < n then w * c[i] else 0.0
  {
    if n > 0 { DotBumped(a, i, w, c, n - 1); }
  }

  /** The matrix and vector handed to the solver state exactly that the slope of the objective is zero. */
  lemma NormalMeans(samples: seq<Sample>, n: nat, weights: Row, prior: Row, c: Row)
    requires Problem(samples, n, weights, prior) && |c| == n
    ensures Square(NormalMatrix(samples, n, weights), |NormalVector(samples, n, weights, prior)|)
    ensures IsSolution(NormalMatrix(samples, n, weights), NormalVector(samples, n, weights, prior), c) <==>
      Normal(samples, n, weights, prior, c)
  {
    var matrix, vector := NormalMatrix(samples, n, weights), NormalVector(samples, n, weights, prior);
    forall i | 0 <= i < n
      ensures Dot(matrix[i], c, n) == vector[i] <==> Pull(samples, n, c, i) == weights[i] * (c[i] - prior[i])
    {
      DotBumped(AtaRow(samples, n, i), i, weights[i], c, n);
      assert weights[i] * (c[i] - prior[i]) == weights[i] * c[i] - weights[i] * prior[i];
    }
  }

  // ---- the objective around a point ------------------------------------------------------------

  function Apart(d: Row, c: Row): Row
    requires |d| == |c|
  {
    Minus(d, c, 1.0)
  }

  /** Squared change of the predictions under a change `e` of the coefficients. */
  function Spread(samples: seq<Sample>, n: nat, e: Row): (r: real)
    requires Samples(samples, n) && |e| == n
    ensures r >= 0.0
  {
    if samples == [] then 0.0 else
      var k := |samples| - 1;
      Spread(samples[..k], n, e) + Sq(Dot(e, samples[k].x, n))
  }

  function Weight(weights: Row, e: Row, k: nat): real
    requires k <= |weights| && k <= |e|
  {
    if k == 0 then 0.0 else Weight(weights, e, k - 1) + Times(weights[k - 1], Sq(e[k - 1]))
  }

  /** The mixed term: changes of the predictions times the errors. */
  function Mixed(samples: seq<Sample>, n: nat, c: Row, e: Row): real
    requires Samples(samples, n) && |c| == n && |e| == n
  {
    if samples == [] then 0.0 else
      var k := |samples| - 1;
      Mixed(samples[..k], n, c, e) + Times(Dot(e, samples[k].x, n), Gap(samples[k], n, c))
  }

  /** The mixed term by coefficient. */
  function Along(samples: seq<Sample>, n: nat, c: Row, e: Row, k: nat): real
    requires Samples(samples, n) && |c| == n && |e| == n && k <= n
  {
    if k == 0 then 0.0 else Along(samples, n, c, e, k - 1) + Times(e[k - 1], Pull(samples, n, c, k - 1))
  }

  function MixedWeight(weights: Row, prior: Row, c: Row, e: Row, k: nat): real
    requires k <= |weights| && k <= |prior| && k <= |c| && k <= |e|
  {
    if k == 0 then 0.0 else MixedWeight(weights, prior, c, e, k - 1) + Times(e[k - 1], weights[k - 1] * (c[k - 1] - prior[k - 1]))
  }

  lemma SquareShift(u: real, v: real, w: real)
    requires w == u - v
    ensures Sq(w) == Sq(u) - 2.0 * (v * u) + Sq(v)
  {}

  lemma ErrorTerm(a: real, m: real, q: real, u: real, v: real, w: real)
    requires w == u - v
    ensures (a - 2.0 * m + q) + Sq(w) == (a + Sq(u)) - 2.0 * (m + Times(v, u)) + (q + Sq(v))
  {
    SquareShift(u, v, w);
  }

  lemma {:induction false} DotApart(d: Row, c: Row, x: Row, n: nat)
    requires |d| == |c| && n <= |c| && n <= |x|
    ensures Dot(Apart(d, c), x, n) == Dot(d, x, n) - Dot(c, x, n)
  {
    DotMinus(d, c, 1.0, x, n);
  }

  lemma {:induction false} ErrorShift(samples: seq<Sample>, n: nat, c: Row, d: Row)
    requires Samples(samples, n) && |c| == n && |d| == n
    ensures Error(samples, n, d) ==
      Error(samples, n, c) - 2.0 * Mixed(samples, n, c, Apart(d, c)) + Spread(samples, n, Apart(d, c))
  {
    if samples != [] {
      var k := |samples| - 1;
      var s := samples[k];
      ErrorShift(samples[..k], n, c, d);
      DotApart(d, c, s.x, n);
      var e := Apart(d, c);
      var u, v, w := Gap(s, n, c), Dot(e, s.x, n), Gap(s, n, d);
      ErrorTerm(Error(samples[..k], n, c), Mixed(samples[..k], n, c, e), Spread(samples[..k], n, e), u, v, w);
      assert Error(samples, n, d) == Error(samples[..k], n, d) + Sq(w);
      assert Mixed(samples, n, c, e) == Mixed(samples[..k], n, c, e) + Times(v, u);
    }
  }

  lemma WeightShift(w: real, c: real, p: real, d: real, e: real)
    requires e == d - c
    ensures w * Sq(d - p) == w * Sq(c - p) + 2.0 * (e * (w * (c - p))) + w * Sq(e)
  {
    var a := c - p;
    assert Sq(d - p) == Sq(a) + 2.0 * (e * a) + Sq(e) by { SquareShift(a, -e, d - p); }
    assert w * (2.0 * (e * a)) == 2.0 * (e * (w * a)) by {
      assert w * (e * a) == e * (w * a);
    }
    assert w * (Sq(a) + 2.0 * (e * a) + Sq(e)) == w * Sq(a) + w * (2.0 * (e * a)) + w * Sq(e);
  }

  lemma PenaltyTerm(a: real, m: real, q: real, w: real, c: real, p: real, d: real, e: real)
    requires e == d - c
    ensures (a + 2.0 * m + q) + Times(w, Sq(d - p)) ==
      (a + Times(w, Sq(c - p))) + 2.0 * (m + Times(e, w * (c - p))) + (q + Times(w, Sq(e)))
  {
    WeightShift(w, c, p, d, e);
  }

  lemma {:induction false} PenaltyShift(weights: Row, prior: Row, c: Row, d: Row, k: nat)
    requires |d| == |c| && k <= |weights| && k <= |prior| && k <= |c|
    ensures Penalty(weights, prior, d, k) ==
      Penalty(weights, prior, c, k) + 2.0 * MixedWeight(weights, prior, c, Apart(d, c), k) + Weight(weights, Apart(d, c), k)
  {
    if k > 0 {
      PenaltyShift(weights, prior, c, d, k - 1);
      var e := Apart(d, c);
      var w, ck, p, dk, ek := weights[k - 1], c[k - 1], prior[k - 1], d[k - 1], e[k - 1];
      var a, m, q := Penalty(weights, prior, c, k - 1), MixedWeight(weights, prior, c, e, k - 1), Weight(weights, e, k - 1);
      PenaltyTerm(a, m, q, w, ck, p, dk, ek);
      assert Penalty(weights, prior, d, k) == (a + 2.0 * m + q) + Times(w, Sq(dk - p));
      assert Penalty(weights, prior, c, k) == a + Times(w, Sq(ck - p));
      assert MixedWeight(weights, prior, c, e, k) == m + Times(ek, w * (ck - p));
    }
  }

  /** One sample's share of `Dot(AtaRow, c)`. */
  lemma {:induction false} AtaRowStep(samples: seq<Sample>, n: nat, i: nat, c: Row, k: nat)
    requires Samples(samples, n) && samples != [] && i < n && |c| == n && k <= n
    ensures var s := samples[|samples| - 1];
      Dot(AtaRow(samples, n, i), c, k) == Dot(AtaRow(samples[..|samples| - 1], n, i), c, k) + s.x[i] * Dot(c, s.x, k)
  {
    if k > 0 {
      AtaRowStep(samples, n, i, c, k - 1);
      var s := samples[|samples| - 1];
      RowTerm(
        Dot(AtaRow(samples[..|samples| - 1], n, i), c, k - 1), Ata(samples[..|samples| - 1], n, i, k - 1),
        s.x[i], s.x[k - 1], c[k - 1], Dot(c, s.x, k - 1));
    }
  }

  lemma RowTerm(r: real, a: real, xi: real, xk: real, ck: real, d: real)
    ensures (r + xi * d) + (a + xi * xk) * ck == (r + a * ck) + xi * (d + ck * xk)
  {
    assert (a + xi * xk) * ck == a * ck + xi * (ck * xk);
    assert xi * (d + ck * xk) == xi * d + xi * (ck * xk);
  }

  lemma PullStep(samples: seq<Sample>, n: nat, c: Row, i: nat)
    requires Samples(samples, n) && samples != [] && i < n && |c| == n
    ensures var s := samples[|samples| - 1];
      Pull(samples, n, c, i) == Pull(samples[..|samples| - 1], n, c, i) + s.x[i] * Gap(s, n, c)
  {
    var s, rest := samples[|samples| - 1], samples[..|samples| - 1];
    AtaRowStep(samples, n, i, c, n);
    PullTerm(Aty(rest, n, i), Dot(AtaRow(rest, n, i), c, n), s.x[i], s.y, Dot(c, s.x, n));
  }

  lemma PullTerm(a: real, r: real, x: real, y: real, d: real)
    ensures (a + x * y) - (r + x * d) == (a - r) + x * (y - d)
  {}

  lemma AlongTerm(a: real, t: real, t': real, e: real, x: real, g: real, p: real, p': real)
    requires p' == p + x * g && t' == t + e * x
    ensures a + Times(t, g) + Times(e, p') == a + Times(e, p) + Times(t', g)
  {
    assert e * p' == e * p + (e * x) * g;
    assert t' * g == t * g + (e * x) * g;
  }

  lemma {:induction false} AlongStep(samples: seq<Sample>, n: nat, c: Row, e: Row, k: nat)
    requires Samples(samples, n) && samples != [] && |c| == n && |e| == n && k <= n
    ensures var s := samples[|samples| - 1];
      Along(samples, n, c, e, k) == Along(samples[..|samples| - 1], n, c, e, k) + Times(Dot(e, s.x, k), Gap(s, n, c))
  {
    var s, rest := samples[|samples| - 1], samples[..|samples| - 1];
    if k == 0 {
      assert Dot(e, s.x, 0) == 0.0;
    } else {
      AlongStep(samples, n, c, e, k - 1);
      PullStep(samples, n, c, k - 1);
      AlongTerm(
        Along(rest, n, c, e, k - 1), Dot(e, s.x, k - 1), Dot(e, s.x, k), e[k - 1], s.x[k - 1], Gap(s, n, c),
        Pull(rest, n, c, k - 1), Pull(samples, n, c, k - 1));
    }
  }

  lemma {:induction false} AlongNone(samples: seq<Sample>, n: nat, c: Row, e: Row, k: nat)
    requires samples == [] && |c| == n && |e| == n && k <= n
    ensures Along(samples, n, c, e, k) == 0.0
  {
    if k > 0 {
      AlongNone(samples, n, c, e, k - 1);
      NoAtaRow(n, k - 1, c, n);
    }
  }

  lemma {:induction false} NoAtaRow(n: nat, i: nat, c: Row, k: nat)
    requires i < n && |c| == n && k <= n
    ensures Dot(AtaRow([], n, i), c, k) == 0.0
  {
    if k > 0 { NoAtaRow(n, i, c, k - 1); }
  }

  /** Summing by sample or by coefficient gives the same mixed term. */
  lemma {:induction false} MixedAlong(samples: seq<Sample>, n: nat, c: Row, e: Row)
    requires Samples(samples, n) && |c| == n && |e| == n
    ensures Mixed(samples, n, c, e) == Along(samples, n, c, e, n)
  {
    if samples == [] {
      AlongNone(samples, n, c, e, n);
    } else {
      MixedAlong(samples[..|samples| - 1], n, c, e);
      AlongStep(samples, n, c, e, n);
    }
  }

  lemma {:induction false} AlongNormal(samples: seq<Sample>, n: nat, weights: Row, prior: Row, c: Row, e: Row, k: nat)
    requires Problem(samples, n, weights, prior) && |c| == n && |e| == n && k <= n
    requires Normal(samples, n, weights, prior, c)
    ensures Along(samples, n, c, e, k) == MixedWeight(weights, prior, c, e, k)
  {
    if k > 0 { AlongNormal(samples, n, weights, prior, c, e, k - 1); }
  }

  lemma {:induction false} WeightPositive(weights: Row, e: Row, k: nat)
    requires k <= |weights| && k <= |e| && forall i :: 0 <= i < |weights| ==> weights[i] >= 0.0
    ensures Weight(weights, e, k) >= 0.0
    ensures Weight(weights, e, k) == 0.0 ==> forall i :: 0 <= i < k ==> weights[i] * e[i] == 0.0
  {
    if k > 0 {
      WeightPositive(weights, e, k - 1);
      var w, x := weights[k - 1], e[k - 1];
      assert w * Sq(x) >= 0.0;
      if w * x != 0.0 {
        SqPositive(x);
        assert w > 0.0;
        assert w * Sq(x) > 0.0;
      }
    }
  }

  /** From a point where the slope is zero the objective only grows. */
  lemma ObjectiveAround(samples: seq<Sample>, n: nat, weights: Row, prior: Row, c: Row, d: Row)
    requires Problem(samples, n, weights, prior) && |c| == n && |d| == n
    requires Normal(samples, n, weights, prior, c)
    ensures Objective(samples, n, weights, prior, d) ==
      Objective(samples, n, weights, prior, c) + Spread(samples, n, Apart(d, c)) + Weight(weights, Apart(d, c), n)
  {
    ErrorShift(samples, n, c, d);
    PenaltyShift(weights, prior, c, d, n);
    MixedAlong(samples, n, c, Apart(d, c));
    AlongNormal(samples, n, weights, prior, c, Apart(d, c), n);
  }

  /** Coefficients that differ from `c` in no prediction have the same slope everywhere. */
  lemma {:induction false} SamePull(samples: seq<Sample>, n: nat, c: Row, d: Row, i: nat)
    requires Samples(samples, n) && |c| == n && |d| == n && i < n && Spread(samples, n, Apart(d, c)) == 0.0
    ensures Pull(samples, n, d, i) == Pull(samples, n, c, i)
  {
    if samples == [] {
      NoAtaRow(n, i, c, n);
      NoAtaRow(n, i, d, n);
    } else {
      var s, rest := samples[|samples| - 1], samples[..|samples| - 1];
      NoSpread(samples, n, Apart(d, c));
      SamePull(rest, n, c, d, i);
      SameGap(s, n, c, d);
      SamePullStep(samples, n, c, d, i);
    }
  }

  lemma SamePullStep(samples: seq<Sample>, n: nat, c: Row, d: Row, i: nat)
    requires Samples(samples, n) && samples != [] && |c| == n && |d| == n && i < n
    requires var s, rest := samples[|samples| - 1], samples[..|samples| - 1];
      Pull(rest, n, d, i) == Pull(rest, n, c, i) && Gap(s, n, d) == Gap(s, n, c)
    ensures Pull(samples, n, d, i) == Pull(samples, n, c, i)
  {
    var s, rest := samples[|samples| - 1], samples[..|samples| - 1];
    PullStep(samples, n, c, i);
    PullStep(samples, n, d, i);
    SameStep(Pull(rest, n, c, i), s.x[i], Gap(s, n, c), Gap(s, n, d), Pull(samples, n, d, i));
  }

  lemma SameGap(s: Sample, n: nat, c: Row, d: Row)
    requires |s.x| == n && |c| == n && |d| == n && Dot(Apart(d, c), s.x, n) == 0.0
    ensures Gap(s, n, d) == Gap(s, n, c)
  {
    DotApart(d, c, s.x, n);
  }

  lemma SameStep(p: real, x: real, g: real, g': real, q: real)
    requires q == p + x * g' && g == g'
    ensures q == p + x * g
  {}

  lemma NoSpread(samples: seq<Sample>, n: nat, e: Row)
    requires Samples(samples, n) && |e| == n && samples != [] && Spread(samples, n, e) == 0.0
    ensures Spread(samples[..|samples| - 1], n, e) == 0.0 && Dot(e, samples[|samples| - 1].x, n) == 0.0
  {
    var u := Dot(e, samples[|samples| - 1].x, n);
    if u != 0.0 { SqPositive(u); }
  }

  ghost predicate UniqueBest(samples: seq<Sample>, n: nat, weights: Row, prior: Row, c: Row)
    requires Problem(samples, n, weights, prior)
  {
    && |c| == n
    && forall d: Row :: |d| == n && d != c ==>
      Objective(samples, n, weights, prior, c) < Objective(samples, n, weights, prior, d)
  }

  /** The only solution of the normal equations is the only best fit. */
  lemma SolutionIsBest(samples: seq<Sample>, n: nat, weights: Row, prior: Row, c: Row)
    requires Problem(samples, n, weights, prior)
    requires var matrix, vector := NormalMatrix(samples, n, weights), NormalVector(samples, n, weights, prior);
      Square(matrix, |vector|) && forall d: Row :: IsSolution(matrix, vector, d) <==> d == c
    ensures UniqueBest(samples, n, weights, prior, c)
  {
    var matrix, vector := NormalMatrix(samples, n, weights), NormalVector(samples, n, weights, prior);
    assert IsSolution(matrix, vector, c);
    NormalMeans(samples, n, weights, prior, c);
    forall d: Row | |d| == n && d != c
      ensures Objective(samples, n, weights, prior, c) < Objective(samples, n, weights, prior, d)
    {
      var e := Apart(d, c);
      ObjectiveAround(samples, n, weights, prior, c, d);
      WeightPositive(weights, e, n);
      assert !IsSolution(matrix, vector, d);
      if Spread(samples, n, e) == 0.0 && Weight(weights, e, n) == 0.0 {
        AlsoNormal(samples, n, weights, prior, c, d);
        NormalMeans(samples, n, weights, prior, d);
      }
    }
  }

  lemma AlsoNormal(samples: seq<Sample>, n: nat, weights: Row, prior: Row, c: Row, d: Row)
    requires Problem(samples, n, weights, prior) && |c| == n && |d| == n
    requires Normal(samples, n, weights, prior, c)
    requires Spread(samples, n, Apart(d, c)) == 0.0 && Weight(weights, Apart(d, c), n) == 0.0
    ensures Normal(samples, n, weights, prior, d)
  {
    WeightPositive(weights, Apart(d, c), n);
    forall i | 0 <= i < n ensures Pull(samples, n, d, i) == weights[i] * (d[i] - prior[i]) {
      SamePull(samples, n, c, d, i);
      assert weights[i] * (d[i] - prior[i]) == weights[i] * (c[i] - prior[i]) + weights[i] * Apart(d, c)[i];
    }
  }
}
