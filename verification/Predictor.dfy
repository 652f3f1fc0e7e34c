/** The online TTFT predictor: a sliding window of samples, refitted towards a prior. */
module Predictor {
  import opened Options
  import opened LinearSolve
  import opened LeastSquares

  /** Intercept, own prefill cost, pending P work, KV in flight, requests decoding. */
  const FEATURES: nat := 5

  const ZEROS: Row := [0.0, 0.0, 0.0, 0.0, 0.0]

  ghost predicate Wide(samples: seq<Sample>) { Samples(samples, FEATURES) }

  /** The last `window` entries. */
  function Latest<T>(q: seq<T>, window: nat): seq<T> {
    if |q| <= window then q else q[|q| - window..]
  }

  /** A measured TTFT is cut off at the clip, when there is one. */
  function Clipped(y: real, clip: Option<real>): real {
    if clip.Some? && clip.value < y then clip.value else y
  }

  function AllClipped(samples: seq<Sample>, clip: Option<real>): seq<Sample> {
    seq(|samples|, i requires 0 <= i < |samples| => samples[i].(y := Clipped(samples[i].y, clip)))
  }

  /** Mean square of one feature, or 1 when it is always 0. */
  function Scale(samples: seq<Sample>, i: nat): real
    requires Wide(samples) && i < FEATURES
  {
    var square := Ata(samples, FEATURES, i, i) / (if samples == [] then 1 else |samples|) as real;
    if square == 0.0 then 1.0 else square
  }

  function Weights(samples: seq<Sample>, ridge: real): Row
    requires Wide(samples)
  {
    seq(FEATURES, i requires 0 <= i < FEATURES => ridge * Scale(samples, i))
  }

  lemma {:induction false} SquareSum(samples: seq<Sample>, n: nat, i: nat)
    requires Samples(samples, n) && i < n
    ensures Ata(samples, n, i, i) >= 0.0
  {
    if samples != [] {
      SquareSum(samples[..|samples| - 1], n, i);
      var x := samples[|samples| - 1].x[i];
      assert Sq(x) >= 0.0;
    }
  }

  lemma Ratio(a: real, b: real)
    requires a >= 0.0 && b > 0.0
    ensures a / b >= 0.0
  {}

  /** The ridge weighs every coefficient, and none of them negatively. */
  lemma WeightsPositive(samples: seq<Sample>, ridge: real)
    requires Wide(samples) && ridge >= 0.0
    ensures forall i :: 0 <= i < FEATURES ==> Weights(samples, ridge)[i] >= 0.0
    ensures ridge > 0.0 ==> forall i :: 0 <= i < FEATURES ==> Weights(samples, ridge)[i] > 0.0
  {
    forall i | 0 <= i < FEATURES
      ensures Weights(samples, ridge)[i] >= 0.0 && (ridge > 0.0 ==> Weights(samples, ridge)[i] > 0.0)
    {
      SquareSum(samples, FEATURES, i);
      Ratio(Ata(samples, FEATURES, i, i), (if samples == [] then 1 else |samples|) as real);
      assert Scale(samples, i) > 0.0;
      assert Times(ridge, Scale(samples, i)) >= 0.0;
      if ridge > 0.0 { TimesPositive(ridge, Scale(samples, i)); }
    }
  }

  /** `c` came out of a refit of these samples towards `prior`. */
  ghost predicate Refitted(samples: seq<Sample>, ridge: real, prior: Row, c: Row) {
    && Wide(samples) && |prior| == FEATURES
    && var w := Weights(samples, ridge);
    var matrix, vector := NormalMatrix(samples, FEATURES, w), NormalVector(samples, FEATURES, w, prior);
    Square(matrix, |vector|) && forall d: Row :: IsSolution(matrix, vector, d) <==> d == c
  }

  /** The refit met a column without a usable pivot. */
  ghost predicate RefitStuck(samples: seq<Sample>, ridge: real, prior: Row) {
    && Wide(samples) && |prior| == FEATURES
    && var w := Weights(samples, ridge);
    var matrix, vector := NormalMatrix(samples, FEATURES, w), NormalVector(samples, FEATURES, w, prior);
    Square(matrix, |vector|) && Stuck(matrix, vector)
  }

  /** A refit gives the one best fit: of all coefficients, those with the least regularised squared error. */
  lemma RefitIsBest(samples: seq<Sample>, ridge: real, prior: Row, c: Row)
    requires ridge >= 0.0 && Refitted(samples, ridge, prior, c)
    ensures Problem(samples, FEATURES, Weights(samples, ridge), prior)
    ensures UniqueBest(samples, FEATURES, Weights(samples, ridge), prior, c)
  {
    WeightsPositive(samples, ridge);
    SolutionIsBest(samples, FEATURES, Weights(samples, ridge), prior, c);
  }

  // ---- building the normal equations ---------------------------------------------------------

  ghost predicate Gathered(samples: seq<Sample>, ata: Matrix, aty: Row) {
    && Wide(samples) && Square(ata, FEATURES) && |aty| == FEATURES
    && forall i :: 0 <= i < FEATURES ==> GatheredRow(samples, ata[i], aty[i], i)
  }

  ghost predicate GatheredRow(samples: seq<Sample>, row: Row, y: real, i: nat)
    requires Wide(samples) && i < FEATURES && |row| == FEATURES
  {
    y == Aty(samples, FEATURES, i) && forall j :: 0 <= j < FEATURES ==> row[j] == Ata(samples, FEATURES, i, j)
  }

  method AddRow(samples: seq<Sample>, s: Sample, row0: Row, i: nat) returns (row: Row)
    requires Wide(samples + [s]) && Wide(samples) && |s.x| == FEATURES && i < FEATURES && |row0| == FEATURES
    requires GatheredRow(samples, row0, Aty(samples, FEATURES, i), i)
    ensures |row| == FEATURES && GatheredRow(samples + [s], row, Aty(samples + [s], FEATURES, i), i)
  {
    row := row0;
    ghost var more := samples + [s];
    assert more[..|samples|] == samples;
    for j := 0 to FEATURES
      invariant |row| == FEATURES
      invariant forall k :: 0 <= k < j ==> row[k] == Ata(more, FEATURES, i, k)
      invariant forall k :: j <= k < FEATURES ==> row[k] == Ata(samples, FEATURES, i, k)
    {
      row := row[j := row[j] + s.x[i] * s.x[j]];
    }
  }

  method AddSample(samples: seq<Sample>, s: Sample, ata0: Matrix, aty0: Row) returns (ata: Matrix, aty: Row)
    requires Wide(samples + [s]) && Gathered(samples, ata0, aty0)
    ensures Gathered(samples + [s], ata, aty)
  {
    ata, aty := ata0, aty0;
    ghost var more := samples + [s];
    assert more[..|samples|] == samples && more[|samples|] == s;
    for i := 0 to FEATURES
      invariant Square(ata, FEATURES) && |aty| == FEATURES
      invariant forall k :: 0 <= k < i ==> GatheredRow(more, ata[k], aty[k], k)
      invariant forall k :: i <= k < FEATURES ==> GatheredRow(samples, ata[k], aty[k], k)
    {
      var row := AddRow(samples, s, ata[i], i);
      aty := aty[i := aty[i] + s.x[i] * s.y];
      ata := ata[i := row];
    }
  }

  method Gather(samples: seq<Sample>) returns (ata: Matrix, aty: Row)
    requires Wide(samples)
    ensures Gathered(samples, ata, aty)
  {
    ata, aty := [ZEROS, ZEROS, ZEROS, ZEROS, ZEROS], ZEROS;
    assert samples[..0] == [];
    for k := 0 to |samples|
      invariant Gathered(samples[..k], ata, aty)
    {
      assert samples[..k + 1] == samples[..k] + [samples[k]];
      ata, aty := AddSample(samples[..k], samples[k], ata, aty);
    }
    assert samples[..|samples|] == samples;
  }

  /** The ridge: the diagonal and the right-hand side pulled towards the prior, relative to each feature's spread. */
  method AddRidge(samples: seq<Sample>, ridge: real, prior: Row, ata0: Matrix, aty0: Row)
    returns (ata: Matrix, aty: Row)
    requires |prior| == FEATURES && Gathered(samples, ata0, aty0)
    ensures ata == NormalMatrix(samples, FEATURES, Weights(samples, ridge))
    ensures aty == NormalVector(samples, FEATURES, Weights(samples, ridge), prior)
  {
    ata, aty := ata0, aty0;
    ghost var w := Weights(samples, ridge);
    for i := 0 to FEATURES
      invariant Square(ata, FEATURES) && |aty| == FEATURES
      invariant forall k :: 0 <= k < i ==> ata[k] == NormalMatrix(samples, FEATURES, w)[k]
      invariant forall k :: 0 <= k < i ==> aty[k] == NormalVector(samples, FEATURES, w, prior)[k]
      invariant forall k :: i <= k < FEATURES ==> ata[k] == ata0[k] && aty[k] == aty0[k]
    {
      var row, y := RidgeOne(samples, ridge, prior, ata[i], aty[i], i);
      ata := ata[i := row];
      aty := aty[i := y];
    }
  }

  method RidgeOne(samples: seq<Sample>, ridge: real, prior: Row, row0: Row, y0: real, i: nat) returns (row: Row, y: real)
    requires Wide(samples) && |prior| == FEATURES && i < FEATURES && |row0| == FEATURES && GatheredRow(samples, row0, y0, i)
    ensures row == NormalMatrix(samples, FEATURES, Weights(samples, ridge))[i]
    ensures y == NormalVector(samples, FEATURES, Weights(samples, ridge), prior)[i]
  {
    RidgeRow(samples, ridge, prior, row0, y0, i);
    var scale := row0[i] / (if samples == [] then 1 else |samples|) as real;
    if scale == 0.0 { scale := 1.0; }
    row := row0[i := row0[i] + ridge * scale];
    y := y0 + ridge * scale * prior[i];
  }

  lemma RidgeRow(samples: seq<Sample>, ridge: real, prior: Row, row: Row, y: real, i: nat)
    requires Wide(samples) && |prior| == FEATURES && i < FEATURES && |row| == FEATURES && GatheredRow(samples, row, y, i)
    ensures var w := Weights(samples, ridge);
      && row[i] == Ata(samples, FEATURES, i, i)
      && NormalMatrix(samples, FEATURES, w)[i] == row[i := row[i] + ridge * Scale(samples, i)]
      && NormalVector(samples, FEATURES, w, prior)[i] == y + ridge * Scale(samples, i) * prior[i]
  {
    assert row == AtaRow(samples, FEATURES, i);
    var w := Weights(samples, ridge);
    WeightOf(samples, ridge, i);
    RidgeMatrix(samples, w, row, i);
    RidgeVector(samples, w, prior, y, i);
  }

  lemma WeightOf(samples: seq<Sample>, ridge: real, i: nat)
    requires Wide(samples) && i < FEATURES
    ensures Weights(samples, ridge)[i] == ridge * Scale(samples, i)
  {}

  lemma RidgeMatrix(samples: seq<Sample>, w: Row, row: Row, i: nat)
    requires Wide(samples) && |w| == FEATURES && i < FEATURES && row == AtaRow(samples, FEATURES, i)
    ensures row[i] == Ata(samples, FEATURES, i, i)
    ensures NormalMatrix(samples, FEATURES, w)[i] == row[i := row[i] + w[i]]
  {}

  lemma RidgeVector(samples: seq<Sample>, w: Row, prior: Row, y: real, i: nat)
    requires Wide(samples) && |w| == |prior| == FEATURES && i < FEATURES && y == Aty(samples, FEATURES, i)
    ensures NormalVector(samples, FEATURES, w, prior)[i] == y + w[i] * prior[i]
  {}

  class TtftPredictor {
    const window: nat
    const refitEvery: nat
    const ridge: real
    const clip: Option<real>
    var hasPrior: bool
    var prior: Row
    var coef: Row
    var samples: seq<Sample>
    var sinceFit: nat

    ghost predicate Valid()
      reads this
    {
      Wide(samples) && |samples| <= window && (!hasPrior ==> prior == ZEROS)
    }

    constructor (prior: Option<Row>, window: nat, refitEvery: nat, ridge: real, clip: Option<real>)
      requires prior.Some? ==> |prior.value| == FEATURES
      ensures Valid() && samples == [] && sinceFit == 0
      ensures hasPrior == prior.Some? && this.prior == (if prior.Some? then prior.value else ZEROS) && coef == this.prior
      ensures this.window == window && this.refitEvery == refitEvery && this.ridge == ridge && this.clip == clip
    {
      this.window, this.refitEvery, this.ridge, this.clip := window, refitEvery, ridge, clip;
      hasPrior := prior.Some?;
      this.prior := if prior.Some? then prior.value else ZEROS;
      coef := if prior.Some? then prior.value else ZEROS;
      samples, sinceFit := [], 0;
    }

    /** The outcome of a refit from coefficients `before`: an index error for a prior that is too short. */
    ghost predicate RefitTried(before: Row, ok: bool)
      reads this
    {
      if |prior| < FEATURES then !ok && coef == before
      else
        && ok
        && (Refitted(samples, ridge, prior[..FEATURES], coef)
          || (coef == before && RefitStuck(samples, ridge, prior[..FEATURES])))
    }

    /** New coefficients from the window, kept only when the equations could be solved. */
    method Refit() returns (ok: bool)
      requires Valid()
      modifies this`coef
      ensures Valid() && RefitTried(old(coef), ok)
    {
      var ata, aty := Gather(samples);
      if |prior| < FEATURES { return false; }
      ata, aty := AddRidge(samples, ridge, prior[..FEATURES], ata, aty);
      var solved := Solve(ata, aty);
      if solved.Some? {
        coef := solved.value;
        assert IsSolution(ata, aty, coef);
      }
      ok := true;
    }

    /** A sample enters the window; every `refitEvery` samples the coefficients follow. */
    method Record(x: Row, ttft: real) returns (ok: bool)
      requires Valid() && |x| == FEATURES
      modifies this`samples, this`sinceFit, this`coef
      ensures Valid()
      ensures samples == Latest(old(samples) + [Sample(x, Clipped(ttft, clip))], window)
      ensures if hasPrior && old(sinceFit) + 1 >= refitEvery
        then sinceFit == 0 && RefitTried(old(coef), ok)
        else sinceFit == old(sinceFit) + 1 && coef == old(coef) && ok
    {
      samples := Latest(samples + [Sample(x, Clipped(ttft, clip))], window);
      sinceFit := sinceFit + 1;
      ok := true;
      if hasPrior && sinceFit >= refitEvery {
        sinceFit := 0;
        ok := Refit();
      }
    }

    /** A new prior of any length: the coefficients restart from it, and a full enough window refits towards it at once. */
    method SetPrior(prior: Row) returns (ok: bool)
      requires Valid()
      modifies this`prior, this`coef, this`hasPrior
      ensures Valid() && hasPrior && this.prior == prior
      ensures if |samples| >= refitEvery then RefitTried(prior, ok) else ok && coef == prior
    {
      this.prior, coef, hasPrior, ok := prior, prior, true, true;
      if |samples| >= refitEvery { ok := Refit(); }
    }

    /** The best fit of other samples, with a ridge of its own; refused for a prior of the wrong length. */
    method Fit(others: seq<Sample>) returns (c: Option<Row>)
      requires Valid() && Wide(others)
      ensures c.None? <==> |prior| != FEATURES
      ensures c.Some? ==>
        var ridge', all := if hasPrior then 5.0 else 0.000001, AllClipped(others, clip);
        Refitted(all, ridge', prior, c.value) || (c.value == prior && (others == [] || RefitStuck(all, ridge', prior)))
    {
      var made := NewPredictor(
        if hasPrior then Some(prior) else None, if others == [] then 1 else |others|, 50,
        if hasPrior then 5.0 else 0.000001, clip);
      if made.None? { return None; }
      var probe := made.value;
      for i := 0 to |others|
        invariant fresh(probe) && probe.Valid() && probe.coef == prior && probe.prior == prior
        invariant probe.samples == AllClipped(others[..i], clip)
      {
        assert others[..i + 1] == others[..i] + [others[i]];
        assert AllClipped(others[..i + 1], clip) == AllClipped(others[..i], clip) + [others[i].(y := Clipped(others[i].y, clip))];
        probe.samples := Latest(probe.samples + [Sample(others[i].x, Clipped(others[i].y, clip))], probe.window);
      }
      assert others[..|others|] == others && prior[..FEATURES] == prior;
      if probe.samples != [] { var ok := probe.Refit(); }
      c := Some(probe.coef);
    }
  }

  /** The factory refuses a prior of the wrong length. */
  method NewPredictor(prior: Option<Row>, window: nat, refitEvery: nat, ridge: real, clip: Option<real>)
    returns (p: Option<TtftPredictor>)
    ensures p.Some? <==> (prior.Some? ==> |prior.value| == FEATURES)
    ensures p.Some? ==> fresh(p.value) && p.value.Valid() && p.value.hasPrior == prior.Some? && p.value.samples == []
    ensures p.Some? ==> p.value.prior == p.value.coef == if prior.Some? then prior.value else ZEROS
    ensures p.Some? ==> p.value.window == window && p.value.ridge == ridge && p.value.clip == clip
  {
    if prior.Some? && |prior.value| != FEATURES { return None; }
    var made := new TtftPredictor(prior, window, refitEvery, ridge, clip);
    p := Some(made);
  }
}
