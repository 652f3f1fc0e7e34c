/** The one-sided Wilson upper confidence bound of a violation rate, and what its users rely on. */
module Wilson {
  import opened Reals

  type Root = real -> real

  /** The square root, passed in as a function of the reals. */
  ghost predicate IsSqrt(root: Root) {
    forall x: real :: x >= 0.0 ==> root(x) >= 0.0 && root(x) * root(x) == x
  }

  function Half(p: real, m: real, z: real, root: Root): real
    requires m > 0.0
  {
    z * root(p * (1.0 - p) / m + z * z / (4.0 * m * m))
  }

  lemma Denominator(z: real, m: real)
    requires m > 0.0
    ensures 1.0 + z * z / m > 0.0
  {
    var q := z * z / m;
    assert q * m == z * z;
    assert z * z >= 0.0;
    Cancel(m, 0.0, q);
  }

  /** The admission's copy. */
  function WilsonUcb(violated: nat, n: nat, z: real, root: Root): real {
    if n == 0 then 1.0 else
      var m := n as real;
      var p := violated as real / m;
      var d := 1.0 + z * z / m;
      var c := p + z * z / (2.0 * m);
      var s := Half(p, m, z, root);
      assert d != 0.0 by { Denominator(z, m); }
      (c + s) / d
  }

  /** The locator's copy: bounded by 1, and 1 without samples. */
  function LocatorUcb(k: int, n: int, z: real, root: Root): real {
    if n <= 0 then 1.0 else
      var m := n as real;
      var p := k as real / m;
      var den := 1.0 + z * z / m;
      var centre := p + z * z / (2.0 * m);
      var half := Half(p, m, z, root);
      assert den != 0.0 by { Denominator(z, m); }
      var u := (centre + half) / den;
      if u < 1.0 then u else 1.0
  }

  // ---- the bound in terms of the rate p and q = z * z / n -----------------------------------

  /** `u` is the bound for the rate `p`; `h` is the half width before scaling. */
  ghost predicate Bound(p: real, q: real, h: real, u: real) {
    && 0.0 <= p <= 1.0 && q >= 0.0 && h >= 0.0
    && h * h == q * (p * (1.0 - p)) + q * q / 4.0
    && u * (1.0 + q) == p + q / 2.0 + h
  }

  /** The half width covers the distance to the middle. */
  lemma HalfWidth(p: real, q: real, h: real, u: real)
    requires Bound(p, q, h, u)
    ensures h >= q * (p - 0.5) && h >= q * (0.5 - p)
  {
    var a := q * (p - 0.5);
    var t := p * (1.0 - p);
    NotNegative(p, 1.0 - p);
    NotNegative(q, t);
    NotNegative(q * q, t);
    assert a * a == (q * q) * ((p - 0.5) * (p - 0.5));
    assert (p - 0.5) * (p - 0.5) == 0.25 - t;
    assert (q * q) * (0.25 - t) == q * q / 4.0 - (q * q) * t;
    SquareLess(a, h);
    assert q * (0.5 - p) == -a;
  }

  lemma AboveRate(p: real, q: real, h: real, u: real)
    requires Bound(p, q, h, u)
    ensures p <= u
  {
    HalfWidth(p, q, h, u);
    assert p * (1.0 + q) == p + q * p;
    assert q * (p - 0.5) == q * p - q / 2.0;
    Cancel(1.0 + q, p, u);
  }

  lemma BelowOne(p: real, q: real, h: real, u: real)
    requires Bound(p, q, h, u)
    ensures u <= 1.0
  {
    var e := 1.0 - p;
    var t := e + q / 2.0;
    NotNegative(e, e);
    NotNegative(q, e * e);
    assert t * t == e * e + e * q + q * q / 4.0;
    assert q * (p * e) == q * e - q * (e * e);
    SquareLess(h, t);
    assert u * (1.0 + q) <= 1.0 + q;
    assert 1.0 * (1.0 + q) == 1.0 + q;
    Cancel(1.0 + q, u, 1.0);
  }

  /** The bound lies between the rate and 1. */
  lemma BetweenRateAndOne(p: real, q: real, h: real, u: real)
    requires Bound(p, q, h, u)
    ensures p <= u <= 1.0
  {
    AboveRate(p, q, h, u);
    BelowOne(p, q, h, u);
  }

  /** The bound is a root of the quadratic that defines it: (u - p)^2 = q u (1 - u). */
  lemma RootOfQuadratic(p: real, q: real, h: real, u: real)
    requires Bound(p, q, h, u)
    ensures (u - p) * (u - p) == q * (u * (1.0 - u))
  {
    var a := 1.0 + q;
    var b := p + q / 2.0;
    var v := u * a;
    var x := a * (u * u) - u * (2.0 * p + q) + p * p;
    assert h == v - b;
    assert h * h == v * v - 2.0 * (v * b) + b * b;
    assert b * b == p * p + p * q + q * q / 4.0;
    assert v * v == a * (a * (u * u));
    assert v * b == a * (u * b);
    assert 2.0 * (u * b) == u * (2.0 * p + q);
    assert q * (p * (1.0 - p)) == q * p - q * (p * p);
    assert a * (p * p) == p * p + q * (p * p);
    assert a * x == a * (a * (u * u)) - a * (u * (2.0 * p + q)) + a * (p * p);
    assert a * (u * (2.0 * p + q)) == 2.0 * (a * (u * b));
    assert a * x == 0.0;
    assert a * (-x) == -(a * x);
    if x > 0.0 { Positive(a, x); } else if x < 0.0 { Positive(a, -x); }
    assert x == u * u + q * (u * u) - 2.0 * (u * p) - u * q + p * p;
    assert (u - p) * (u - p) == u * u - 2.0 * (u * p) + p * p;
    assert q * (u * (1.0 - u)) == u * q - q * (u * u);
  }

  /** Between the rate and its bound the quadratic is not above 0. */
  lemma BelowRoot(p: real, q: real, h: real, u: real, x: real)
    requires Bound(p, q, h, u) && p <= x <= u
    ensures (x - p) * (x - p) <= q * (x * (1.0 - x))
  {
    RootOfQuadratic(p, q, h, u);
    HalfWidth(p, q, h, u);
    var a := 1.0 + q;
    NotNegative(x - p, a);
    Slope(p, q, h, u, x);
    NotNegative(u - x, u * a + x * a - (2.0 * p + q));
    Difference(p, q, u, x);
  }

  lemma Slope(p: real, q: real, h: real, u: real, x: real)
    requires u * (1.0 + q) == p + q / 2.0 + h && h >= q * (0.5 - p) && (x - p) * (1.0 + q) >= 0.0
    ensures u * (1.0 + q) + x * (1.0 + q) - (2.0 * p + q) >= 0.0
  {
    assert (x - p) * (1.0 + q) == x * (1.0 + q) - p - q * p;
    assert q * (0.5 - p) == q / 2.0 - q * p;
  }

  /** A higher rate over as many samples has a higher bound. */
  lemma MonotoneInRate(p: real, q: real, h: real, u: real, p': real, h': real, u': real)
    requires Bound(p, q, h, u) && Bound(p', q, h', u') && p < p'
    ensures u <= u'
  {
    BetweenRateAndOne(p', q, h', u');
    RootOfQuadratic(p', q, h', u');
    Product(u' - p, u' - p');
    if u > u' { BelowRoot(p, q, h, u, u'); }
  }

  lemma Difference(p: real, q: real, u: real, v: real)
    ensures ((u - p) * (u - p) - q * (u * (1.0 - u))) - ((v - p) * (v - p) - q * (v * (1.0 - v))) ==
      (u - v) * (u * (1.0 + q) + v * (1.0 + q) - (2.0 * p + q))
  {
    var a := 1.0 + q;
    assert (u - v) * (u * a) == a * (u * u) - a * (u * v);
    assert (u - v) * (v * a) == a * (u * v) - a * (v * v);
    assert (u - v) * (2.0 * p + q) == 2.0 * (u * p) + u * q - 2.0 * (v * p) - v * q;
    assert (u - p) * (u - p) == u * u - 2.0 * (u * p) + p * p;
    assert (v - p) * (v - p) == v * v - 2.0 * (v * p) + p * p;
    assert q * (u * (1.0 - u)) == u * q - q * (u * u);
    assert q * (v * (1.0 - v)) == v * q - q * (v * v);
  }

  // ---- the code's bound ------------------------------------------------------------------------

  function Rate(violated: nat, n: nat): real
    requires n > 0
  {
    violated as real / n as real
  }

  lemma RateInRange(violated: nat, n: nat)
    requires violated <= n && n > 0
    ensures 0.0 <= Rate(violated, n) <= 1.0
  {
    var p, m := Rate(violated, n), n as real;
    assert p * m == violated as real;
    Cancel(m, 0.0, p);
    Cancel(m, p, 1.0);
  }

  lemma RateOrder(a: nat, b: nat, n: nat)
    requires a < b && n > 0
    ensures Rate(a, n) < Rate(b, n)
  {
    var m, x, y := n as real, Rate(a, n), Rate(b, n);
    assert x * m == a as real && y * m == b as real;
    Cancel(m, x, y);
  }

  ghost function HalfOf(violated: nat, n: nat, z: real, root: Root): real
    requires n > 0
  {
    Half(Rate(violated, n), n as real, z, root)
  }

  lemma IsBound(violated: nat, n: nat, z: real, root: Root)
    requires IsSqrt(root) && z >= 0.0 && violated <= n && n > 0
    ensures Bound(Rate(violated, n), z * z / n as real, HalfOf(violated, n, z, root), WilsonUcb(violated, n, z, root))
  {
    RateInRange(violated, n);
    HalfIs(Rate(violated, n), n as real, z, root);
    UcbIs(Rate(violated, n), n as real, z, z * z / n as real, HalfOf(violated, n, z, root));
  }

  lemma Quarter(z: real, m: real, q: real, w: real)
    requires m > 0.0 && z >= 0.0 && q * m == z * z && w * (4.0 * m * m) == z * z
    ensures q >= 0.0 && w >= 0.0 && 4.0 * (w * m) == q
  {
    NotNegative(z, z);
    Cancel(m, 0.0, q);
    var x := 4.0 * (w * m);
    assert x * m == w * (4.0 * m * m);
    Cancel(m, x, q);
    Cancel(m, q, x);
    Cancel(m, 0.0, w);
  }

  /** The half width squared, in terms of the rate and q. */
  lemma HalfIs(p: real, m: real, z: real, root: Root)
    requires IsSqrt(root) && z >= 0.0 && m > 0.0 && 0.0 <= p <= 1.0
    ensures var q, h := z * z / m, Half(p, m, z, root);
      q >= 0.0 && h >= 0.0 && h * h == q * (p * (1.0 - p)) + q * q / 4.0
  {
    var q, w, t := z * z / m, z * z / (4.0 * m * m), p * (1.0 - p) / m;
    assert q * m == z * z && w * (4.0 * m * m) == z * z && t * m == p * (1.0 - p);
    Quarter(z, m, q, w);
    NotNegative(p, 1.0 - p);
    Cancel(m, 0.0, t);
    var r := root(t + w);
    assert r >= 0.0 && r * r == t + w;
    NotNegative(z, r);
    HalfSquared(z, m, p * (1.0 - p), q, t, w, r);
  }

  lemma HalfSquared(z: real, m: real, pp: real, q: real, t: real, w: real, r: real)
    requires m > 0.0 && q * m == z * z && t * m == pp && 4.0 * (w * m) == q && r * r == t + w
    ensures (z * r) * (z * r) == q * pp + q * q / 4.0
  {
    var y := z * z;
    assert (z * r) * (z * r) == y * (r * r);
    assert y * (r * r) == y * t + y * w;
    assert y * t == q * (t * m);
    assert y * w == q * (w * m);
    assert q * (4.0 * (w * m)) == q * q;
  }

  lemma UcbIs(p: real, m: real, z: real, q: real, h: real)
    requires m > 0.0 && q == z * z / m && q >= 0.0
    ensures var d, c := 1.0 + z * z / m, p + z * z / (2.0 * m);
      d != 0.0 && (c + h) / d * (1.0 + q) == p + q / 2.0 + h
  {
    var x := z * z / (2.0 * m);
    assert x * (2.0 * m) == z * z && q * m == z * z;
    assert (2.0 * x) * m == x * (2.0 * m);
    Cancel(m, 2.0 * x, q);
    Cancel(m, q, 2.0 * x);
  }

  /** The bound is never below the rate itself and never above 1. */
  lemma UcbRange(violated: nat, n: nat, z: real, root: Root)
    requires IsSqrt(root) && z >= 0.0 && violated <= n
    ensures n > 0 ==> Rate(violated, n) <= WilsonUcb(violated, n, z, root)
    ensures 0.0 <= WilsonUcb(violated, n, z, root) <= 1.0
  {
    if n > 0 {
      IsBound(violated, n, z, root);
      BetweenRateAndOne(
        Rate(violated, n), z * z / n as real, HalfOf(violated, n, z, root), WilsonUcb(violated, n, z, root));
    }
  }

  /** What the bound means: the rate at which the observed one is `z` deviations low. */
  lemma UcbEquation(violated: nat, n: nat, z: real, root: Root)
    requires IsSqrt(root) && z >= 0.0 && violated <= n && n > 0
    ensures var u, p := WilsonUcb(violated, n, z, root), Rate(violated, n);
      (u - p) * (u - p) == (z * z / n as real) * (u * (1.0 - u))
  {
    IsBound(violated, n, z, root);
    RootOfQuadratic(
      Rate(violated, n), z * z / n as real, HalfOf(violated, n, z, root), WilsonUcb(violated, n, z, root));
  }

  /** More violations among as many requests never lower the bound. */
  lemma UcbMonotone(a: nat, b: nat, n: nat, z: real, root: Root)
    requires IsSqrt(root) && z >= 0.0 && a <= b <= n
    ensures WilsonUcb(a, n, z, root) <= WilsonUcb(b, n, z, root)
  {
    if a < b {
      RateOrder(a, b, n);
      IsBound(a, n, z, root);
      IsBound(b, n, z, root);
      MonotoneInRate(
        Rate(a, n), z * z / n as real, HalfOf(a, n, z, root), WilsonUcb(a, n, z, root),
        Rate(b, n), HalfOf(b, n, z, root), WilsonUcb(b, n, z, root));
    }
  }

  /** The cut at 1 in the locator's copy never bites, so both copies compute the same bound. */
  lemma CopiesAgree(violated: nat, n: nat, z: real, root: Root)
    requires IsSqrt(root) && z >= 0.0 && violated <= n
    ensures LocatorUcb(violated, n, z, root) == WilsonUcb(violated, n, z, root)
  {
    UcbRange(violated, n, z, root);
  }
}
