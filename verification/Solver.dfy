/**
  The cluster solver without the predictor: what one group carries at a clock point, how groups
  are packed, and which configuration is the cheapest.
*/
module Solver {
  import opened Groups
  import opened Options
  import opened Reals
  import opened Sorting

  datatype Request = Request(prompt: nat, output: nat)

  /** The measured model; its table lookups are functions. None stands for a limit that is not set. */
  datatype Model = Model(
    cost: (nat, nat) -> real,               // prefill ms at a P clock, by length
    residence: nat -> real,                 // idle TTFT minus prefill, by length
    alpha: nat -> real, delta: nat -> real, // decode iteration at a D clock
    bStar: nat -> Option<real>,             // clean concurrency at a D clock
    busyPower: (ClockPoint, real, real) -> real,
    rhoPrefill: real, ttftSlo: real, tpotSlo: real, kvPerToken: real,
    kvGate: Option<real>, kvCapacity: Option<real>, caps: map<ClockPoint, real>, parkPower: real)

  /** Non-negative costs and decode fits. */
  ghost predicate CostsOk(m: Model, point: ClockPoint) {
    && (forall l: nat :: m.cost(point.prefillMhz, l) >= 0.0) && (forall l: nat :: m.residence(l) >= 0.0)
    && m.alpha(point.decodeMhz) >= 0.0 && m.delta(point.decodeMhz) >= 0.0 && m.kvPerToken >= 0.0
  }

  function Sum(q: seq<real>): real { if q == [] then 0.0 else Sum(q[..|q| - 1]) + q[|q| - 1] }

  function Mean(q: seq<real>): real { if q == [] then 0.0 else Sum(q) / |q| as real }

  lemma {:induction false} SumPositive(q: seq<real>)
    requires forall i :: 0 <= i < |q| ==> q[i] >= 0.0
    ensures Sum(q) >= 0.0
  {
    if q != [] { SumPositive(q[..|q| - 1]); }
  }

  lemma MeanPositive(q: seq<real>)
    requires forall i :: 0 <= i < |q| ==> q[i] >= 0.0
    ensures Mean(q) >= 0.0
  {
    SumPositive(q);
    if q != [] {
      var n := |q| as real;
      assert Mean(q) * n == Sum(q);
      Cancel(n, 0.0, Mean(q));
    }
  }

  function Costs(m: Model, mix: seq<Request>, point: ClockPoint): seq<real> {
    seq(|mix|, i requires 0 <= i < |mix| => m.cost(point.prefillMhz, mix[i].prompt))
  }

  function Outputs(mix: seq<Request>): seq<real> { seq(|mix|, i requires 0 <= i < |mix| => mix[i].output as real) }

  function Contexts(mix: seq<Request>): seq<real> {
    seq(|mix|, i requires 0 <= i < |mix| => (mix[i].prompt + mix[i].output) as real)
  }

  function Transfers(m: Model, mix: seq<Request>): seq<real> {
    seq(|mix|, i requires 0 <= i < |mix| => mix[i].prompt as real * m.kvPerToken * m.residence(mix[i].prompt))
  }

  /** Each constraint's load over its limit; None is infinite. */
  datatype Use = Use(prefill: Option<real>, decode: Option<real>, kv: Option<real>, ttft: real, cap: Option<real>)

  /** Running sequences by Little's law with a step time that grows with them; None when that diverges. */
  function Running(load: real, alpha: real, delta: real): Option<real> {
    if load * delta >= 1.0 then None else Some(load * alpha / (1.0 - load * delta))
  }

  function Least(a: Option<real>, b: Option<real>): Option<real> {
    if a.None? then b else if b.None? then a else if a.value < b.value then a else b
  }

  /** The most sequences one D may hold: KV cache, clean concurrency, TPOT. */
  function MostRunning(m: Model, mix: seq<Request>, point: ClockPoint): Option<real> {
    var context := Mean(Contexts(mix));
    var kv := if m.kvCapacity.Some? && context != 0.0 then Some(m.kvCapacity.value / context) else None;
    var delta := m.delta(point.decodeMhz);
    var tpot := if delta > 0.0 then Some((m.tpotSlo - m.alpha(point.decodeMhz)) / delta) else None;
    Least(Least(kv, m.bStar(point.decodeMhz)), tpot)
  }

  function Over(x: real, limit: real): Option<real> { if limit > 0.0 then Some(x / limit) else None }

  function DecodeUse(running: Option<real>, most: Option<real>): Option<real> {
    if most.None? then (if running.None? then None else Some(0.0))
    else if running.None? then None
    else Over(running.value, most.value)
  }

  function Longest(mix: seq<Request>): nat {
    if mix == [] then 0 else
      var rest := Longest(mix[..|mix| - 1]);
      if rest < mix[|mix| - 1].prompt then mix[|mix| - 1].prompt else rest
  }

  // ---- the representatives of a mix ------------------------------------------------------------

  /** Requests are compared by prompt, then by output. */
  predicate LeRequest(a: Request, b: Request) { a.prompt < b.prompt || (a.prompt == b.prompt && a.output <= b.output) }

  const MIX_POINTS: nat := 16

  /** The request in the middle of share `i` of the sorted mix; of the last share, the longest one. */
  function Representative(kept: seq<Request>, i: nat): Request
    requires i < MIX_POINTS < |kept|
  {
    MiddleInRange(i, |kept|);
    if i == MIX_POINTS - 1 then kept[|kept| - 1] else kept[(2 * i + 1) * |kept| / (2 * MIX_POINTS)]
  }

  lemma MiddleInRange(i: nat, n: nat)
    requires i < MIX_POINTS && n > 0
    ensures 0 <= (2 * i + 1) * n / (2 * MIX_POINTS) < n
  {
    assert (2 * i + 1) * n <= 31 * n by { assert (31 - (2 * i + 1)) * n >= 0; }
  }

  /** A small mix as it is; of a large one, its quantiles. */
  function Reduced(kept: seq<Request>): seq<Request> {
    if |kept| <= MIX_POINTS then kept else seq(MIX_POINTS, i requires 0 <= i < MIX_POINTS => Representative(kept, i))
  }

  function Mix(mix: seq<Request>): seq<Request> { Reduced(Sort(mix, LeRequest)) }

  lemma {:induction false} LongestIs(mix: seq<Request>)
    ensures forall r :: r in mix ==> r.prompt <= Longest(mix)
    ensures mix != [] ==> exists r :: r in mix && r.prompt == Longest(mix)
  {
    if mix != [] {
      var k := |mix| - 1;
      LongestIs(mix[..k]);
      assert mix == mix[..k] + [mix[k]] && mix[k] in mix;
    }
  }

  lemma SortedMix(mix: seq<Request>)
    ensures var kept := Sort(mix, LeRequest);
      && Sorted(kept, LeRequest) && |kept| == |mix| && (forall r :: r in kept <==> r in mix)
  {
    var kept := Sort(mix, LeRequest);
    SortSorted(mix, LeRequest);
    forall r ensures r in kept <==> r in mix { assert r in multiset(kept) <==> r in kept; }
  }

  lemma SampleOf(kept: seq<Request>)
    ensures forall r :: r in Reduced(kept) ==> r in kept
  {
    if |kept| > MIX_POINTS {
      forall i: nat | i < MIX_POINTS ensures Representative(kept, i) in kept { MiddleInRange(i, |kept|); }
    }
  }

  lemma LastKept(kept: seq<Request>)
    requires kept != []
    ensures kept[|kept| - 1] in Reduced(kept)
  {
    if |kept| > MIX_POINTS { assert Reduced(kept)[MIX_POINTS - 1] == kept[|kept| - 1]; }
  }

  lemma LongestLast(kept: seq<Request>)
    requires kept != [] && Sorted(kept, LeRequest)
    ensures Longest(kept) == kept[|kept| - 1].prompt
  {
    var last := kept[|kept| - 1];
    LongestIs(kept);
    assert last in kept;
    var r :| r in kept && r.prompt == Longest(kept);
    var i :| 0 <= i < |kept| && kept[i] == r;
    assert i < |kept| - 1 ==> LeRequest(kept[i], last);
  }

  lemma SameLongest(a: seq<Request>, b: seq<Request>, last: Request)
    requires (forall r :: r in a ==> r in b) && last in a && Longest(b) == last.prompt
    ensures Longest(a) == Longest(b)
  {
    LongestIs(a);
    LongestIs(b);
  }

  lemma ReducedLongest(kept: seq<Request>)
    requires Sorted(kept, LeRequest)
    ensures Longest(Reduced(kept)) == Longest(kept)
  {
    if kept != [] {
      SampleOf(kept);
      LastKept(kept);
      LongestLast(kept);
      SameLongest(Reduced(kept), kept, kept[|kept| - 1]);
    }
  }

  /** The representatives are few, requests of the mix, and a rare longest prompt is never lost. */
  lemma MixKeeps(mix: seq<Request>)
    ensures |Mix(mix)| == if |mix| <= MIX_POINTS then |mix| else MIX_POINTS
    ensures |mix| <= MIX_POINTS ==> multiset(Mix(mix)) == multiset(mix)
    ensures forall r :: r in Mix(mix) ==> r in mix
    ensures Longest(Mix(mix)) == Longest(mix)
  {
    SortedMix(mix);
    SampleOf(Sort(mix, LeRequest));
    ReducedLongest(Sort(mix, LeRequest));
    SameMost(Sort(mix, LeRequest), mix);
  }

  lemma SameMost(a: seq<Request>, b: seq<Request>)
    requires |a| == |b| && forall r :: r in a <==> r in b
    ensures Longest(a) == Longest(b)
  {
    LongestIs(a);
    LongestIs(b);
  }

  /** What the constraints compare with, at one clock point and one mix. */
  datatype Limits = Limits(
    rhoPrefill: real, alpha: real, delta: real, most: Option<real>, gate: Option<real>, ttftUse: real, cap: Option<real>)

  function LimitsOf(m: Model, mix: seq<Request>, point: ClockPoint): Limits {
    var top := Longest(mix);
    Limits(
      m.rhoPrefill, m.alpha(point.decodeMhz), m.delta(point.decodeMhz), MostRunning(m, mix, point),
      if m.kvGate.Some? && m.kvGate.value != 0.0 then m.kvGate else None,
      if m.ttftSlo != 0.0 then (m.cost(point.prefillMhz, top) + m.residence(top)) / m.ttftSlo else 0.0,
      if point in m.caps then Some(m.caps[point]) else None)
  }

  function UseOf(k: Limits, rho: real, load: real, inflight: real, r: real): Use {
    Use(
      Over(rho, k.rhoPrefill),
      DecodeUse(Running(load, k.alpha, k.delta), k.most),
      if k.gate.Some? && k.gate.value != 0.0 then Some(inflight / k.gate.value) else Some(0.0),
      k.ttftUse,
      if k.cap.Some? then Over(r, k.cap.value) else Some(0.0))
  }

  /** The use of one group at `r` requests per second. */
  function UseAt(m: Model, mix: seq<Request>, point: ClockPoint, r: real): Use {
    UseOf(
      LimitsOf(m, mix, point), PerMs(r, Mean(Costs(m, mix, point))), PerMs(r, Mean(Outputs(mix))),
      PerMs(r, Mean(Transfers(m, mix))), r)
  }

  /** `mean` per request, at `r` requests per second: so much per ms. */
  function PerMs(r: real, mean: real): real { r * mean / 1000.0 }

  /** Every constraint within its limit; a verified cap is strict. */
  predicate Fits(u: Use) {
    && u.prefill.Some? && u.prefill.value <= 1.0 && u.decode.Some? && u.decode.value <= 1.0
    && u.kv.Some? && u.kv.value <= 1.0 && u.ttft <= 1.0 && u.cap.Some? && u.cap.value < 1.0
  }

  predicate Feasible(m: Model, mix: seq<Request>, point: ClockPoint, r: real) { Fits(UseAt(m, mix, point, r)) }

  // ---- less load is no harder ------------------------------------------------------------------

  lemma Quotients(x: real, y: real, c: real)
    requires x <= y && c > 0.0
    ensures x / c <= y / c
  {
    assert x / c * c == x && y / c * c == y;
    Cancel(c, x / c, y / c);
  }

  lemma Scaled(r: real, r': real, k: real)
    requires 0.0 <= r <= r' && k >= 0.0
    ensures 0.0 <= PerMs(r, k) <= PerMs(r', k)
  {
    NotNegative(r, k);
    NotNegative(r' - r, k);
    assert (r' - r) * k == r' * k - r * k;
  }

  lemma OverMonotone(x: real, y: real, limit: real)
    requires x <= y
    ensures Over(y, limit).Some? ==> Over(x, limit).Some? && Over(x, limit).value <= Over(y, limit).value
  {
    if limit > 0.0 { Quotients(x, y, limit); }
  }

  lemma RunningMonotone(l: real, l': real, a: real, d: real)
    requires 0.0 <= l <= l' && a >= 0.0 && d >= 0.0 && Running(l', a, d).Some?
    ensures Running(l, a, d).Some? && 0.0 <= Running(l, a, d).value <= Running(l', a, d).value
  {
    NotNegative(l' - l, d);
    NotNegative(l, d);
    assert (l' - l) * d == l' * d - l * d;
    var w, w' := 1.0 - l * d, 1.0 - l' * d;
    NotNegative(l, a);
    NotNegative(l' - l, a);
    assert (l' - l) * a == l' * a - l * a;
    var x, x' := l * a / w, l' * a / w';
    assert x * w == l * a && x' * w' == l' * a;
    Cancel(w, 0.0, x);
    NotNegative(x, w - w');
    assert x * (w - w') == x * w - x * w';
    Cancel(w', x, x');
  }

  lemma DecodeMonotone(x: Option<real>, y: Option<real>, most: Option<real>)
    requires y.Some? ==> x.Some? && x.value <= y.value
    ensures DecodeUse(y, most).Some? ==>
      DecodeUse(x, most).Some? && DecodeUse(x, most).value <= DecodeUse(y, most).value
  {
    if y.Some? && most.Some? { OverMonotone(x.value, y.value, most.value); }
  }

  /** What one group carries at a rate it carries at every lower one. */
  lemma FeasibleDownward(m: Model, mix: seq<Request>, point: ClockPoint, r: real, r': real)
    requires CostsOk(m, point) && (m.kvGate.Some? ==> m.kvGate.value >= 0.0)
    requires 0.0 <= r <= r' && Feasible(m, mix, point, r')
    ensures Feasible(m, mix, point, r)
  {
    MeanPositive(Costs(m, mix, point));
    MeanPositive(Outputs(mix));
    TransfersPositive(m, mix, point);
    MeanPositive(Transfers(m, mix));
    Scaled(r, r', Mean(Costs(m, mix, point)));
    Scaled(r, r', Mean(Outputs(mix)));
    Scaled(r, r', Mean(Transfers(m, mix)));
    UseDownward(
      LimitsOf(m, mix, point), PerMs(r, Mean(Costs(m, mix, point))), PerMs(r', Mean(Costs(m, mix, point))),
      PerMs(r, Mean(Outputs(mix))), PerMs(r', Mean(Outputs(mix))),
      PerMs(r, Mean(Transfers(m, mix))), PerMs(r', Mean(Transfers(m, mix))), r, r');
  }

  lemma UseDownward(
    k: Limits, rho: real, rho': real, load: real, load': real, inflight: real, inflight': real, r: real, r': real)
    requires rho <= rho' && 0.0 <= load <= load' && inflight <= inflight' && r <= r'
    requires k.alpha >= 0.0 && k.delta >= 0.0 && (k.gate.Some? ==> k.gate.value >= 0.0)
    requires Fits(UseOf(k, rho', load', inflight', r'))
    ensures Fits(UseOf(k, rho, load, inflight, r))
  {
    OverMonotone(rho, rho', k.rhoPrefill);
    if Running(load', k.alpha, k.delta).Some? { RunningMonotone(load, load', k.alpha, k.delta); }
    DecodeMonotone(Running(load, k.alpha, k.delta), Running(load', k.alpha, k.delta), k.most);
    if k.gate.Some? && k.gate.value != 0.0 { Quotients(inflight, inflight', k.gate.value); }
    if k.cap.Some? { OverMonotone(r, r', k.cap.value); }
  }

  lemma TransfersPositive(m: Model, mix: seq<Request>, point: ClockPoint)
    requires CostsOk(m, point)
    ensures forall i :: 0 <= i < |mix| ==> Transfers(m, mix)[i] >= 0.0
  {
    forall i | 0 <= i < |mix| ensures Transfers(m, mix)[i] >= 0.0 {
      NotNegative(mix[i].prompt as real, m.kvPerToken);
      NotNegative(mix[i].prompt as real * m.kvPerToken, m.residence(mix[i].prompt));
    }
  }

  // ---- the capacity of one group ---------------------------------------------------------------

  function Pow2(n: nat): real { if n == 0 then 1.0 else 2.0 * Pow2(n - 1) }

  lemma {:induction false} Pow2Positive(n: nat)
    ensures Pow2(n) >= 1.0
  {
    if n > 0 { Pow2Positive(n - 1); }
  }

  /** A feasible rate, with an infeasible one (or the end of the search) within one bisection step above it. */
  ghost predicate IsCapacity(f: real -> bool, c: real) {
    && c >= 0.0
    && (if f(0.0) then f(c) else c == 0.0)
    && (f(0.0) ==> exists d: nat, hi: real :: Bracket(f, c, d, hi))
  }

  ghost predicate Bracket(f: real -> bool, c: real, d: nat, hi: real) {
    && d <= 30 && c < hi <= Pow2(d) && Halved(hi - c, 24, Pow2(d))
    && (d < 30 || hi < Pow2(d) ==> !f(hi))
  }

  /** `w` is `top` halved `k` times. */
  ghost predicate Halved(w: real, k: nat, top: real) { w * Pow2(k) == top }

  lemma Halving(w: real, k: nat, top: real)
    requires Halved(w, k, top)
    ensures Halved(w / 2.0, k + 1, top)
  {
    assert (w / 2.0) * (2.0 * Pow2(k)) == w * Pow2(k);
  }

  /** One bisection step keeps a feasible lower end. */
  method Halve(f: real -> bool, lo0: real, hi0: real) returns (lo: real, hi: real)
    requires lo0 < hi0 && f(lo0)
    ensures lo0 <= lo < hi <= hi0 && f(lo) && hi - lo == (hi0 - lo0) / 2.0
    ensures hi == hi0 || !f(hi)
  {
    var mid := (lo0 + hi0) / 2.0;
    if f(mid) { lo, hi := mid, hi0; } else { lo, hi := lo0, mid; }
  }

  method Bisect(f: real -> bool, d: nat, top: real) returns (lo: real, ghost end: real)
    requires d <= 30 && top == Pow2(d) && f(0.0) && (d < 30 ==> !f(top))
    ensures f(lo) && lo >= 0.0 && Bracket(f, lo, d, end)
  {
    Pow2Positive(d);
    var hi := top;
    lo := 0.0;
    ghost var w := top;
    for k := 0 to 24
      invariant 0.0 <= lo < hi <= top && f(lo)
      invariant hi - lo == w && Halved(w, k, top)
      invariant d < 30 || hi < top ==> !f(hi)
    {
      Halving(w, k, top);
      lo, hi := Halve(f, lo, hi);
      w := w / 2.0;
    }
    end := hi;
  }

  /** Doubling until it is too much, then bisection. */
  method Search(f: real -> bool) returns (lo: real)
    ensures IsCapacity(f, lo)
  {
    if !f(0.0) { return 0.0; }
    var hi := 1.0;
    var d: nat := 0;
    while d < 30 && f(hi)
      invariant d <= 30 && hi == Pow2(d)
      decreases 30 - d
    {
      hi := hi * 2.0;
      d := d + 1;
    }
    ghost var top;
    lo, top := Bisect(f, d, hi);
  }

  // ---- packing -----------------------------------------------------------------------------------

  /** Feasibility of one group as a function of its rate. */
  function Carries(m: Model, mix: seq<Request>, point: ClockPoint): real -> bool {
    r => Feasible(m, mix, point, r)
  }

  /** Groups are filled to `capacity` in turn; the last one takes the rest. */
  ghost predicate Packed(rates: seq<real>, rate: real, n: nat, capacity: real) {
    && |rates| == n && Sum(rates) == rate
    && (forall i :: 0 <= i < n ==> rates[i] >= 0.0)
    && (forall i :: 0 <= i < n - 1 ==> rates[i] <= capacity)
    && (forall i, j :: 0 <= i < j < n && rates[j] > 0.0 ==> rates[i] == capacity)
  }

  lemma SumAppend(q: seq<real>, x: real)
    ensures Sum(q + [x]) == Sum(q) + x
  {
    assert (q + [x])[..|q|] == q;
  }

  method Pack(rate: real, n: nat, capacity: real) returns (rates: seq<real>)
    requires n >= 1 && rate >= 0.0 && capacity >= 0.0
    ensures Packed(rates, rate, n, capacity)
  {
    var remaining := rate;
    rates := [];
    for i := 0 to n
      invariant |rates| == i && Sum(rates) + remaining == rate && remaining >= 0.0
      invariant i == n ==> remaining == 0.0
      invariant forall k :: 0 <= k < i ==> rates[k] >= 0.0
      invariant forall k :: 0 <= k < i && k < n - 1 ==> rates[k] <= capacity
      invariant forall k :: 0 <= k < i && remaining > 0.0 ==> rates[k] == capacity
      invariant forall j, k :: 0 <= j < k < i && rates[k] > 0.0 ==> rates[j] == capacity
    {
      var r := if i == n - 1 then remaining else if remaining < capacity then remaining else capacity;
      SumAppend(rates, r);
      rates := rates + [r];
      remaining := remaining - r;
    }
  }

  lemma {:induction false} AllFull(rates: seq<real>, capacity: real)
    requires forall i :: 0 <= i < |rates| ==> rates[i] == capacity
    ensures Sum(rates) == |rates| as real * capacity
  {
    if rates != [] {
      var k := |rates| - 1;
      AllFull(rates[..k], capacity);
      assert (k as real + 1.0) * capacity == k as real * capacity + capacity;
    }
  }

  /** When the groups together can carry the rate, none of them gets more than it carries. */
  lemma PackedWithin(rates: seq<real>, rate: real, n: nat, capacity: real)
    requires n >= 1 && Packed(rates, rate, n, capacity) && rate <= n as real * capacity && capacity >= 0.0
    ensures forall i :: 0 <= i < n ==> rates[i] <= capacity
  {
    var k := n - 1;
    if rates[k] > capacity {
      AllFull(rates[..k], capacity);
      assert Sum(rates) == Sum(rates[..k]) + rates[k];
      assert n as real * capacity == k as real * capacity + capacity by {
        assert (k as real + 1.0) * capacity == k as real * capacity + capacity;
      }
    }
  }

  /** A rate that `n` capacities cover is carried by every group it is packed into. */
  lemma PackingFeasible(m: Model, mix: seq<Request>, point: ClockPoint, rates: seq<real>, rate: real, n: nat, capacity: real)
    requires CostsOk(m, point) && (m.kvGate.Some? ==> m.kvGate.value >= 0.0)
    requires IsCapacity(Carries(m, mix, point), capacity) && Feasible(m, mix, point, 0.0)
    requires n >= 1 && Packed(rates, rate, n, capacity) && rate <= n as real * capacity
    ensures forall i :: 0 <= i < n ==> Feasible(m, mix, point, rates[i])
  {
    PackedWithin(rates, rate, n, capacity);
    assert Carries(m, mix, point)(0.0) && Carries(m, mix, point)(capacity);
    forall i | 0 <= i < n ensures Feasible(m, mix, point, rates[i]) {
      FeasibleDownward(m, mix, point, rates[i], capacity);
    }
  }

  ghost predicate AllCarried(m: Model, mix: seq<Request>, point: ClockPoint, rates: seq<real>) {
    forall i :: 0 <= i < |rates| ==> Carries(m, mix, point)(rates[i])
  }

  /** Packing a rate that `n` capacities cover succeeds exactly when a group without load is feasible. */
  lemma PackingExactly(m: Model, mix: seq<Request>, point: ClockPoint, rates: seq<real>, rate: real, n: nat, capacity: real)
    requires CostsOk(m, point) && (m.kvGate.Some? ==> m.kvGate.value >= 0.0)
    requires IsCapacity(Carries(m, mix, point), capacity)
    requires n >= 1 && Packed(rates, rate, n, capacity) && rate <= n as real * capacity
    ensures AllCarried(m, mix, point, rates) <==> Feasible(m, mix, point, 0.0)
  {
    if Feasible(m, mix, point, 0.0) {
      PackingFeasible(m, mix, point, rates, rate, n, capacity);
    } else {
      PackedWithin(rates, rate, n, capacity);
      assert !Carries(m, mix, point)(0.0) && rates[0] == 0.0;
    }
  }

  // ---- evaluation --------------------------------------------------------------------------------

  datatype Evaluation = Evaluation(n: nat, point: ClockPoint, feasible: bool, power: real, rates: seq<real>)

  /** Power of one active group at its own rate. */
  function ActivePower(m: Model, mix: seq<Request>, point: ClockPoint, r: real): real {
    var rho := PerMs(r, Mean(Costs(m, mix, point)));
    var running := Running(PerMs(r, Mean(Outputs(mix))), m.alpha(point.decodeMhz), m.delta(point.decodeMhz));
    m.busyPower(
      point, if rho < 1.0 then rho else 1.0,
      if running.None? then 1.0 else if running.value < 1.0 then running.value else 1.0)
  }

  /** The power of one active group as a function of its rate. */
  function Powers(m: Model, mix: seq<Request>, point: ClockPoint): real -> real {
    r => ActivePower(m, mix, point, r)
  }

  function Total(w: real -> real, rates: seq<real>): real {
    if rates == [] then 0.0 else Total(w, rates[..|rates| - 1]) + w(rates[|rates| - 1])
  }

  /** The groups together: all must carry their rate; each one's power counts without the parked ones beside it. */
  method Together(f: real -> bool, w: real -> real, rates: seq<real>, parked: real) returns (feasible: bool, power: real)
    ensures feasible <==> forall i :: 0 <= i < |rates| ==> f(rates[i])
    ensures power == Total(w, rates)
  {
    feasible, power := true, 0.0;
    for i := 0 to |rates|
      invariant feasible <==> forall k :: 0 <= k < i ==> f(rates[k])
      invariant power == Total(w, rates[..i])
    {
      assert rates[..i + 1][..i] == rates[..i];
      var alone := w(rates[i]) + parked;
      power := power + (alone - parked);
      feasible := feasible && f(rates[i]);
    }
    assert rates[..|rates|] == rates;
  }

  /** `rate` packed into `n` groups of this capacity; all must carry their share, and the parked ones count. */
  ghost predicate IsEvaluation(
    m: Model, groups: nat, mix: seq<Request>, point: ClockPoint, e: Evaluation, rate: real, n: nat, capacity: real)
  {
    && e.n == n && e.point == point && Packed(e.rates, rate, n, capacity)
    && (e.feasible <==> AllCarried(m, mix, point, e.rates))
    && e.power == Total(Powers(m, mix, point), e.rates) + (groups as real - n as real) * m.parkPower
  }

  /** A rate that `n` capacities cover is feasible exactly when a group without load is. */
  lemma EvaluationExactly(
    m: Model, groups: nat, mix: seq<Request>, point: ClockPoint, e: Evaluation, rate: real, n: nat, capacity: real)
    requires CostsOk(m, point) && (m.kvGate.Some? ==> m.kvGate.value >= 0.0)
    requires n >= 1 && IsEvaluation(m, groups, mix, point, e, rate, n, capacity)
    requires IsCapacity(Carries(m, mix, point), capacity) && rate <= n as real * capacity
    ensures e.feasible <==> Feasible(m, mix, point, 0.0)
  {
    PackingExactly(m, mix, point, e.rates, rate, n, capacity);
  }

  class ClusterSolver {
    const m: Model
    const groups: nat
    var capacities: map<(ClockPoint, seq<Request>), real>

    /** What is remembered is what a search would find. */
    ghost predicate Valid()
      reads this
    {
      forall k :: k in capacities ==> IsCapacity(Carries(m, k.1, k.0), capacities[k])
    }

    constructor (m: Model, groups: nat)
      ensures Valid() && capacities == map[] && this.m == m && this.groups == groups
    {
      this.m, this.groups, capacities := m, groups, map[];
    }

    method Capacity(mix: seq<Request>, point: ClockPoint) returns (c: real)
      requires Valid()
      modifies this`capacities
      ensures Valid() && IsCapacity(Carries(m, Mix(mix), point), c)
      ensures (point, Mix(mix)) in capacities && c == capacities[(point, Mix(mix))]
      ensures (point, Mix(mix)) in old(capacities) ==> capacities == old(capacities)
    {
      var key := (point, Mix(mix));
      if key !in capacities {
        var found := Search(Carries(m, Mix(mix), point));
        capacities := capacities[key := found];
      }
      c := capacities[key];
    }

    /** The rate packed into `n` active groups; the others are parked. None for a call that is refused. */
    method Evaluate(rate: real, mix: seq<Request>, n: nat, point: ClockPoint) returns (e: Option<Evaluation>)
      requires Valid()
      modifies this`capacities
      ensures Valid()
      ensures e.None? <==> n < 1 || rate < 0.0 || mix == []
      ensures e.Some? ==>
        && (point, Mix(mix)) in capacities
        && IsEvaluation(m, groups, Mix(mix), point, e.value, rate, n, capacities[(point, Mix(mix))])
    {
      if n < 1 || rate < 0.0 || mix == [] { return None; }
      var capacity := Capacity(mix, point);
      var rates := Pack(rate, n, capacity);
      var feasible, power := Together(
        Carries(m, Mix(mix), point), Powers(m, Mix(mix), point), rates, (groups as real - 1.0) * m.parkPower);
      e := Some(Evaluation(n, point, feasible, power + (groups as real - n as real) * m.parkPower, rates));
    }
  }

  /** The cheaper one; the smaller one when they cost the same. */
  predicate Cheaper(a: Evaluation, b: Evaluation) { a.power < b.power || (a.power == b.power && a.n < b.n) }

  /** The first of the cheapest feasible evaluations, when there is a feasible one. */
  method Best(evals: seq<Evaluation>) returns (k: Option<nat>)
    ensures k.None? <==> forall i :: 0 <= i < |evals| ==> !evals[i].feasible
    ensures k.Some? ==> k.value < |evals| && evals[k.value].feasible
    ensures k.Some? ==> forall i :: 0 <= i < |evals| && evals[i].feasible ==> !Cheaper(evals[i], evals[k.value])
    ensures k.Some? ==> forall i :: 0 <= i < k.value && evals[i].feasible ==> Cheaper(evals[k.value], evals[i])
  {
    k := None;
    for j := 0 to |evals|
      invariant k.None? <==> forall i :: 0 <= i < j ==> !evals[i].feasible
      invariant k.Some? ==> k.value < j && evals[k.value].feasible
      invariant k.Some? ==> forall i :: 0 <= i < j && evals[i].feasible ==> !Cheaper(evals[i], evals[k.value])
      invariant k.Some? ==> forall i :: 0 <= i < k.value && evals[i].feasible ==> Cheaper(evals[k.value], evals[i])
    {
      if evals[j].feasible && (k.None? || Cheaper(evals[j], evals[k.value])) { k := Some(j); }
    }
  }
}
