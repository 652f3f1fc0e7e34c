/** The congestion knee: the lowest level of a signal from which requests clearly violate more. */
module Knee {
  import opened Options
  import opened Reals
  import opened Sorting
  import opened Tallies
  import opened Wilson

  /** Violations per request, 0 without requests. */
  function RateOf(c: Tally): real {
    if c.admitted == 0 then 0.0 else c.violated as real / c.admitted as real
  }

  /** What violations of the block from bin `i` on must exceed: theta and the rate of all bins below. */
  function Floor(cells: seq<Tally>, i: nat, theta: real): real
    requires i <= |cells|
  {
    Max(theta, RateOf(Pool(cells[..i])))
  }

  /** The bin's own rate passes the floor. */
  predicate Hot(c: Tally, floor: real) { c.violated as real > floor * c.admitted as real }

  /** The shortest block from bin `i` that holds enough samples. */
  ghost predicate IsBlock(cells: seq<Tally>, i: nat, e: nat, minSamples: nat) {
    && i < e <= |cells| && Pool(cells[i..e]).admitted >= minSamples
    && forall f :: i < f < e ==> Pool(cells[i..f]).admitted < minSamples
  }

  /** The bins from `i` on are together too sparse to tell. */
  ghost predicate Sparse(cells: seq<Tally>, i: nat, minSamples: nat) {
    i < |cells| && forall f :: i < f <= |cells| ==> Pool(cells[i..f]).admitted < minSamples
  }

  /** The Wilson lower bound of the violation rate. */
  function Lower(c: Tally, root: Root): real
    requires TallyOk(c)
  {
    1.0 - WilsonUcb(c.admitted - c.violated, c.admitted, Z, root)
  }

  ghost predicate TalliesOk(cells: seq<Tally>) { forall i :: 0 <= i < |cells| ==> TallyOk(cells[i]) }

  ghost predicate Passes(cells: seq<Tally>, i: nat, e: nat, theta: real, root: Root)
    requires i <= e <= |cells|
  {
    TallyOk(Pool(cells[i..e])) && Lower(Pool(cells[i..e]), root) > Floor(cells, i, theta)
  }

  /** Bin `i` is neither the start of a passing block nor followed by too few samples. */
  ghost predicate Cold(cells: seq<Tally>, i: nat, theta: real, minSamples: nat, root: Root) {
    exists e: nat :: IsBlock(cells, i, e, minSamples) && !Passes(cells, i, e, theta, root)
  }

  /** The first bin above the floor in the first block that passes it. */
  ghost predicate KneeAt(cells: seq<Tally>, theta: real, minSamples: nat, root: Root, i: nat, e: nat, c: nat) {
    && 0 < i <= c < e && IsBlock(cells, i, e, minSamples) && Passes(cells, i, e, theta, root)
    && Hot(cells[c], Floor(cells, i, theta))
    && (forall d :: i <= d < c ==> !Hot(cells[d], Floor(cells, i, theta)))
    && (forall j :: 0 < j < i ==> Cold(cells, j, theta, minSamples, root))
  }

  /** Every start but the lowest bin is cold, or one of them is sparse before any passes. */
  ghost predicate NoKnee(cells: seq<Tally>, theta: real, minSamples: nat, root: Root) {
    exists n: nat :: NoneUpTo(cells, theta, minSamples, root, n)
  }

  ghost predicate NoneUpTo(cells: seq<Tally>, theta: real, minSamples: nat, root: Root, n: nat) {
    && (n >= |cells| || (n > 0 && Sparse(cells, n, minSamples)))
    && forall j :: 0 < j < n && j < |cells| ==> Cold(cells, j, theta, minSamples, root)
  }

  lemma {:induction false} ColdPool(cells: seq<Tally>, floor: real)
    requires forall i :: 0 <= i < |cells| ==> !Hot(cells[i], floor)
    ensures !Hot(Pool(cells), floor)
  {
    if cells != [] {
      var rest, c := Pool(cells[..|cells| - 1]), cells[|cells| - 1];
      ColdPool(cells[..|cells| - 1], floor);
      assert Joined(rest, c).admitted as real == rest.admitted as real + c.admitted as real;
      assert floor * (rest.admitted as real + c.admitted as real) ==
        floor * rest.admitted as real + floor * c.admitted as real;
    }
  }

  lemma RateNotNegative(c: Tally)
    ensures RateOf(c) >= 0.0
  {
    if c.admitted > 0 {
      var m := c.admitted as real;
      assert RateOf(c) * m == c.violated as real;
      Cancel(m, 0.0, RateOf(c));
    }
  }

  /** The lower bound is never above the rate, so a block that passes the floor is itself hot. */
  lemma PassingIsHot(c: Tally, floor: real, root: Root)
    requires IsSqrt(root) && TallyOk(c) && floor >= 0.0 && Lower(c, root) > floor
    ensures Hot(c, floor)
  {
    var good := c.admitted - c.violated;
    UcbRange(good, c.admitted, Z, root);
    var m := c.admitted as real;
    var g, u := Rate(good, c.admitted), WilsonUcb(good, c.admitted, Z, root);
    assert g * m == good as real;
    NotNegative(u - g, m);
    assert (u - g) * m == u * m - g * m;
    Positive(1.0 - u - floor, m);
    assert (1.0 - u - floor) * m == m - u * m - floor * m;
  }

  /** A block that passes the floor has a bin that does: the search for the first one always succeeds. */
  lemma BlockHasHot(cells: seq<Tally>, i: nat, e: nat, theta: real, root: Root)
    requires IsSqrt(root) && i <= e <= |cells| && Passes(cells, i, e, theta, root)
    ensures exists c :: i <= c < e && Hot(cells[c], Floor(cells, i, theta))
  {
    var floor := Floor(cells, i, theta);
    RateNotNegative(Pool(cells[..i]));
    PassingIsHot(Pool(cells[i..e]), floor, root);
    if forall c :: i <= c < e ==> !Hot(cells[c], floor) {
      assert forall k :: 0 <= k < |cells[i..e]| ==> cells[i..e][k] == cells[i + k];
      ColdPool(cells[i..e], floor);
    }
  }

  lemma HotMeans(c: Tally, floor: real)
    requires floor >= 0.0 && Hot(c, floor) && TallyOk(c)
    ensures c.admitted > 0 && RateOf(c) > floor
  {
    var m := c.admitted as real;
    NotNegative(floor, m);
    assert c.violated as real > 0.0;
    assert RateOf(c) * m == c.violated as real;
    CancelStrict(m, floor, RateOf(c));
  }

  /** A knee lies above the lowest bin, and its own rate exceeds theta and the rate of all bins below its block. */
  lemma KneeMeans(cells: seq<Tally>, theta: real, minSamples: nat, root: Root, i: nat, e: nat, c: nat)
    requires TalliesOk(cells) && KneeAt(cells, theta, minSamples, root, i, e, c)
    ensures c >= 1 && cells[c].admitted > 0
    ensures RateOf(cells[c]) > theta && RateOf(cells[c]) > RateOf(Pool(cells[..i]))
  {
    RateNotNegative(Pool(cells[..i]));
    HotMeans(cells[c], Floor(cells, i, theta));
  }

  /** The observed bins in ascending order, with the seed's and the recorded counts of each added up. */
  ghost predicate Merged(seed: map<int, Tally>, live: map<int, Tally>, bins: seq<int>, cells: seq<Tally>) {
    && Lists(bins, seed.Keys + live.Keys) && |cells| == |bins| && TalliesOk(cells)
    && forall j :: 0 <= j < |bins| ==> cells[j] == Joined(At(seed, bins[j]), At(live, bins[j]))
  }

  ghost predicate IsKnee(
    seed: map<int, Tally>, live: map<int, Tally>, theta: real, minSamples: nat, root: Root, knee: int)
  {
    exists bins: seq<int>, cells: seq<Tally>, i: nat, e: nat, c: nat ::
      Merged(seed, live, bins, cells) && KneeAt(cells, theta, minSamples, root, i, e, c) && knee == bins[c]
  }

  ghost predicate Kneeless(seed: map<int, Tally>, live: map<int, Tally>, theta: real, minSamples: nat, root: Root) {
    exists bins: seq<int>, cells: seq<Tally> ::
      Merged(seed, live, bins, cells) && NoKnee(cells, theta, minSamples, root)
  }

  class KneeCounts {
    const root: Root
    var seed: map<int, Tally>
    var live: map<int, Tally>

    ghost predicate Valid()
      reads this
    {
      && IsSqrt(root)
      && (forall b :: b in seed ==> TallyOk(seed[b])) && (forall b :: b in live ==> TallyOk(live[b]))
    }

    constructor (seed: map<int, Tally>, root: Root)
      requires IsSqrt(root) && forall b :: b in seed ==> TallyOk(seed[b])
      ensures Valid() && this.seed == seed && live == map[] && this.root == root
    {
      this.seed, live, this.root := seed, map[], root;
    }

    method Record(b: int, violated: bool)
      requires Valid()
      modifies this`live
      ensures Valid() && live == old(live)[b := Counted(At(old(live), b), violated)]
    {
      live := live[b := Counted(At(live, b), violated)];
    }

    /** The seed plus what was recorded since, by bin. */
    method Counts() returns (out: map<int, Tally>)
      ensures out.Keys == seed.Keys + live.Keys
      ensures forall b :: b in out ==> out[b] == Joined(At(seed, b), At(live, b))
    {
      out := seed;
      var keys := SortedKeys(live.Keys);
      for i := 0 to |keys|
        invariant forall b :: b in out <==> b in seed || b in keys[..i]
        invariant forall b :: b in out ==> out[b] == if b in keys[..i] then Joined(At(seed, b), live[b]) else seed[b]
      {
        var b := keys[i];
        assert b in keys && b !in keys[..i];
        assert keys[..i + 1] == keys[..i] + [b];
        out := out[b := Joined(At(out, b), live[b])];
      }
      assert keys[..|keys|] == keys;
      assert forall b :: b in out.Keys <==> b in seed.Keys + live.Keys;
    }

    /** The bin at the knee, if the counts show one. */
    method FindKnee(theta: real, minSamples: nat) returns (knee: Option<int>)
      requires Valid()
      ensures knee.Some? ==> IsKnee(seed, live, theta, minSamples, root, knee.value)
      ensures knee.None? ==> Kneeless(seed, live, theta, minSamples, root)
    {
      var counts := Counts();
      var bins := SortedKeys(counts.Keys);
      assert forall j :: 0 <= j < |bins| ==> bins[j] in bins;
      var cells := seq(|bins|, j requires 0 <= j < |bins| && bins[j] in counts => counts[bins[j]]);
      assert Merged(seed, live, bins, cells);
      var c := Search(cells, theta, minSamples, root);
      knee := if c.Some? then Some(bins[c.value]) else None;
    }
  }

  /** The block from bin `i`: its end, and whether it holds enough samples. */
  method Block(cells: seq<Tally>, i: nat, minSamples: nat) returns (e: nat, sum: Tally)
    requires i < |cells|
    ensures i < e <= |cells| && sum == Pool(cells[i..e])
    ensures if sum.admitted >= minSamples then IsBlock(cells, i, e, minSamples) else Sparse(cells, i, minSamples)
  {
    e, sum := i, Tally(0, 0);
    while e < |cells|
      invariant i <= e <= |cells| && sum == Pool(cells[i..e])
      invariant forall f :: i < f <= e ==> Pool(cells[i..f]).admitted < minSamples
    {
      assert cells[i..e + 1] == cells[i..e] + [cells[e]];
      PoolAppend(cells[i..e], cells[e]);
      sum := Joined(sum, cells[e]);
      e := e + 1;
      if sum.admitted >= minSamples { return; }
    }
  }

  method Search(cells: seq<Tally>, theta: real, minSamples: nat, root: Root) returns (knee: Option<nat>)
    requires IsSqrt(root) && TalliesOk(cells)
    ensures knee.Some? ==> exists i: nat, e: nat :: KneeAt(cells, theta, minSamples, root, i, e, knee.value)
    ensures knee.None? ==> NoKnee(cells, theta, minSamples, root)
  {
    var head := Tally(0, 0);
    assert cells[..0] == [];
    for i := 0 to |cells|
      invariant head == Pool(cells[..i])
      invariant forall j :: 0 < j < i ==> Cold(cells, j, theta, minSamples, root)
    {
      assert cells[..i + 1] == cells[..i] + [cells[i]];
      PoolAppend(cells[..i], cells[i]);
      if i > 0 {
        var e, sum := Block(cells, i, minSamples);
        if sum.admitted < minSamples {
          assert NoneUpTo(cells, theta, minSamples, root, i);
          return None;
        }
        PoolOk(cells[i..e]);
        var floor := Max(theta, RateOf(head));
        if Lower(sum, root) > floor {
          BlockHasHot(cells, i, e, theta, root);
          var c := i;
          while !Hot(cells[c], floor)
            invariant i <= c < e && forall d :: i <= d < c ==> !Hot(cells[d], floor)
            decreases e - c
          {
            c := c + 1;
          }
          assert KneeAt(cells, theta, minSamples, root, i, e, c);
          return Some(c);
        }
        assert IsBlock(cells, i, e, minSamples) && !Passes(cells, i, e, theta, root);
      }
      head := Joined(head, cells[i]);
    }
    assert NoneUpTo(cells, theta, minSamples, root, |cells|);
    knee := None;
  }
}
