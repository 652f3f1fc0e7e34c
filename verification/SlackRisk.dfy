/** Violation risk by predicted slack: sparse buckets are bounded by observed ones with less slack. */
module SlackRisk {
  import opened Options
  import opened Sorting
  import opened Tallies
  import opened Wilson

  datatype Source = Observed | Bounded | Unknown

  datatype Estimate = Estimate(bucket: nat, risk: real, samples: nat, source: Source)

  /** What the estimates depend on: production's own counts and the seed of the calibration. */
  datatype Table = Table(edges: seq<real>, minSamples: nat, counts: map<int, Tally>, seed: map<int, Tally>)

  function CellOf(t: Table, b: int): Tally {
    Tally(At(t.counts, b).admitted + At(t.seed, b).admitted, At(t.counts, b).violated + At(t.seed, b).violated)
  }

  predicate WellSampled(t: Table, b: int) { CellOf(t, b).admitted >= t.minSamples }

  function Keys(t: Table): set<int> { t.counts.Keys + t.seed.Keys }

  predicate IsObserved(t: Table, b: int) { b in Keys(t) && WellSampled(t, b) }

  function Ucb(t: Table, b: int, root: Root): real { WilsonUcb(CellOf(t, b).violated, CellOf(t, b).admitted, Z, root) }

  ghost predicate SortedEdges(edges: seq<real>) { Sorted(edges, LeReal) }

  /** The edges ascend; a bucket counts as observed only with a sample of its own. Seeds may name any bucket. */
  ghost predicate RecordOk(t: Table) { SortedEdges(t.edges) && t.minSamples >= 1 }

  /** The number of edges at or below the slack. */
  function Bucket(edges: seq<real>, slack: real): (b: nat)
    ensures b <= |edges|
  {
    if edges == [] then 0 else Bucket(edges[..|edges| - 1], slack) + if slack >= edges[|edges| - 1] then 1 else 0
  }

  lemma {:induction false} BucketMeans(edges: seq<real>, slack: real, i: nat)
    requires SortedEdges(edges) && i < |edges|
    ensures edges[i] <= slack <==> i < Bucket(edges, slack)
  {
    var k := |edges| - 1;
    if i < k {
      BucketMeans(edges[..k], slack, i);
      if slack >= edges[k] {
        assert edges[i] <= edges[k];
      }
    } else {
      BucketAll(edges[..k], edges[k], slack);
    }
  }

  /** Above an edge that no earlier one exceeds, every earlier one counts too. */
  lemma {:induction false} BucketAll(edges: seq<real>, last: real, slack: real)
    requires forall i :: 0 <= i < |edges| ==> edges[i] <= last
    ensures slack >= last ==> Bucket(edges, slack) == |edges|
  {
    if edges != [] { BucketAll(edges[..|edges| - 1], last, slack); }
  }

  // ---- what is promised ----------------------------------------------------------------------

  /** The highest observed bucket below `b`. */
  ghost predicate IsNearestBelow(t: Table, b: int, c: int) {
    && c < b && IsObserved(t, c) && forall e :: c < e < b ==> !IsObserved(t, e)
  }

  ghost predicate IsEstimate(t: Table, root: Root, slack: real, e: Estimate) {
    && e.bucket == Bucket(t.edges, slack)
    && match e.source
       case Observed =>
         WellSampled(t, e.bucket) && e.risk == Ucb(t, e.bucket, root) && e.samples == CellOf(t, e.bucket).admitted
       case Bounded =>
         && !WellSampled(t, e.bucket)
         && exists c :: IsNearestBelow(t, e.bucket, c) && e.risk == Ucb(t, c, root) && e.samples == CellOf(t, c).admitted
       case Unknown =>
         && !WellSampled(t, e.bucket) && e.risk == 1.0
         && forall c :: c < e.bucket ==> !IsObserved(t, c)
  }

  /** From `b` up every observed bucket is within the target, and the next observed one below is not. */
  ghost predicate IsLowestSafe(t: Table, root: Root, target: real, b: int) {
    && IsObserved(t, b)
    && (forall c :: c >= b && IsObserved(t, c) ==> Ucb(t, c, root) <= target)
    && (forall c :: IsNearestBelow(t, b, c) ==> Ucb(t, c, root) > target)
  }

  /** No observed bucket at all, or the highest one is already above the target. */
  ghost predicate NoneSafe(t: Table, root: Root, target: real) {
    forall b :: IsObserved(t, b) && (forall c :: c > b ==> !IsObserved(t, c)) ==> Ucb(t, b, root) > target
  }

  /** What a search for the safe slack ends with: none, an edge, or an index error for a bucket beyond the edges. */
  datatype Answer = NoSlack | AtLeast(slack: real) | OutOfRange

  /** The edge below bucket `b`; like every negative index, that of a negative bucket counts from the end. */
  function EdgeBelow(edges: seq<real>, b: int): Answer {
    var i := if b - 1 >= 0 then b - 1 else |edges| + b - 1;
    if 0 <= i < |edges| then AtLeast(edges[i]) else OutOfRange
  }

  /** The safe slack and the estimates agree: at or above it no estimate exceeds the target. */
  lemma SafeFromThere(t: Table, root: Root, target: real, b: int, slack: real, e: Estimate)
    requires RecordOk(t) && IsLowestSafe(t, root, target, b) && b != 0
    requires EdgeBelow(t.edges, b).AtLeast? && slack >= EdgeBelow(t.edges, b).slack && IsEstimate(t, root, slack, e)
    ensures e.risk <= target && e.source != Unknown
  {
    if b > 0 { BucketMeans(t.edges, slack, b - 1); }
    assert e.bucket >= b;
    if WellSampled(t, e.bucket) {
      assert e.bucket in Keys(t);
    } else if e.source == Bounded {
      var c: int :| IsNearestBelow(t, e.bucket, c) && e.risk == Ucb(t, c, root);
      assert c >= b;
    }
  }

  /** Below the safe slack, the next observed bucket is over the target, and so are its sparse neighbours. */
  lemma UnsafeBelow(t: Table, root: Root, target: real, b: nat, c: int, slack: real, e: Estimate)
    requires RecordOk(t) && IsLowestSafe(t, root, target, b) && IsNearestBelow(t, b, c)
    requires IsEstimate(t, root, slack, e) && c <= e.bucket < b
    ensures e.risk > target
  {
    assert IsObserved(t, c);
    if e.source == Bounded {
      var x: int :| IsNearestBelow(t, e.bucket, x) && e.risk == Ucb(t, x, root);
      assert x == c;
    }
  }

  /** The first well-sampled entry from `i` on. */
  ghost predicate IsLowest(t: Table, buckets: seq<int>, i: int, j: int) {
    0 <= i <= j < |buckets| && WellSampled(t, buckets[j]) && forall k :: i <= k < j ==> !WellSampled(t, buckets[k])
  }

  class SlackTable {
    const edges: seq<real>
    const minSamples: nat
    const root: Root
    var counts: map<int, Tally>
    var seed: map<int, Tally>

    function View(): Table
      reads this
    {
      Table(edges, minSamples, counts, seed)
    }

    ghost predicate Valid()
      reads this
    {
      RecordOk(View())
    }

    constructor (edges: seq<real>, minSamples: nat, root: Root)
      requires minSamples >= 1
      ensures Valid() && View() == Table(Sort(edges, LeReal), minSamples, map[], map[]) && this.root == root
    {
      SortSorted(edges, LeReal);
      this.edges, this.minSamples, this.root := Sort(edges, LeReal), minSamples, root;
      counts, seed := map[], map[];
    }

    /** A new calibration's counts replace the ones before. */
    method SetSeed(seed: map<int, Tally>)
      requires Valid()
      modifies this`seed
      ensures Valid() && this.seed == seed
    {
      this.seed := seed;
    }

    method Record(slack: real, violated: bool)
      requires Valid()
      modifies this`counts
      ensures Valid()
      ensures var b := Bucket(edges, slack);
        && CellOf(View(), b) == Counted(CellOf(old(View()), b), violated)
        && (forall c :: c != b ==> CellOf(View(), c) == CellOf(old(View()), c))
        && Keys(View()) == Keys(old(View())) + {b as int}
    {
      var b := Bucket(edges, slack);
      counts := counts[b := Counted(At(counts, b), violated)];
      assert Keys(View()) == Keys(old(View())) + {b as int};
    }

    /** The search from the highest bucket down. */
    method Lowest(target: real, buckets: seq<int>) returns (safe: Option<int>)
      requires Valid() && Lists(buckets, Keys(View()))
      ensures safe.None? ==> NoneSafe(View(), root, target)
      ensures safe.Some? ==> IsLowestSafe(View(), root, target, safe.value)
    {
      var t := View();
      safe := None;
      var i := |buckets|;
      while i > 0
        invariant 0 <= i <= |buckets|
        invariant forall j :: i <= j < |buckets| && WellSampled(t, buckets[j]) ==> Ucb(t, buckets[j], root) <= target
        invariant safe.None? ==> forall j :: i <= j < |buckets| ==> !WellSampled(t, buckets[j])
        invariant safe.Some? ==> exists j :: IsLowest(t, buckets, i, j) && buckets[j] == safe.value
      {
        var b := buckets[i - 1];
        if WellSampled(t, b) {
          if Ucb(t, b, root) > target { break; }
          safe := Some(b);
          assert IsLowest(t, buckets, i - 1, i - 1);
        } else if safe.Some? {
          ghost var j: int :| IsLowest(t, buckets, i, j) && buckets[j] == safe.value;
          assert IsLowest(t, buckets, i - 1, j);
        }
        i := i - 1;
      }
      SafeFound(t, root, target, buckets, i, safe);
    }

    /** The lowest slack from which every observed bucket is within the target; none for bucket 0. */
    method SafeSlack(target: real) returns (a: Answer)
      requires Valid()
      ensures a == NoSlack ==> NoneSafe(View(), root, target) || IsLowestSafe(View(), root, target, 0)
      ensures a != NoSlack ==> exists b :: b != 0 && IsLowestSafe(View(), root, target, b) && a == EdgeBelow(edges, b)
    {
      var buckets := SortedKeys(Keys(View()));
      var safe := Lowest(target, buckets);
      if safe.None? || safe.value == 0 { return NoSlack; }
      a := EdgeBelow(edges, safe.value);
    }

    /** The highest observed bucket below `b`, if there is one. */
    method Nearest(b: int) returns (c: Option<int>)
      requires Valid()
      ensures c.Some? ==> IsNearestBelow(View(), b, c.value)
      ensures c.None? ==> forall e :: e < b ==> !IsObserved(View(), e)
    {
      var t := View();
      var buckets := SortedKeys(set e | e in Keys(t) && e < b);
      var i := |buckets|;
      while i > 0
        invariant 0 <= i <= |buckets|
        invariant forall j :: i <= j < |buckets| ==> !WellSampled(t, buckets[j])
      {
        if WellSampled(t, buckets[i - 1]) {
          NearestFound(t, buckets, b, i - 1);
          return Some(buckets[i - 1]);
        }
        i := i - 1;
      }
      c := None;
      forall e | e < b ensures !IsObserved(t, e) {
        if e in Keys(t) { assert e in buckets; }
      }
    }

    method EstimateSlack(slack: real) returns (e: Estimate)
      requires Valid()
      ensures IsEstimate(View(), root, slack, e)
    {
      var t := View();
      var b := Bucket(edges, slack);
      if WellSampled(t, b) { return Estimate(b, Ucb(t, b, root), CellOf(t, b).admitted, Observed); }
      var c := Nearest(b);
      e := if c.Some? then Estimate(b, Ucb(t, c.value, root), CellOf(t, c.value).admitted, Bounded)
        else Estimate(b, 1.0, CellOf(t, b).admitted, Unknown);
    }
  }

  lemma NearestFound(t: Table, buckets: seq<int>, b: int, i: nat)
    requires i < |buckets| && Lists(buckets, set c | c in Keys(t) && c < b) && WellSampled(t, buckets[i])
    requires forall j :: i < j < |buckets| ==> !WellSampled(t, buckets[j])
    ensures IsNearestBelow(t, b, buckets[i])
  {
    assert buckets[i] in buckets;
    forall e | buckets[i] < e < b ensures !IsObserved(t, e) {
      if e in Keys(t) {
        assert e in buckets;
        var j :| 0 <= j < |buckets| && buckets[j] == e;
      }
    }
  }

  /** What the search stopped with: everything above is safe, and the entry it stopped at is not. */
  lemma SafeFound(t: Table, root: Root, target: real, buckets: seq<int>, i: nat, safe: Option<int>)
    requires RecordOk(t) && Lists(buckets, Keys(t)) && i <= |buckets|
    requires forall j :: i <= j < |buckets| && WellSampled(t, buckets[j]) ==> Ucb(t, buckets[j], root) <= target
    requires i > 0 ==> WellSampled(t, buckets[i - 1]) && Ucb(t, buckets[i - 1], root) > target
    requires safe.None? ==> forall j :: i <= j < |buckets| ==> !WellSampled(t, buckets[j])
    requires safe.Some? ==> exists j :: IsLowest(t, buckets, i, j) && buckets[j] == safe.value
    ensures safe.None? ==> NoneSafe(t, root, target)
    ensures safe.Some? ==> IsLowestSafe(t, root, target, safe.value)
  {
    forall c | IsObserved(t, c) ensures exists j :: 0 <= j < |buckets| && buckets[j] == c { assert c in buckets; }
    if safe.Some? {
      var j: int :| IsLowest(t, buckets, i, j) && buckets[j] == safe.value;
      assert buckets[j] in buckets;
      forall c | IsNearestBelow(t, safe.value, c) ensures Ucb(t, c, root) > target {
        var k :| 0 <= k < |buckets| && buckets[k] == c;
        assert k < i && buckets[i - 1] in buckets && IsObserved(t, buckets[i - 1]) && buckets[i - 1] < buckets[j];
      }
    } else {
      forall b | IsObserved(t, b) && (forall c :: c > b ==> !IsObserved(t, c)) ensures Ucb(t, b, root) > target {
        var k :| 0 <= k < |buckets| && buckets[k] == b;
        assert k < i && buckets[i - 1] in buckets && IsObserved(t, buckets[i - 1]);
      }
    }
  }
}
