/** Sorting by insertion, and the keys of a dictionary in ascending order. */
module Sorting {
  ghost predicate IsOrder<T(!new)>(le: (T, T) -> bool) {
    && (forall a, b :: le(a, b) || le(b, a))
    && (forall a, b, c :: le(a, b) && le(b, c) ==> le(a, c))
  }

  ghost predicate Sorted<T>(q: seq<T>, le: (T, T) -> bool) { forall i, j :: 0 <= i < j < |q| ==> le(q[i], q[j]) }

  predicate LeInt(a: int, b: int) { a <= b }

  predicate LeReal(a: real, b: real) { a <= b }

  function Insert<T>(q: seq<T>, v: T, le: (T, T) -> bool): (r: seq<T>)
    ensures |r| == |q| + 1 && multiset(r) == multiset(q) + multiset{v}
  {
    if q == [] || le(v, q[0]) then [v] + q else
      assert q == [q[0]] + q[1..];
      [q[0]] + Insert(q[1..], v, le)
  }

  /** `sorted` of the source. */
  function Sort<T>(q: seq<T>, le: (T, T) -> bool): (r: seq<T>)
    ensures |r| == |q| && multiset(r) == multiset(q)
  {
    if q == [] then [] else
      assert q == q[..|q| - 1] + [q[|q| - 1]];
      Insert(Sort(q[..|q| - 1], le), q[|q| - 1], le)
  }

  lemma SameMembers<T>(q: seq<T>, r: seq<T>, v: T)
    requires multiset(r) == multiset(q) + multiset{v}
    ensures forall x :: x in r <==> x in q || x == v
  {
    forall x ensures x in r <==> x in q || x == v { assert x in multiset(r) <==> x in r; }
  }

  lemma {:induction false} InsertSorted<T(!new)>(q: seq<T>, v: T, le: (T, T) -> bool)
    requires IsOrder(le) && Sorted(q, le)
    ensures Sorted(Insert(q, v, le), le)
  {
    if q != [] && !le(v, q[0]) {
      var rest := Insert(q[1..], v, le);
      InsertSorted(q[1..], v, le);
      SameMembers(q[1..], rest, v);
      forall j | 0 <= j < |rest| ensures le(q[0], rest[j]) {
        assert rest[j] in rest;
        if rest[j] in q[1..] {
          var i :| 0 <= i < |q[1..]| && q[1..][i] == rest[j];
          assert le(q[0], q[i + 1]);
        }
      }
    }
  }

  lemma {:induction false} SortSorted<T(!new)>(q: seq<T>, le: (T, T) -> bool)
    requires IsOrder(le)
    ensures Sorted(Sort(q, le), le)
  {
    if q != [] {
      SortSorted(q[..|q| - 1], le);
      InsertSorted(Sort(q[..|q| - 1], le), q[|q| - 1], le);
    }
  }

  // ---- keys --------------------------------------------------------------------------------------

  ghost predicate Ascending(q: seq<int>) { forall i, j :: 0 <= i < j < |q| ==> q[i] < q[j] }

  /** `q` lists exactly `s`, smallest first. */
  ghost predicate Lists(q: seq<int>, s: set<int>) { Ascending(q) && forall x :: x in q <==> x in s }

  lemma {:induction false} InsertAscending(q: seq<int>, x: int)
    requires Ascending(q) && x !in q
    ensures Ascending(Insert(q, x, LeInt))
  {
    if q != [] && q[0] <= x {
      var r := Insert(q[1..], x, LeInt);
      InsertAscending(q[1..], x);
      SameMembers(q[1..], r, x);
      forall j | 0 <= j < |r| ensures q[0] < r[j] {
        assert r[j] in r;
        if r[j] != x {
          var i :| 0 <= i < |q[1..]| && q[1..][i] == r[j];
          assert q[0] < q[i + 1];
        }
      }
    }
  }

  method Pick(s: set<int>) returns (x: int)
    requires s != {}
    ensures x in s
  {
    assert (forall y :: y !in s) ==> s == {};
    x :| x in s;
  }

  method SortedKeys(s: set<int>) returns (q: seq<int>)
    ensures Lists(q, s)
  {
    q := [];
    var rest := s;
    while rest != {}
      invariant rest <= s && Ascending(q) && forall x :: x in q <==> x in s && x !in rest
      decreases |rest|
    {
      var x := Pick(rest);
      InsertAscending(q, x);
      SameMembers(q, Insert(q, x, LeInt), x);
      q := Insert(q, x, LeInt);
      rest := rest - {x};
    }
  }

  /** There is only one ascending listing. */
  lemma {:induction false} OneListing(a: seq<int>, b: seq<int>, s: set<int>)
    requires Lists(a, s) && Lists(b, s)
    ensures a == b
  {
    assert (a != [] ==> a[0] in a) && (b != [] ==> b[0] in b);
    if a != [] && b != [] {
      Heads(a, b, s);
      Tail(a, s);
      Tail(b, s);
      OneListing(a[1..], b[1..], s - {a[0]});
    }
  }

  lemma Heads(a: seq<int>, b: seq<int>, s: set<int>)
    requires Lists(a, s) && Lists(b, s) && a != [] && b != []
    ensures a[0] == b[0]
  {
    assert a[0] in a && b[0] in b;
    var i :| 0 <= i < |b| && b[i] == a[0];
    var j :| 0 <= j < |a| && a[j] == b[0];
  }

  lemma Tail(a: seq<int>, s: set<int>)
    requires Lists(a, s) && a != []
    ensures Lists(a[1..], s - {a[0]})
  {
    assert a == [a[0]] + a[1..];
    assert forall i, j :: 0 <= i < j < |a[1..]| ==> a[1..][i] == a[i + 1] && a[1..][j] == a[j + 1];
    forall x | x in a[1..] ensures x != a[0] {
      var i :| 0 <= i < |a[1..]| && a[1..][i] == x;
      assert a[i + 1] == x;
    }
  }
}
