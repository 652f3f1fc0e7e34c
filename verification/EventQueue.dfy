/**
  The simulator's event heap: entries leave in the order of (time, push number).

  The heap is kept as the list of its entries in leaving order. A new entry has the
  largest push number, so it goes after every entry that is not later than it.
*/
module EventQueue {
  type ReqId = nat

  datatype Event =
    | PEnqueue(r: ReqId)
    | PDone(p: nat, batch: seq<ReqId>)
    | SendRetry(p: nat)
    | KvArrived(r: ReqId, p: nat, d: nat, kv: real)
    | DEnd(d: nat, joined: seq<ReqId>)

  datatype Timed = Timed(t: real, ev: Event)

  /** What an event is about; at most one `Batch`, `Retry` and `Decode` entry is pending per pair. */
  datatype Key = Enqueue | Batch(p: nat) | Retry(p: nat) | Link(p: nat) | Decode(d: nat)

  function KeyOf(e: Event): Key {
    match e
    case PEnqueue(_) => Enqueue
    case PDone(p, _) => Batch(p)
    case SendRetry(p) => Retry(p)
    case KvArrived(_, p, _, _) => Link(p)
    case DEnd(d, _) => Decode(d)
  }

  function IdsOf(e: Event): seq<ReqId> {
    match e
    case PEnqueue(r) => [r]
    case PDone(_, batch) => batch
    case SendRetry(_) => []
    case KvArrived(r, _, _, _) => [r]
    case DEnd(_, joined) => joined
  }

  /** The requests carried by the pending events of one key, in leaving order. */
  function Sel(q: seq<Timed>, k: Key): seq<ReqId> {
    if q == [] then [] else (if KeyOf(q[0].ev) == k then IdsOf(q[0].ev) else []) + Sel(q[1..], k)
  }

  /** How many events of one key are pending. */
  function Count(q: seq<Timed>, k: Key): nat {
    if q == [] then 0 else (if KeyOf(q[0].ev) == k then 1 else 0) + Count(q[1..], k)
  }

  function KvOf(e: Event, d: nat): real {
    if e.KvArrived? && e.d == d then e.kv else 0.0
  }

  /** KV bytes on their way to the D of pair `d`. */
  function KvTo(q: seq<Timed>, d: nat): real {
    if q == [] then 0.0 else KvOf(q[0].ev, d) + KvTo(q[1..], d)
  }

  ghost predicate Sorted(q: seq<Timed>) {
    forall i, j :: 0 <= i < j < |q| ==> q[i].t <= q[j].t
  }

  /** Number of entries that leave before a new entry at time `t`. */
  function Position(q: seq<Timed>, t: real): (i: nat)
    ensures i <= |q|
    ensures forall j :: 0 <= j < i ==> q[j].t <= t
    ensures i < |q| ==> t < q[i].t
  {
    if q == [] || t < q[0].t then 0 else 1 + Position(q[1..], t)
  }

  /** heappush: the entry takes its place in leaving order. */
  function Push(q: seq<Timed>, e: Timed): seq<Timed> {
    q[..Position(q, e.t)] + [e] + q[Position(q, e.t)..]
  }

  lemma {:induction false} Split(a: seq<Timed>, b: seq<Timed>, k: Key, d: nat)
    ensures Sel(a + b, k) == Sel(a, k) + Sel(b, k)
    ensures Count(a + b, k) == Count(a, k) + Count(b, k)
    ensures KvTo(a + b, d) == KvTo(a, d) + KvTo(b, d)
  {
    if a == [] {
      assert a + b == b;
    } else {
      assert (a + b)[1..] == a[1..] + b;
      Split(a[1..], b, k, d);
    }
  }

  lemma {:induction false} CountZero(q: seq<Timed>, k: Key)
    ensures Count(q, k) == 0 ==> Sel(q, k) == []
    ensures Count(q, k) == 0 <==> forall i :: 0 <= i < |q| ==> KeyOf(q[i].ev) != k
  {
    if q != [] {
      CountZero(q[1..], k);
      assert forall i :: 1 <= i < |q| ==> q[i] == q[1..][i - 1];
      if Count(q[1..], k) == 0 && KeyOf(q[0].ev) != k {
        forall i | 0 <= i < |q| ensures KeyOf(q[i].ev) != k {
          if i > 0 { assert q[i] == q[1..][i - 1]; }
        }
      }
      if forall i :: 0 <= i < |q| ==> KeyOf(q[i].ev) != k {
        assert forall i :: 0 <= i < |q[1..]| ==> q[1..][i] == q[i + 1];
      }
    }
  }

  lemma PushSorted(q: seq<Timed>, e: Timed)
    requires Sorted(q)
    ensures Sorted(Push(q, e))
  {
    var i := Position(q, e.t);
    forall x, y | 0 <= x < y < |q| + 1 ensures Push(q, e)[x].t <= Push(q, e)[y].t {
      if x >= i && y > i && i < |q| { assert q[i].t <= q[y - 1].t; }
    }
  }

  lemma ConsEffect(e: Timed, b: seq<Timed>, k: Key, d: nat)
    ensures Sel([e] + b, k) == (if KeyOf(e.ev) == k then IdsOf(e.ev) else []) + Sel(b, k)
    ensures Count([e] + b, k) == (if KeyOf(e.ev) == k then 1 else 0) + Count(b, k)
    ensures KvTo([e] + b, d) == KvOf(e.ev, d) + KvTo(b, d)
  {
    assert ([e] + b)[1..] == b;
  }

  lemma InsertParts(a: seq<Timed>, e: Timed, b: seq<Timed>, k: Key, d: nat)
    ensures Sel(a + [e] + b, k) == Sel(a, k) + ((if KeyOf(e.ev) == k then IdsOf(e.ev) else []) + Sel(b, k))
    ensures Count(a + [e] + b, k) == Count(a, k) + (if KeyOf(e.ev) == k then 1 else 0) + Count(b, k)
    ensures KvTo(a + [e] + b, d) == KvTo(a, d) + KvOf(e.ev, d) + KvTo(b, d)
  {
    ConsEffect(e, b, k, d);
    Split(a, [e] + b, k, d);
    assert a + ([e] + b) == a + [e] + b;
  }

  lemma Parts(q: seq<Timed>, i: nat, k: Key, d: nat)
    requires i <= |q|
    ensures Sel(q, k) == Sel(q[..i], k) + Sel(q[i..], k)
    ensures Count(q, k) == Count(q[..i], k) + Count(q[i..], k)
    ensures KvTo(q, d) == KvTo(q[..i], d) + KvTo(q[i..], d)
  {
    Split(q[..i], q[i..], k, d);
    assert q == q[..i] + q[i..];
  }

  /** A push adds one event and leaves every other key alone. */
  lemma PushEffect(q: seq<Timed>, e: Timed, k: Key, d: nat)
    ensures KeyOf(e.ev) != k ==> Sel(Push(q, e), k) == Sel(q, k) && Count(Push(q, e), k) == Count(q, k)
    ensures KeyOf(e.ev) == k ==> Count(Push(q, e), k) == Count(q, k) + 1
    ensures KeyOf(e.ev) == k && Count(q, k) == 0 ==> Sel(Push(q, e), k) == IdsOf(e.ev)
    ensures KvTo(Push(q, e), d) == KvTo(q, d) + KvOf(e.ev, d)
  {
    var i := Position(q, e.t);
    Parts(q, i, k, d);
    InsertParts(q[..i], e, q[i..], k, d);
    CountZero(q[..i], k);
    CountZero(q[i..], k);
  }

  /** An event not earlier than any pending one of its key leaves last among them: links are FIFO. */
  lemma PushLast(q: seq<Timed>, e: Timed, k: Key)
    requires Sorted(q) && KeyOf(e.ev) == k
    requires forall i :: 0 <= i < |q| && KeyOf(q[i].ev) == k ==> q[i].t <= e.t
    ensures Sel(Push(q, e), k) == Sel(q, k) + IdsOf(e.ev)
  {
    var i := Position(q, e.t);
    var b := q[i..];
    Parts(q, i, k, 0);
    InsertParts(q[..i], e, b, k, 0);
    forall j | 0 <= j < |b| ensures KeyOf(b[j].ev) != k {
      assert b[j] == q[i + j] && q[i].t <= q[i + j].t;
    }
    CountZero(b, k);
  }

  lemma PushMembers(q: seq<Timed>, e: Timed)
    ensures forall x :: x in Push(q, e) <==> x in q || x == e
  {
    assert q == q[..Position(q, e.t)] + q[Position(q, e.t)..];
  }

  lemma PushFrame(q: seq<Timed>, e: Timed)
    ensures forall k {:trigger Sel(Push(q, e), k)} :: k != KeyOf(e.ev) ==> Sel(Push(q, e), k) == Sel(q, k)
    ensures forall k {:trigger Count(Push(q, e), k)} ::
      Count(Push(q, e), k) == Count(q, k) + if k == KeyOf(e.ev) then 1 else 0
    ensures forall d {:trigger KvTo(Push(q, e), d)} :: KvTo(Push(q, e), d) == KvTo(q, d) + KvOf(e.ev, d)
    ensures Count(q, KeyOf(e.ev)) == 0 ==> Sel(Push(q, e), KeyOf(e.ev)) == IdsOf(e.ev)
  {
    forall k ensures k != KeyOf(e.ev) ==> Sel(Push(q, e), k) == Sel(q, k)
      ensures Count(Push(q, e), k) == Count(q, k) + if k == KeyOf(e.ev) then 1 else 0
    {
      PushEffect(q, e, k, 0);
    }
    forall d ensures KvTo(Push(q, e), d) == KvTo(q, d) + KvOf(e.ev, d) { PushEffect(q, e, Enqueue, d); }
    PushEffect(q, e, KeyOf(e.ev), 0);
  }

  lemma PopFrame(q: seq<Timed>)
    requires q != []
    ensures forall k {:trigger Sel(q[1..], k)} {:trigger Sel(q, k)} ::
      Sel(q, k) == (if KeyOf(q[0].ev) == k then IdsOf(q[0].ev) else []) + Sel(q[1..], k)
    ensures forall k {:trigger Count(q[1..], k)} {:trigger Count(q, k)} ::
      Count(q, k) == (if KeyOf(q[0].ev) == k then 1 else 0) + Count(q[1..], k)
    ensures forall d {:trigger KvTo(q[1..], d)} {:trigger KvTo(q, d)} ::
      KvTo(q, d) == KvOf(q[0].ev, d) + KvTo(q[1..], d)
  {}

  // ---- what the pending events amount to --------------------------------------------------

  /** The heap by key: the requests carried, the number of events, and the KV under way per D. */
  datatype Summary = Summary(ids: Key -> seq<ReqId>, count: Key -> nat, kv: nat -> real)

  function Summarize(q: seq<Timed>): Summary {
    Summary(k => Sel(q, k), k => Count(q, k), (d: nat) => KvTo(q, d))
  }

  /** `e` is one more pending event, the last of its key. */
  ghost predicate Added(h: Summary, h': Summary, e: Event) {
    && (forall k {:trigger h'.ids(k)} :: k != KeyOf(e) ==> h'.ids(k) == h.ids(k))
    && h'.ids(KeyOf(e)) == h.ids(KeyOf(e)) + IdsOf(e)
    && AddedCounts(h, h', e)
  }

  ghost predicate AddedCounts(h: Summary, h': Summary, e: Event) {
    && (forall k {:trigger h'.count(k)} :: h'.count(k) == h.count(k) + if k == KeyOf(e) then 1 else 0)
    && (forall d {:trigger h'.kv(d)} :: h'.kv(d) == h.kv(d) + KvOf(e, d))
  }

  /** `e` was pending, the first of its key, and is no more. */
  ghost predicate Removed(h: Summary, h': Summary, e: Event) {
    && (forall k {:trigger h'.ids(k)} :: k != KeyOf(e) ==> h'.ids(k) == h.ids(k))
    && h.ids(KeyOf(e)) == IdsOf(e) + h'.ids(KeyOf(e))
    && AddedCounts(h', h, e)
    && (forall k {:trigger h'.count(k)} :: h.count(k) == h'.count(k) + if k == KeyOf(e) then 1 else 0)
    && (forall d {:trigger h'.kv(d)} :: h.kv(d) == h'.kv(d) + KvOf(e, d))
  }

  lemma PopRemoves(q: seq<Timed>)
    requires q != []
    ensures Removed(Summarize(q), Summarize(q[1..]), q[0].ev)
  {
    PopFrame(q);
  }

  /** A push among no other event of its key, or not before any of them, adds at the end. */
  lemma PushAdds(q: seq<Timed>, e: Timed)
    requires Sorted(q)
    requires Count(q, KeyOf(e.ev)) == 0 || forall i :: 0 <= i < |q| && KeyOf(q[i].ev) == KeyOf(e.ev) ==> q[i].t <= e.t
    ensures Added(Summarize(q), Summarize(Push(q, e)), e.ev)
  {
    PushFrame(q, e);
    if Count(q, KeyOf(e.ev)) == 0 {
      CountZero(q, KeyOf(e.ev));
    } else {
      PushLast(q, e, KeyOf(e.ev));
    }
  }

  /** `e` is one more pending event of a key whose internal order does not matter. */
  ghost predicate AddedAnywhere(h: Summary, h': Summary, e: Event) {
    && (forall k {:trigger h'.ids(k)} :: k != KeyOf(e) ==> h'.ids(k) == h.ids(k))
    && (exists a: seq<ReqId>, b: seq<ReqId> :: h.ids(KeyOf(e)) == a + b && h'.ids(KeyOf(e)) == a + (IdsOf(e) + b))
    && AddedCounts(h, h', e)
  }

  lemma PushAddsAnywhere(q: seq<Timed>, e: Timed)
    ensures AddedAnywhere(Summarize(q), Summarize(Push(q, e)), e.ev)
  {
    PushFrame(q, e);
    var i := Position(q, e.t);
    Parts(q, i, KeyOf(e.ev), 0);
    InsertParts(q[..i], e, q[i..], KeyOf(e.ev), 0);
    var a, b := Sel(q[..i], KeyOf(e.ev)), Sel(q[i..], KeyOf(e.ev));
    assert Summarize(q).ids(KeyOf(e.ev)) == a + b;
  }
}
