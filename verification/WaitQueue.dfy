/** The router's first-come-first-served queue in front of admission (best effort). */
module WaitQueue {
  import opened Sealing

  type Waiter = nat

  datatype Outcome = Issued | Wait | Reject

  ghost predicate Distinct(q: seq<Waiter>) { forall i, j :: 0 <= i < j < |q| ==> q[i] != q[j] }

  /** Those of `q` that are not in `gone`, in their order. */
  ghost function Keep(q: seq<Waiter>, gone: set<Waiter>): seq<Waiter> {
    if q == [] then [] else
      var k := |q| - 1;
      Keep(q[..k], gone) + if q[k] in gone then [] else [q[k]]
  }

  /** `deque.remove`: the first occurrence leaves; nothing happens when there is none. */
  function Removed(q: seq<Waiter>, w: Waiter): seq<Waiter> {
    if q == [] then [] else if q[0] == w then q[1..] else [q[0]] + Removed(q[1..], w)
  }

  function Members(q: seq<Waiter>): set<Waiter> { set w | w in q }

  // ---- the order of the queue ------------------------------------------------------------------

  lemma {:induction false} KeepMembers(q: seq<Waiter>, gone: set<Waiter>)
    ensures forall w :: w in Keep(q, gone) <==> w in q && w !in gone
    ensures Distinct(q) ==> Distinct(Keep(q, gone))
  {
    if q != [] {
      var k := |q| - 1;
      KeepMembers(q[..k], gone);
      assert q == q[..k] + [q[k]];
      if Distinct(q) {
        assert Distinct(q[..k]);
        assert forall i :: 0 <= i < k ==> q[i] != q[k];
        assert q[k] !in q[..k];
      }
    }
  }

  lemma {:induction false} RemovedAppend(a: seq<Waiter>, b: seq<Waiter>, w: Waiter)
    ensures w !in a ==> Removed(a + b, w) == a + Removed(b, w)
    ensures w in a ==> Removed(a + b, w) == Removed(a, w) + b
  {
    if a == [] {
      assert a + b == b;
    } else {
      RemovedAppend(a[1..], b, w);
      RemovedCons(a[0], a[1..] + b, w);
      assert a + b == [a[0]] + (a[1..] + b) && a == [a[0]] + a[1..];
    }
  }

  lemma RemovedCons(x: Waiter, q: seq<Waiter>, w: Waiter)
    ensures Removed([x] + q, w) == if x == w then q else [x] + Removed(q, w)
  {
    assert ([x] + q)[1..] == q;
  }

  lemma {:induction false} RemovedMembers(q: seq<Waiter>, w: Waiter)
    requires Distinct(q)
    ensures w !in q ==> Removed(q, w) == q
    ensures forall x :: x in Removed(q, w) <==> x in q && x != w
  {
    if q != [] {
      assert q == [q[0]] + q[1..];
      assert forall i, j :: 0 <= i < j < |q[1..]| ==> q[1..][i] == q[i + 1] && q[1..][j] == q[j + 1];
      RemovedMembers(q[1..], w);
      assert q[0] !in q[1..] by {
        forall i | 0 <= i < |q[1..]| ensures q[1..][i] != q[0] { assert q[i + 1] != q[0]; }
      }
    }
  }

  lemma RemovedLast(q: seq<Waiter>, x: Waiter, w: Waiter)
    requires Distinct(q) && x !in q
    ensures Removed(q + [x], w) == Removed(q, w) + if x == w then [] else [x]
  {
    RemovedAppend(q, [x], w);
    RemovedMembers(q, w);
    assert Removed([x], w) == if x == w then [] else [x];
  }

  /** One more that is gone leaves exactly its own place. */
  lemma {:induction false} KeepGone(q: seq<Waiter>, gone: set<Waiter>, w: Waiter)
    requires Distinct(q) && w !in gone
    ensures Keep(q, gone + {w}) == Removed(Keep(q, gone), w)
  {
    if q != [] {
      var k := |q| - 1;
      DistinctParts(q);
      KeepGone(q[..k], gone, w);
      KeepMembers(q[..k], gone);
      if q[k] in gone {
        assert Keep(q, gone) == Keep(q[..k], gone) && Keep(q, gone + {w}) == Keep(q[..k], gone + {w});
      } else {
        RemovedLast(Keep(q[..k], gone), q[k], w);
        assert Keep(q, gone + {w}) == Keep(q[..k], gone + {w}) + if q[k] == w then [] else [q[k]];
      }
    }
  }

  lemma DistinctParts(q: seq<Waiter>)
    requires Distinct(q) && q != []
    ensures Distinct(q[..|q| - 1]) && q[|q| - 1] !in q[..|q| - 1]
  {
    var k := |q| - 1;
    assert forall i :: 0 <= i < k ==> q[..k][i] != q[k];
  }

  /** Whoever got a ticket entered the queue before everybody who got one later or still waits. */
  lemma KeepOrder(q: seq<Waiter>, gone: set<Waiter>, i: nat, j: nat) returns (a: nat, b: nat)
    requires i < j < |Keep(q, gone)|
    ensures a < b < |q| && q[a] == Keep(q, gone)[i] && q[b] == Keep(q, gone)[j]
  {
    var k := |q| - 1;
    var rest := Keep(q[..k], gone);
    if j < |rest| {
      a, b := KeepOrder(q[..k], gone, i, j);
    } else {
      a := KeepPlace(q[..k], gone, i);
      b := k;
    }
  }

  lemma KeepPlace(q: seq<Waiter>, gone: set<Waiter>, i: nat) returns (a: nat)
    requires i < |Keep(q, gone)|
    ensures a < |q| && q[a] == Keep(q, gone)[i]
  {
    var k := |q| - 1;
    if i < |Keep(q[..k], gone)| { a := KeepPlace(q[..k], gone, i); } else { a := k; }
  }

  /**
    The history of a queue: `entered` in the order of the first step, `issued` in the order of the
    tickets, `gone` without a ticket.
  */
  ghost predicate Fifo(entered: seq<Waiter>, issued: seq<Waiter>, gone: set<Waiter>, queue: seq<Waiter>) {
    Distinct(entered) && Keep(entered, gone) == issued + queue
  }

  /** Tickets are issued in the order of entry, and nobody is passed over who still waits. */
  lemma FirstComeFirstServed(
    entered: seq<Waiter>, issued: seq<Waiter>, gone: set<Waiter>, queue: seq<Waiter>, i: nat, j: nat)
    returns (a: nat, b: nat)
    requires Fifo(entered, issued, gone, queue) && i < |issued|
    requires i < j < |issued + queue|
    ensures a < b < |entered| && entered[a] == issued[i] && entered[b] == (issued + queue)[j]
  {
    a, b := KeepOrder(entered, gone, i, j);
  }

  lemma QueueDistinct(entered: seq<Waiter>, issued: seq<Waiter>, gone: set<Waiter>, queue: seq<Waiter>)
    requires Fifo(entered, issued, gone, queue)
    ensures Distinct(queue) && Distinct(issued) && forall w :: w in queue ==> w !in issued && w !in gone && w in entered
  {
    KeepMembers(entered, gone);
    var line := issued + queue;
    forall i, j | 0 <= i < j < |queue| ensures queue[i] != queue[j] {
      assert line[|issued| + i] == queue[i] && line[|issued| + j] == queue[j];
    }
    forall i, j | 0 <= i < j < |issued| ensures issued[i] != issued[j] { assert line[i] == issued[i] && line[j] == issued[j]; }
    forall w | w in queue ensures w !in issued && w !in gone && w in entered {
      var j :| 0 <= j < |queue| && queue[j] == w;
      assert line[|issued| + j] == w && w in line;
      forall i | 0 <= i < |issued| ensures issued[i] != w { assert line[i] == issued[i]; }
    }
  }

  lemma EnterKeeps(entered: seq<Waiter>, issued: seq<Waiter>, gone: set<Waiter>, queue: seq<Waiter>, w: Waiter)
    requires Fifo(entered, issued, gone, queue) && w !in entered && w !in gone
    ensures Fifo(entered + [w], issued, gone, queue + [w])
  {
    assert (entered + [w])[..|entered|] == entered;
    assert issued + queue + [w] == issued + (queue + [w]);
  }

  lemma LeaveKeeps(entered: seq<Waiter>, issued: seq<Waiter>, gone: set<Waiter>, queue: seq<Waiter>, w: Waiter)
    requires Fifo(entered, issued, gone, queue) && w !in issued && w !in gone
    ensures Fifo(entered, issued, gone + {w}, Removed(queue, w))
  {
    KeepGone(entered, gone, w);
    RemovedAppend(issued, queue, w);
  }

  /**
    First come, first served; the queue's members are exactly those whose waiting time runs, and
    only they can have signalled.
  */
  ghost predicate Consistent(
    entered: seq<Waiter>, issued: seq<Waiter>, gone: set<Waiter>, queue: seq<Waiter>, since: set<Waiter>,
    signalled: set<Waiter>, waiters: nat)
  {
    && Fifo(entered, issued, gone, queue)
    && since == Members(queue)
    && signalled <= Members(queue)
    && (forall w :: w in entered ==> w < waiters)
    && (forall w :: w in gone ==> w < waiters)
  }

  lemma EnterConsistent(
    entered: seq<Waiter>, issued: seq<Waiter>, gone: set<Waiter>, queue: seq<Waiter>, since: set<Waiter>,
    signalled: set<Waiter>, waiters: nat, w: Waiter)
    requires Consistent(entered, issued, gone, queue, since, signalled, waiters)
    requires w !in entered && w !in gone && w < waiters
    ensures Consistent(entered + [w], issued, gone, queue + [w], since + {w}, signalled, waiters)
  {
    EnterKeeps(entered, issued, gone, queue, w);
    MembersGrow(queue, w);
  }

  class Router {
    const holdMaxMs: real
    var queue: seq<Waiter>
    var waitingSince: map<Waiter, real>
    var signalled: set<Waiter>
    var waiters: nat
    var rejections: nat
    var riskSignals: nat
    ghost var entered: seq<Waiter>
    ghost var issued: seq<Waiter>
    ghost var gone: set<Waiter>

    /** Neither served nor given up: whose `admit` still runs. */
    ghost predicate Active(w: Waiter)
      reads this
    {
      w < waiters && w !in issued && w !in gone
    }

    /** The invariant; it is looked into only where `Everyone` is called. */
    ghost predicate Valid()
      reads this
    {
      forall n {:trigger Asked(n)} :: Asked(n) ==>
        Consistent(entered, issued, gone, queue, waitingSince.Keys, signalled, waiters)
    }

    constructor (holdMaxMs: real)
      ensures Valid() && this.holdMaxMs == holdMaxMs && queue == [] && entered == [] && issued == [] && gone == {}
    {
      this.holdMaxMs := holdMaxMs;
      queue, waitingSince, signalled, waiters, rejections, riskSignals := [], map[], {}, 0, 0, 0;
      entered, issued, gone := [], [], {};
    }

    /** One per arriving request. */
    method NewWaiter() returns (w: Waiter)
      requires Valid()
      modifies this`waiters
      ensures Valid() && Active(w) && waiters == old(waiters) + 1 && w !in entered
      ensures forall x :: Active(x) <==> old(Active(x)) || x == w
    {
      Everyone();
      w := waiters;
      waiters := waiters + 1;
    }

    lemma Everyone()
      requires Valid()
      ensures Consistent(entered, issued, gone, queue, waitingSince.Keys, signalled, waiters)
      ensures forall w :: w in waitingSince <==> w in queue
      ensures forall w :: w in issued ==> w in entered
      ensures forall w :: w in queue ==> w in entered && Active(w)
      ensures Distinct(queue)
      ensures forall w :: w in entered && Active(w) ==> w in queue
    {
      assert Asked(0);
      KeepMembers(entered, gone);
      QueueDistinct(entered, issued, gone, queue);
      forall w | w in issued ensures w in entered { assert w in issued + queue; }
      forall w | w in entered && Active(w) ensures w in queue {
        assert w in Keep(entered, gone) && w in issued + queue;
      }
    }

    method Release(w: Waiter)
      modifies this`queue, this`waitingSince, this`signalled
      ensures queue == Removed(old(queue), w)
      ensures waitingSince == old(waitingSince) - {w} && signalled == old(signalled) - {w}
    {
      signalled := signalled - {w};
      waitingSince := waitingSince - {w};
      queue := Removed(queue, w);
    }

    /** The client's `admit` ends without a ticket: timed out, or cancelled at any time. */
    method GiveUp(w: Waiter)
      requires Valid() && Active(w)
      modifies this`queue, this`waitingSince, this`signalled, this`gone
      ensures Valid() && gone == old(gone) + {w} && queue == Removed(old(queue), w) && w !in queue
      ensures waitingSince == old(waitingSince) - {w} && signalled == old(signalled) - {w}
    {
      Everyone();
      RemovedMembers(queue, w);
      LeaveKeeps(entered, issued, gone, queue, w);
      Release(w);
      gone := gone + {w};
    }

    method Enter(w: Waiter, since: real)
      requires Valid() && Active(w)
      modifies this`queue, this`waitingSince, this`entered
      ensures Valid() && w in queue
      ensures queue == Line(old(queue), w) && entered == old(entered) + New(old(queue), w)
      ensures waitingSince == Since(old(waitingSince), w, since)
    {
      Everyone();
      if w !in queue {
        Append(w, since);
      } else {
        assert queue + [] == queue && entered + [] == entered;
      }
    }

    method Append(w: Waiter, since: real)
      requires Valid() && Active(w) && w !in entered
      modifies this`queue, this`waitingSince, this`entered
      ensures Valid() && queue == old(queue) + [w] && entered == old(entered) + [w]
      ensures waitingSince == old(waitingSince)[w := since]
    {
      Everyone();
      EnterConsistent(entered, issued, gone, queue, waitingSince.Keys, signalled, waiters, w);
      queue := queue + [w];
      waitingSince := waitingSince[w := since];
      entered := entered + [w];
      assert waitingSince.Keys == old(waitingSince).Keys + {w};
    }

    method SignalOnce(w: Waiter, blocked: bool)
      requires Valid() && w in queue
      modifies this`signalled, this`riskSignals
      ensures Valid()
      ensures riskSignals == old(riskSignals) + if blocked && w !in old(signalled) then 1 else 0
      ensures signalled == if blocked then old(signalled) + {w} else old(signalled)
    {
      Everyone();
      if blocked && w !in signalled {
        signalled := signalled + {w};
        riskSignals := riskSignals + 1;
      }
    }

    method Serve(w: Waiter)
      requires Valid() && queue != [] && queue[0] == w
      modifies this`queue, this`waitingSince, this`signalled, this`issued
      ensures Valid() && issued == old(issued) + [w] && queue == old(queue)[1..] && w !in queue
      ensures waitingSince == old(waitingSince) - {w} && signalled == old(signalled) - {w}
    {
      Everyone();
      RemovedMembers(queue, w);
      assert issued + queue == (issued + [w]) + queue[1..];
      Release(w);
      issued := issued + [w];
    }

    /** The head of the queue takes its ticket when there is room; nobody else does. */
    method Attempt(w: Waiter, room: bool) returns (r: Outcome)
      requires Valid() && queue != []
      modifies this`queue, this`waitingSince, this`signalled, this`issued
      ensures Valid() && r == if old(queue)[0] == w && room then Issued else Wait
      ensures r == Issued ==>
        issued == old(issued) + [w] && queue == old(queue)[1..] && w !in queue && w !in waitingSince && w !in signalled
      ensures r == Wait ==> issued == old(issued) && queue == old(queue) && waitingSince == old(waitingSince)
    {
      if queue[0] == w && room {
        Serve(w);
        return Issued;
      }
      r := Wait;
    }

    /** The waiter is in the queue from its first attempt on, and signals pressure at most once. */
    method Advance(w: Waiter, since: real, blocked: bool, room: bool) returns (r: Outcome)
      requires Valid() && Active(w)
      modifies this`queue, this`waitingSince, this`signalled, this`issued, this`entered, this`riskSignals
      ensures Valid()
      ensures r == if room && Line(old(queue), w)[0] == w then Issued else Wait
      ensures entered == old(entered) + New(old(queue), w)
      ensures riskSignals == old(riskSignals) + if blocked && w !in old(signalled) then 1 else 0
      ensures r == Issued ==>
        issued == old(issued) + [w] && queue == Line(old(queue), w)[1..] && w !in queue && w !in waitingSince && w !in signalled
      ensures r == Wait ==> issued == old(issued) && queue == Line(old(queue), w)
      ensures r == Wait ==> waitingSince == Since(old(waitingSince), w, since)
    {
      Enter(w, since);
      SignalOnce(w, blocked);
      r := Attempt(w, room);
    }

    /**
      One admission attempt. `feasible`: some group takes the request within the risk target;
      `room`: the attempt itself gets a ticket when it is made.
    */
    method Step(w: Waiter, waitedMs: real, now: real, baseline: bool, feasible: bool, room: bool) returns (r: Outcome)
      requires Valid() && Active(w)
      modifies this
      ensures Valid() && waiters == old(waiters)
      ensures r == if waitedMs >= holdMaxMs then Reject else if room && Line(old(queue), w)[0] == w then Issued else Wait
      ensures r == Reject ==>
        && gone == old(gone) + {w} && issued == old(issued) && entered == old(entered) && queue == Removed(old(queue), w)
        && rejections == old(rejections) + 1 && riskSignals == old(riskSignals)
      ensures r != Reject ==>
        && gone == old(gone) && rejections == old(rejections) && entered == old(entered) + New(old(queue), w)
        && riskSignals == old(riskSignals) + (if !baseline && !feasible && w !in old(signalled) then 1 else 0)
      ensures r == Issued ==> issued == old(issued) + [w] && queue == Line(old(queue), w)[1..]
      ensures r == Wait ==> issued == old(issued) && queue == Line(old(queue), w)
      ensures r == Wait ==> waitingSince == Since(old(waitingSince), w, now - waitedMs / 1000.0)
      ensures r != Wait ==> w !in queue && w !in waitingSince && w !in signalled
    {
      if waitedMs >= holdMaxMs {
        GiveUp(w);
        rejections := rejections + 1;
        return Reject;
      }
      r := Advance(w, now - waitedMs / 1000.0, !baseline && !feasible, room);
    }
  }

  /** The time of a waiter's first attempt stays. */
  function Since(m: map<Waiter, real>, w: Waiter, t: real): map<Waiter, real> { if w in m then m else m[w := t] }

  /** What a waiter adds to the queue: itself, when it is not in it yet. */
  function New(q: seq<Waiter>, w: Waiter): seq<Waiter> { if w in q then [] else [w] }

  function Line(q: seq<Waiter>, w: Waiter): (r: seq<Waiter>)
    ensures r != []
  {
    q + New(q, w)
  }

  lemma MembersGrow(q: seq<Waiter>, w: Waiter)
    ensures Members(q + [w]) == Members(q) + {w}
  {}
}
