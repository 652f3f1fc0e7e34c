/** What the invariant means for the requests of a run, at every event boundary. */
module PipelinePromises {
  import opened Options
  import opened EventQueue
  import opened Pipeline

  /** All requests that D `d` holds, then all that P `p` has not delivered. */
  function Line(s: State, p: nat, d: nat): seq<ReqId>
    requires p < |s.pairs| && d < |s.pairs|
  {
    DSide(s, d) + PSide(s, p)
  }

  /** Nobody overtakes: along every line the requests of one P come in the order P got them. */
  ghost predicate NoOvertaking(s: State) {
    forall p, d :: 0 <= p < |s.pairs| && 0 <= d < |s.pairs| ==> Ordered(Tags(s.reqs), Line(s, p, d))
  }

  /** A line never names a request twice: nobody is in two places of a P, of a D, or of a P and a D. */
  ghost predicate NoCopies(s: State) {
    forall p, d :: 0 <= p < |s.pairs| && 0 <= d < |s.pairs| ==> Distinct(Line(s, p, d))
  }

  /** Every enqueued request that is not served is on its P's or its D's side. */
  ghost predicate NothingLost(s: State) {
    forall r :: 0 <= r < |s.reqs| && s.reqs[r].order.Some? && s.reqs[r].done.None? ==>
      && s.reqs[r].pair < |s.pairs| && s.reqs[r].dPair < |s.pairs|
      && r in Line(s, s.reqs[r].pair, s.reqs[r].dPair)
  }

  ghost predicate WithinBounds(s: State, ph: Physics) {
    forall d :: 0 <= d < |s.pairs| ==>
      && 0.0 <= s.pairs[d].buffer <= ph.kvBuffer
      && s.pairs[d].buffer == s.heap.kv(d) + Unpulled(s.reqs, s.pairs[d].dReady)
      && Held(s.reqs, s.pairs[d].dRunning) <= ph.dTokens
  }

  /** A finished request emitted its whole output, however often it was preempted. */
  ghost predicate WholeOutputs(s: State) {
    forall r :: 0 <= r < |s.reqs| && s.reqs[r].output >= 1 ==>
      && s.reqs[r].emitted <= s.reqs[r].output
      && (s.reqs[r].done.Some? <==> s.reqs[r].emitted == s.reqs[r].output)
  }

  lemma OrderedJoin(tags: seq<Tag>, a: seq<ReqId>, b: seq<ReqId>)
    requires Ordered(tags, a) && Ordered(tags, b) && Cross(tags, a, b)
    ensures Ordered(tags, a + b)
  {
    forall i, j | 0 <= i < j < |a + b| ensures Before(tags, (a + b)[i], (a + b)[j]) {
      if j < |a| {
        assert Before(tags, a[i], a[j]);
      } else if i < |a| {
        assert a[i] in a && b[j - |a|] in b;
      } else {
        assert Before(tags, b[i - |a|], b[j - |a|]);
      }
    }
  }

  /** No overtaking, in every state at an event boundary: later steps only re-cut the lines. */
  lemma OrderKept(s: State, ph: Physics)
    requires Boundary(s, ph)
    ensures NoOvertaking(s) && FirstsInOrder(s.reqs)
  {
    forall p, d | 0 <= p < |s.pairs| && 0 <= d < |s.pairs| ensures Ordered(Tags(s.reqs), Line(s, p, d)) {
      assert PSides(s)[p] == PSide(s, p) && DSides(s)[d] == DSide(s, d);
      assert Cross(Tags(s.reqs), DSide(s, d), PSide(s, p));
      OrderedJoin(Tags(s.reqs), DSide(s, d), PSide(s, p));
    }
  }

  lemma NobodyTwice(s: State, ph: Physics)
    requires Boundary(s, ph)
    ensures NoCopies(s)
  {
    OrderKept(s, ph);
    forall p, d | 0 <= p < |s.pairs| && 0 <= d < |s.pairs| ensures Distinct(Line(s, p, d)) {
      var line := Line(s, p, d);
      forall i, j | 0 <= i < j < |line| ensures line[i] != line[j] {
        assert Ordered(Tags(s.reqs), line) && Before(Tags(s.reqs), line[i], line[j]);
      }
    }
  }

  lemma NobodyLost(s: State, ph: Physics)
    requires Boundary(s, ph)
    ensures NothingLost(s)
  {
    forall r | 0 <= r < |s.reqs| && s.reqs[r].order.Some? && s.reqs[r].done.None?
      ensures s.reqs[r].pair < |s.pairs| && s.reqs[r].dPair < |s.pairs|
      ensures r in Line(s, s.reqs[r].pair, s.reqs[r].dPair)
    {
      assert Tags(s.reqs)[r] == TagOf(s.reqs[r]) && Live(s.reqs)[r];
      assert r in PSides(s)[s.reqs[r].pair] || r in DSides(s)[s.reqs[r].dPair];
    }
  }

  lemma {:induction false} UnpulledPositive(reqs: seq<Req>, q: seq<ReqId>)
    requires forall r :: 0 <= r < |reqs| ==> reqs[r].kv >= 0.0
    ensures Unpulled(reqs, q) >= 0.0
  {
    if q != [] { UnpulledPositive(reqs, q[1..]); }
  }

  lemma {:induction false} HeldWithinReserved(reqs: seq<Req>, q: seq<ReqId>)
    requires forall i :: 0 <= i < |q| ==> q[i] < |reqs| && reqs[q[i]].emitted <= reqs[q[i]].output
    ensures Held(reqs, q) <= Reserved(reqs, q)
  {
    if q != [] { HeldWithinReserved(reqs, q[1..]); }
  }

  /** Receive buffers and KV caches stay within their sizes, in both admission modes. */
  lemma BoundsKept(s: State, events: seq<Timed>, ph: Physics)
    requires Boundary(s, ph) && EventsOk(s, events)
    ensures WithinBounds(s, ph)
  {
    forall d | 0 <= d < |s.pairs|
      ensures 0.0 <= s.pairs[d].buffer && Held(s.reqs, s.pairs[d].dRunning) <= ph.dTokens
    {
      UnpulledPositive(s.reqs, s.pairs[d].dReady);
      LinksPositive(s, events, events, d);
      if !ph.vllm { HeldByReservation(s, ph, d); }
      if s.pairs[d].dRunning == [] { assert Held(s.reqs, s.pairs[d].dRunning) == 0; }
    }
  }

  lemma {:induction false} LinksPositive(s: State, events: seq<Timed>, q: seq<Timed>, d: nat)
    requires EventsOk(s, events) && ReqsInRange(s) && forall e :: e in q ==> e in events
    ensures KvTo(q, d) >= 0.0
  {
    if q != [] {
      assert q[0] in q && EventOk(s, q[0]);
      LinksPositive(s, events, q[1..], d);
    }
  }

  lemma HeldByReservation(s: State, ph: Physics, d: nat)
    requires Boundary(s, ph) && d < |s.pairs| && !ph.vllm
    ensures Held(s.reqs, s.pairs[d].dRunning) <= ph.dTokens
  {
    var q := s.pairs[d].dRunning;
    forall i | 0 <= i < |q| ensures q[i] < |s.reqs| && s.reqs[q[i]].emitted <= s.reqs[q[i]].output {
      assert AllPulled(s.reqs, q) && q[i] in q;
      assert DSide(s, d)[i] == q[i] && DSides(s)[d] == DSide(s, d) && q[i] in DSides(s)[d];
      assert AllLive(Live(s.reqs), DSides(s)[d]) && Live(s.reqs)[q[i]];
      assert ReqOk(s.reqs[q[i]], s.now + ph.firstExtra);
    }
    HeldWithinReserved(s.reqs, q);
  }

  lemma OutputsWhole(s: State, ph: Physics)
    requires Boundary(s, ph)
    ensures WholeOutputs(s)
  {
    forall r | 0 <= r < |s.reqs| ensures ReqOk(s.reqs[r], s.now + ph.firstExtra) {}
  }

  /** What every state of every run keeps, in the terms of the program. */
  ghost predicate Promises(s: State, ph: Physics) {
    && NoOvertaking(s) && FirstsInOrder(s.reqs)
    && NoCopies(s) && NothingLost(s)
    && WithinBounds(s, ph)
    && WholeOutputs(s)
    && BooksOk(s)
    && WorkOk(s, ph, NOBODY, NOBODY)
  }

  lemma PromisesKept(s: State, events: seq<Timed>, ph: Physics)
    requires Boundary(s, ph) && EventsOk(s, events)
    ensures Promises(s, ph)
  {
    OrderKept(s, ph);
    NobodyTwice(s, ph);
    NobodyLost(s, ph);
    BoundsKept(s, events, ph);
    OutputsWhole(s, ph);
  }

  /** A P is idle with requests in its queue only while its head waits for room, with a retry pending. */
  lemma NoLostWakeupAtP(s: State, ph: Physics, p: nat)
    requires Boundary(s, ph) && p < |s.pairs|
    requires s.pairs[p].pQueue != [] && s.heap.count(Batch(p)) == 0
    ensures s.pairs[p].unsent != [] && s.heap.count(Retry(p)) == 1
  {
    assert PWork(s, p);
  }

  /** A D without a pending step holds nothing, unless the head alone is too large for an empty D. */
  lemma NoLostWakeupAtD(s: State, ph: Physics, d: nat)
    requires Boundary(s, ph) && d < |s.pairs| && s.heap.count(Decode(d)) == 0
    ensures s.pairs[d].dRunning == []
    ensures s.pairs[d].dReady != [] ==>
      s.pairs[d].dReady[0] < |s.reqs| && !FitsEmpty(s.reqs[s.pairs[d].dReady[0]], ph)
  {
    assert DWork(s, ph, d);
  }
}
