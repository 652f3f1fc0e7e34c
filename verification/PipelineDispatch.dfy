/** A new request is sent to its P: it is on the way there and counts as being at that P. */
module PipelineDispatch {
  import opened Options
  import opened EventQueue
  import opened Pipeline
  import opened PipelineSteps
  import opened PipelineMoves

  function NewReq(prompt: nat, output: nat, kv: real, p: nat, d: nat): Req {
    Req(prompt, output, kv, p, d, None, None, None, 0, false)
  }

  function Dispatched(s: State, now: real, x: Req, h: Summary): State
    requires x.pair < |s.pairs|
  {
    With(s, x.pair, s.pairs[x.pair].(atP := s.pairs[x.pair].atP[|s.reqs| := x.prompt]))
      .(reqs := s.reqs + [x], heap := h, now := now)
  }

  ghost predicate Dispatches(s: State, now: real, x: Req, h: Summary) {
    && x == NewReq(x.prompt, x.output, x.kv, x.pair, x.dPair)
    && x.pair < |s.pairs| && x.dPair < |s.pairs| && x.kv >= 0.0 && s.now <= now
    && AddedAnywhere(s.heap, h, PEnqueue(|s.reqs|))
  }

  lemma DispatchedViews(s: State, now: real, x: Req, h: Summary)
    requires Dispatches(s, now, x, h)
    ensures var s' := Dispatched(s, now, x, h);
      && PSides(s') == PSides(s) && DSides(s') == DSides(s)
      && Tags(s'.reqs) == Tags(s.reqs) + [TagOf(x)] && Live(s'.reqs) == Live(s.reqs) + [true]
  {
    var s' := Dispatched(s, now, x, h);
    forall q | 0 <= q < |s.pairs| ensures PSide(s', q) == PSide(s, q) && DSide(s', q) == DSide(s, q) {
      assert h.ids(Link(q)) == s.heap.ids(Link(q)) && h.ids(Batch(q)) == s.heap.ids(Batch(q));
    }
  }

  lemma LinesMore(tags: seq<Tag>, tags': seq<Tag>, ps: seq<seq<ReqId>>, ds: seq<seq<ReqId>>)
    requires LinesOk(tags, ps, ds) && tags <= tags'
    ensures LinesOk(tags', ps, ds)
  {
    forall q | 0 <= q < |ps| ensures Ordered(tags', ps[q]) && OfP(tags', ps[q], q) {
      assert Ordered(tags, ps[q]) && OfP(tags, ps[q], q);
      OrderedMore(tags, tags', ps[q]);
    }
    forall d | 0 <= d < |ds| ensures Ordered(tags', ds[d]) && OfD(tags', ds[d], d) {
      assert Ordered(tags, ds[d]) && OfD(tags, ds[d], d);
      OrderedMore(tags, tags', ds[d]);
    }
    forall q, d | 0 <= q < |ps| && 0 <= d < |ds| ensures Cross(tags', ds[d], ps[q]) {
      assert Cross(tags, ds[d], ps[q]);
      forall x, y | x in ds[d] && y in ps[q] ensures Before(tags', x, y) { assert Before(tags, x, y); }
    }
  }

  lemma OrderedMore(tags: seq<Tag>, tags': seq<Tag>, q: seq<ReqId>)
    requires Ordered(tags, q) && tags <= tags'
    ensures Ordered(tags', q)
  {
    forall x | x in q ensures Known(tags', x) { assert Known(tags, x); }
    forall i, j | 0 <= i < j < |q| ensures Before(tags', q[i], q[j]) { assert Before(tags, q[i], q[j]); }
  }

  /** One more request on its way to its P, wherever it stands among the pending ones. */
  /** A new number in the middle of a list without repetitions. */
  lemma InsertDistinct(a: seq<ReqId>, b: seq<ReqId>, r: ReqId)
    requires Distinct(a + b) && forall i :: 0 <= i < |a + b| ==> (a + b)[i] < r
    ensures Distinct(a + ([r] + b)) && forall y :: y in a + ([r] + b) <==> y in a + b || y == r
  {
    var coming, coming' := a + b, a + ([r] + b);
    forall i | 0 <= i < |coming'| ensures coming'[i] == if i < |a| then coming[i] else if i == |a| then r else coming[i - 1] {}
    forall i, j | 0 <= i < j < |coming'| ensures coming'[i] != coming'[j] {
      var i0, j0 := if i < |a| then i else i - 1, if j < |a| then j else j - 1;
      if i != |a| && j != |a| { assert coming[i0] != coming[j0]; }
    }
    forall y | y in coming ensures y in coming' {
      var i :| 0 <= i < |coming| && coming[i] == y;
      assert coming'[if i < |a| then i else i + 1] == y;
    }
    assert coming'[|a|] == r;
  }

  lemma CoverMore(
    tags: seq<Tag>, live: seq<bool>, ps: seq<seq<ReqId>>, ds: seq<seq<ReqId>>, a: seq<ReqId>, b: seq<ReqId>, n: nat, x: Tag)
    requires CoverOk(tags, live, ps, ds, a + b, n)
    requires x.order.None? && x.pair < |ps| && x.dPair < |ds|
    ensures CoverOk(tags + [x], live + [true], ps, ds, a + ([|tags|] + b), n)
  {
    forall i | 0 <= i < |a + b| ensures (a + b)[i] < |tags| { assert (a + b)[i] in a + b; }
    InsertDistinct(a, b, |tags|);
    forall q | 0 <= q < |ps| ensures AllLive(live + [true], ps[q]) { assert AllLive(live, ps[q]); }
    forall d | 0 <= d < |ds| ensures AllLive(live + [true], ds[d]) { assert AllLive(live, ds[d]); }
  }

  lemma {:induction false} InflightKeys(reqs: seq<Req>, atP: map<ReqId, nat>, atP': map<ReqId, nat>, p: nat)
    requires forall r :: 0 <= r < |reqs| ==> (r in atP <==> r in atP')
    ensures Inflight(reqs, atP', p) == Inflight(reqs, atP, p)
  {
    if reqs != [] { InflightKeys(reqs[..|reqs| - 1], atP, atP', p); }
  }

  lemma DispatchedBooks(s: State, now: real, x: Req, h: Summary)
    requires Dispatches(s, now, x, h) && BooksOk(s) && FlagsOk(s, NOBODY)
    ensures BooksOk(Dispatched(s, now, x, h)) && FlagsOk(Dispatched(s, now, x, h), NOBODY)
  {
    var s' := Dispatched(s, now, x, h);
    assert s'.reqs[..|s.reqs|] == s.reqs;
    forall p | 0 <= p < |s.pairs|
      ensures Inflight(s'.reqs, s'.pairs[p].atP, p) == Inflight(s.reqs, s.pairs[p].atP, p)
      ensures Decoding(s'.reqs, p) == Decoding(s.reqs, p)
    {
      InflightKeys(s.reqs, s.pairs[p].atP, s'.pairs[p].atP, p);
    }
  }

  lemma DispatchedBuffers(s: State, ph: Physics, now: real, x: Req, h: Summary)
    requires Dispatches(s, now, x, h) && BuffersOk(s, ph) && CapOk(s, ph, NOBODY)
    requires TokensOk(s, ph)
    ensures BuffersOk(Dispatched(s, now, x, h), ph) && CapOk(Dispatched(s, now, x, h), ph, NOBODY)
  {
    var s' := Dispatched(s, now, x, h);
    forall d | 0 <= d < |s.pairs|
      ensures Unpulled(s'.reqs, s'.pairs[d].dReady) == Unpulled(s.reqs, s.pairs[d].dReady)
      ensures Held(s'.reqs, s'.pairs[d].dRunning) == Held(s.reqs, s.pairs[d].dRunning)
      ensures Reserved(s'.reqs, s'.pairs[d].dRunning) == Reserved(s.reqs, s.pairs[d].dRunning)
    {
      assert AllPulled(s.reqs, s.pairs[d].dRunning) && Exist(s.reqs, s.pairs[d].dReady);
      forall i | 0 <= i < |s.pairs[d].dReady| ensures s.pairs[d].dReady[i] < |s.reqs| {
        assert s.pairs[d].dReady[i] in s.pairs[d].dReady;
      }
      forall i | 0 <= i < |s.pairs[d].dRunning| ensures s.pairs[d].dRunning[i] < |s.reqs| {
        assert s.pairs[d].dRunning[i] in s.pairs[d].dRunning;
      }
      UnpulledSame(s.reqs, s'.reqs, s.pairs[d].dReady);
      HeldSame(s.reqs, s'.reqs, s.pairs[d].dRunning);
    }
  }

  lemma DispatchedReqs(s: State, ph: Physics, now: real, x: Req, h: Summary)
    requires Dispatches(s, now, x, h)
    requires ReqsOk(s.reqs, s.now + ph.firstExtra) && FirstsInOrder(s.reqs)
    ensures ReqsOk(s.reqs + [x], now + ph.firstExtra) && FirstsInOrder(s.reqs + [x])
  {
    forall y | 0 <= y < |s.reqs| ensures ReqOk(s.reqs[y], now + ph.firstExtra) {
      assert ReqOk(s.reqs[y], s.now + ph.firstExtra);
    }
  }

  lemma DispatchedTokens(s: State, ph: Physics, now: real, x: Req, h: Summary)
    requires Dispatches(s, now, x, h) && TokensOk(s, ph) && JoinedOk(s, NOBODY)
    ensures TokensOk(Dispatched(s, now, x, h), ph) && JoinedOk(Dispatched(s, now, x, h), NOBODY)
  {
    var s' := Dispatched(s, now, x, h);
    DispatchedReqs(s, ph, now, x, h);
    DispatchedFresh(s, ph, now, x, h);
    DispatchedViews(s, now, x, h);
    forall d | 0 <= d < |s.pairs|
      ensures AllPulled(s'.reqs, s'.pairs[d].dRunning) && Exist(s'.reqs, s'.pairs[d].dReady)
      ensures FirstsLead(s'.reqs, DSide(s', d))
      ensures StartedOrIn(s'.reqs, s'.pairs[d].dRunning, h.ids(Decode(d)))
    {
      assert StartedOrIn(s.reqs, s.pairs[d].dRunning, s.heap.ids(Decode(d)));
      ListsSame(s.reqs, s'.reqs, s.pairs[d].dRunning, s.pairs[d].dReady, DSide(s, d), s.heap.ids(Decode(d)));
    }
  }

  lemma DispatchedFresh(s: State, ph: Physics, now: real, x: Req, h: Summary)
    requires Dispatches(s, now, x, h) && TokensOk(s, ph)
    ensures var s' := Dispatched(s, now, x, h);
      Fresh(s'.reqs, h.ids(Enqueue)) && forall p :: 0 <= p < |s.pairs| ==> Fresh(s'.reqs, PSide(s', p))
  {
    var s' := Dispatched(s, now, x, h);
    DispatchedViews(s, now, x, h);
    forall p | 0 <= p < |s.pairs| ensures Fresh(s'.reqs, PSide(s', p)) {
      assert PSides(s')[p] == PSides(s)[p];
      assert Fresh(s.reqs, PSide(s, p));
    }
    assert Fresh(s'.reqs, h.ids(Enqueue)) by {
      var a: seq<ReqId>, b: seq<ReqId> :| s.heap.ids(Enqueue) == a + b && h.ids(Enqueue) == a + ([|s.reqs|] + b);
      assert forall y :: y in h.ids(Enqueue) ==> y in a + b || y == |s.reqs|;
    }
  }

  function Enter(atP: map<ReqId, nat>, r: ReqId, prompt: nat): map<ReqId, nat> { atP[r := prompt] }

  lemma DispatchedPair(
    s: State, s': State, at: seq<map<ReqId, nat>>, at': seq<map<ReqId, nat>>, x: Req, q: nat)
    requires q < |s.pairs| == |s'.pairs| == |at| == |at'| && x.pair < |at| && PairAtP(s, at, q)
    requires x.first.None? && x.done.None?
    requires s'.reqs == s.reqs + [x] && at' == at[x.pair := Enter(at[x.pair], |s.reqs|, x.prompt)]
    requires s'.pairs[q].unsent == s.pairs[q].unsent && s'.pairs[q].pQueue == s.pairs[q].pQueue
    requires s'.pairs[q].atP == at'[q] && s.pairs[q].atP == at[q]
    requires s'.heap.ids(Link(q)) == s.heap.ids(Link(q)) && s'.heap.ids(Batch(q)) == s.heap.ids(Batch(q))
    requires DSide(s', q) == DSide(s, q)
    ensures PairAtP(s', at', q)
  {
    LeftMore(s.reqs, at, x, s.heap.ids(Link(q)));
    LeftMore(s.reqs, at, x, s.pairs[q].unsent);
    LeftMore(s.reqs, at, x, s.heap.ids(Batch(q)));
    LeftMore(s.reqs, at, x, s.pairs[q].pQueue);
    LeftMore(s.reqs, at, x, DSide(s, q));
  }

  lemma LeftMore(reqs: seq<Req>, at: seq<map<ReqId, nat>>, x: Req, q: seq<ReqId>)
    requires x.pair < |at|
    ensures var at' := at[x.pair := Enter(at[x.pair], |reqs|, x.prompt)];
      && (LeftP(reqs, at, q) ==> LeftP(reqs + [x], at', q))
      && (StillAtP(reqs, at, q) ==> StillAtP(reqs + [x], at', q))
  {}

  lemma DispatchedComing(s: State, now: real, x: Req, h: Summary)
    requires Dispatches(s, now, x, h) && AtPOk(s)
    ensures StillAtP(Dispatched(s, now, x, h).reqs, AtPs(Dispatched(s, now, x, h)), h.ids(Enqueue))
  {
    var a: seq<ReqId>, b: seq<ReqId> :| s.heap.ids(Enqueue) == a + b && h.ids(Enqueue) == a + ([|s.reqs|] + b);
    OneMore(a, b, |s.reqs|);
  }

  lemma OneMore(a: seq<ReqId>, b: seq<ReqId>, r: ReqId)
    ensures forall y :: y in a + ([r] + b) ==> y in a + b || y == r
  {}

  lemma DispatchedAtP(s: State, now: real, x: Req, h: Summary)
    requires Dispatches(s, now, x, h) && AtPOk(s)
    ensures AtPOk(Dispatched(s, now, x, h))
  {
    var s' := Dispatched(s, now, x, h);
    var at, at' := AtPs(s), AtPs(s');
    var r := |s.reqs|;
    assert at' == at[x.pair := Enter(at[x.pair], r, x.prompt)];
    DispatchedComing(s, now, x, h);
    forall q | 0 <= q < |s.pairs| ensures PairAtP(s', at', q) {
      assert PairAtP(s, at, q);
      assert DSide(s', q) == DSide(s, q);
      assert h.ids(Link(q)) == s.heap.ids(Link(q)) && h.ids(Batch(q)) == s.heap.ids(Batch(q));
      DispatchedPair(s, s', at, at', x, q);
    }
  }

  lemma DispatchedWork(s: State, ph: Physics, now: real, x: Req, h: Summary)
    requires Dispatches(s, now, x, h) && WorkOk(s, ph, NOBODY, NOBODY)
    ensures WorkOk(Dispatched(s, now, x, h), ph, NOBODY, NOBODY)
  {
    var s' := Dispatched(s, now, x, h);
    forall q | 0 <= q < |s.pairs| ensures PWork(s', q) { assert PWork(s, q); }
    forall d | 0 <= d < |s.pairs| ensures DWork(s', ph, d) { assert DWork(s, ph, d); }
  }

  lemma DispatchedLines(s: State, now: real, x: Req, h: Summary)
    requires Dispatches(s, now, x, h)
    requires LinesOk(Tags(s.reqs), PSides(s), DSides(s))
    requires CoverOk(Tags(s.reqs), Live(s.reqs), PSides(s), DSides(s), s.heap.ids(Enqueue), s.enqueued)
    ensures var s' := Dispatched(s, now, x, h);
      && LinesOk(Tags(s'.reqs), PSides(s'), DSides(s'))
      && CoverOk(Tags(s'.reqs), Live(s'.reqs), PSides(s'), DSides(s'), h.ids(Enqueue), s'.enqueued)
  {
    DispatchedViews(s, now, x, h);
    LinesMore(Tags(s.reqs), Tags(s.reqs + [x]), PSides(s), DSides(s));
    var a: seq<ReqId>, b: seq<ReqId> :| s.heap.ids(Enqueue) == a + b && h.ids(Enqueue) == a + ([|s.reqs|] + b);
    CoverMore(Tags(s.reqs), Live(s.reqs), PSides(s), DSides(s), a, b, s.enqueued, TagOf(x));
  }

  lemma DispatchedKeeps(s: State, ph: Physics, now: real, x: Req, h: Summary)
    requires Boundary(s, ph) && Dispatches(s, now, x, h)
    ensures Boundary(Dispatched(s, now, x, h), ph)
  {
    DispatchedLines(s, now, x, h);
    DispatchedBooks(s, now, x, h);
    DispatchedBuffers(s, ph, now, x, h);
    DispatchedTokens(s, ph, now, x, h);
    DispatchedAtP(s, now, x, h);
    DispatchedWork(s, ph, now, x, h);
  }
}
