/** The D side: sequences join, are preempted, and a decode step begins or ends. */
module PipelineDecode {
  import opened Options
  import opened EventQueue
  import opened Pipeline
  import opened PipelineSteps
  import opened PipelineMoves

  // ---- requests that differ only in what no line depends on -----------------------------------

  ghost predicate SameBut(reqs: seq<Req>, reqs': seq<Req>) {
    && |reqs'| == |reqs|
    && forall i :: 0 <= i < |reqs| ==> reqs'[i] == reqs[i].(pulled := reqs'[i].pulled)
  }

  lemma {:induction false} SumsSame(reqs: seq<Req>, reqs': seq<Req>, atP: map<ReqId, nat>, p: nat)
    requires SameBut(reqs, reqs')
    ensures Inflight(reqs', atP, p) == Inflight(reqs, atP, p) && Decoding(reqs', p) == Decoding(reqs, p)
  {
    if reqs != [] {
      var n := |reqs| - 1;
      SumsSame(reqs[..n], reqs'[..n], atP, p);
    }
  }

  lemma {:induction false} SplitSums(reqs: seq<Req>, a: seq<ReqId>, b: seq<ReqId>)
    ensures Held(reqs, a + b) == Held(reqs, a) + Held(reqs, b)
    ensures Reserved(reqs, a + b) == Reserved(reqs, a) + Reserved(reqs, b)
    ensures Unpulled(reqs, a + b) == Unpulled(reqs, a) + Unpulled(reqs, b)
  {
    if a == [] {
      assert a + b == b;
    } else {
      assert (a + b)[1..] == a[1..] + b;
      SplitSums(reqs, a[1..], b);
    }
  }

  /** No request is in two lines, or twice in one. */
  lemma LinesApart(s: State, d: nat)
    requires d < |s.pairs| && LinesOk(Tags(s.reqs), PSides(s), DSides(s))
    ensures Distinct(DSide(s, d))
    ensures forall x :: x in DSide(s, d) ==> x < |s.reqs| && s.reqs[x].dPair == d && s.reqs[x].order.Some?
    ensures forall p, x :: 0 <= p < |s.pairs| && x in DSide(s, d) ==> x !in PSide(s, p)
  {
    var tags := Tags(s.reqs);
    assert DSides(s)[d] == DSide(s, d);
    assert Ordered(tags, DSide(s, d)) && OfD(tags, DSide(s, d), d);
    forall x | x in DSide(s, d) ensures x < |s.reqs| && s.reqs[x].dPair == d && s.reqs[x].order.Some? {
      assert Known(tags, x);
    }
    forall i, j | 0 <= i < j < |DSide(s, d)| ensures DSide(s, d)[i] != DSide(s, d)[j] {
      assert Before(tags, DSide(s, d)[i], DSide(s, d)[j]);
    }
    forall p, x | 0 <= p < |s.pairs| && x in DSide(s, d) ensures x !in PSide(s, p) {
      assert PSides(s)[p] == PSide(s, p);
      assert Cross(tags, DSide(s, d), PSide(s, p));
      assert !Before(tags, x, x);
    }
  }

  // ---- sequences join ------------------------------------------------------------------------

  function PullAll(reqs: seq<Req>, q: seq<ReqId>): seq<Req> {
    seq(|reqs|, i requires 0 <= i < |reqs| => if i in q then reqs[i].(pulled := true) else reqs[i])
  }

  /** The first `k` waiting sequences join; their KV leaves the receive buffer. */
  function Joined(s: State, d: nat, k: nat): State
    requires d < |s.pairs| && k <= |s.pairs[d].dReady|
  {
    var pr := s.pairs[d];
    var q := pr.dReady[..k];
    With(s, d, pr.(dRunning := pr.dRunning + q, dReady := pr.dReady[k..], buffer := pr.buffer - Unpulled(s.reqs, q)))
      .(reqs := PullAll(s.reqs, q))
  }

  lemma JoinedViews(s: State, d: nat, k: nat)
    requires d < |s.pairs| && k <= |s.pairs[d].dReady|
    ensures var s' := Joined(s, d, k);
      && SameBut(s.reqs, s'.reqs)
      && PSides(s') == PSides(s) && DSides(s') == DSides(s)
      && Tags(s'.reqs) == Tags(s.reqs) && Live(s'.reqs) == Live(s.reqs)
  {
    var s' := Joined(s, d, k);
    assert s.pairs[d].dReady == s.pairs[d].dReady[..k] + s.pairs[d].dReady[k..];
    forall q | 0 <= q < |s.pairs| ensures DSide(s', q) == DSide(s, q) && PSide(s', q) == PSide(s, q) {}
  }

  lemma JoinedBooks(s: State, d: nat, k: nat)
    requires d < |s.pairs| && k <= |s.pairs[d].dReady| && BooksOk(s) && FlagsOk(s, d) && ReqsInRange(s)
    ensures BooksOk(Joined(s, d, k)) && FlagsOk(Joined(s, d, k), d) && ReqsInRange(Joined(s, d, k))
  {
    var s' := Joined(s, d, k);
    JoinedViews(s, d, k);
    forall p | 0 <= p < |s.pairs|
      ensures Inflight(s'.reqs, s.pairs[p].atP, p) == Inflight(s.reqs, s.pairs[p].atP, p)
      ensures Decoding(s'.reqs, p) == Decoding(s.reqs, p)
    {
      SumsSame(s.reqs, s'.reqs, s.pairs[p].atP, p);
    }
  }

  /** What is ready after a join did not join. */
  lemma StillReady(s: State, d: nat, k: nat, e: nat)
    requires d < |s.pairs| && k <= |s.pairs[d].dReady| && e < |s.pairs|
    requires LinesOk(Tags(s.reqs), PSides(s), DSides(s))
    ensures forall x :: x in Joined(s, d, k).pairs[e].dReady ==> x !in s.pairs[d].dReady[..k]
  {
    LinesApart(s, d);
    LinesApart(s, e);
    var q, ready := s.pairs[d].dReady[..k], Joined(s, d, k).pairs[e].dReady;
    forall i | 0 <= i < |ready| ensures ready[i] !in q {
      if e == d { assert ready[i] == DSide(s, d)[|s.pairs[d].dRunning| + k + i]; } else { assert ready[i] in DSide(s, e); }
      forall j | 0 <= j < |q| ensures q[j] != ready[i] { assert q[j] == DSide(s, d)[|s.pairs[d].dRunning| + j]; }
    }
  }

  lemma JoinedBuffers(s: State, ph: Physics, d: nat, k: nat)
    requires d < |s.pairs| && k <= |s.pairs[d].dReady| && BuffersOk(s, ph)
    requires LinesOk(Tags(s.reqs), PSides(s), DSides(s)) && ReqsInRange(s)
    ensures BuffersOk(Joined(s, d, k), ph)
  {
    var s' := Joined(s, d, k);
    var ready := s.pairs[d].dReady;
    var q := ready[..k];
    LinesApart(s, d);
    assert ready == q + ready[k..];
    SplitSums(s.reqs, q, ready[k..]);
    forall e | 0 <= e < |s.pairs|
      ensures Unpulled(s'.reqs, s'.pairs[e].dReady) == Unpulled(s.reqs, s'.pairs[e].dReady)
    {
      StillReady(s, d, k, e);
      UnpulledSame(s.reqs, s'.reqs, s'.pairs[e].dReady);
    }
    UnpulledNonneg(s.reqs, q);
  }

  lemma {:induction false} UnpulledNonneg(reqs: seq<Req>, q: seq<ReqId>)
    requires forall i :: 0 <= i < |reqs| ==> reqs[i].kv >= 0.0
    ensures Unpulled(reqs, q) >= 0.0
  {
    if q != [] { UnpulledNonneg(reqs, q[1..]); }
  }

  ghost predicate RoomFor(s: State, ph: Physics, d: nat, k: nat)
    requires d < |s.pairs| && k <= |s.pairs[d].dReady|
  {
    ph.vllm || k == 0 || Reserved(s.reqs, s.pairs[d].dRunning) + Reserved(s.reqs, s.pairs[d].dReady[..k]) <= ph.dTokens
  }

  lemma JoinedCap(s: State, ph: Physics, d: nat, k: nat)
    requires d < |s.pairs| && k <= |s.pairs[d].dReady| && CapOk(s, ph, d) && RoomFor(s, ph, d, k)
    ensures CapOk(Joined(s, d, k), ph, d)
  {
    var s' := Joined(s, d, k);
    JoinedViews(s, d, k);
    forall e | 0 <= e < |s.pairs|
      ensures Held(s'.reqs, s'.pairs[e].dRunning) == Held(s.reqs, s'.pairs[e].dRunning)
      ensures Reserved(s'.reqs, s'.pairs[e].dRunning) == Reserved(s.reqs, s'.pairs[e].dRunning)
    {
      HeldSame(s.reqs, s'.reqs, s'.pairs[e].dRunning);
    }
    SplitSums(s.reqs, s.pairs[d].dRunning, s.pairs[d].dReady[..k]);
    if k == 0 { assert s.pairs[d].dRunning + s.pairs[d].dReady[..k] == s.pairs[d].dRunning; }
  }

  lemma JoinedReqs(reqs: seq<Req>, q: seq<ReqId>, latest: real)
    requires ReqsOk(reqs, latest) && FirstsInOrder(reqs)
    ensures ReqsOk(PullAll(reqs, q), latest) && FirstsInOrder(PullAll(reqs, q))
  {
    forall x | 0 <= x < |reqs| ensures ReqOk(PullAll(reqs, q)[x], latest) { assert ReqOk(reqs[x], latest); }
  }

  lemma PulledFresh(reqs: seq<Req>, pulled: seq<ReqId>, q: seq<ReqId>)
    requires Fresh(reqs, q) && forall x :: x in q ==> x !in pulled
    ensures Fresh(PullAll(reqs, pulled), q)
  {}

  lemma PrefixInLine(running: seq<ReqId>, ready: seq<ReqId>, k: nat)
    requires k <= |ready|
    ensures forall x :: x in ready[..k] ==> x in running + ready
  {}

  lemma JoinedLists(s: State, ph: Physics, d: nat, k: nat, e: nat)
    requires d < |s.pairs| && k <= |s.pairs[d].dReady| && e < |s.pairs|
    requires AllPulled(s.reqs, s.pairs[e].dRunning) && Exist(s.reqs, s.pairs[e].dReady)
    requires FirstsLead(s.reqs, DSide(s, e))
    ensures var s' := Joined(s, d, k);
      && AllPulled(s'.reqs, s'.pairs[e].dRunning) && Exist(s'.reqs, s'.pairs[e].dReady)
      && FirstsLead(s'.reqs, DSide(s', e))
  {
    var s' := Joined(s, d, k);
    JoinedViews(s, d, k);
    assert DSides(s')[e] == DSides(s)[e];
    forall x | x in s.pairs[d].dReady[..k] ensures x in s.pairs[d].dReady {}
    forall x | x in s.pairs[d].dReady[k..] ensures x in s.pairs[d].dReady {}
  }

  lemma JoinedTokens(s: State, ph: Physics, d: nat, k: nat)
    requires d < |s.pairs| && k <= |s.pairs[d].dReady| && TokensOk(s, ph) && JoinedOk(s, d)
    requires LinesOk(Tags(s.reqs), PSides(s), DSides(s))
    requires forall x :: x in s.heap.ids(Enqueue) ==> x < |s.reqs| && s.reqs[x].order.None?
    ensures TokensOk(Joined(s, d, k), ph) && JoinedOk(Joined(s, d, k), d)
  {
    var s' := Joined(s, d, k);
    JoinedReqs(s.reqs, s.pairs[d].dReady[..k], s.now + ph.firstExtra);
    LinesApart(s, d);
    PrefixInLine(s.pairs[d].dRunning, s.pairs[d].dReady, k);
    forall p | 0 <= p < |s.pairs| ensures Fresh(s'.reqs, PSide(s', p)) {
      assert Fresh(s.reqs, PSide(s, p));
      assert PSide(s', p) == PSide(s, p);
      PulledFresh(s.reqs, s.pairs[d].dReady[..k], PSide(s, p));
    }
    PulledFresh(s.reqs, s.pairs[d].dReady[..k], s.heap.ids(Enqueue));
    forall e | 0 <= e < |s.pairs|
      ensures AllPulled(s'.reqs, s'.pairs[e].dRunning) && Exist(s'.reqs, s'.pairs[e].dReady)
      ensures FirstsLead(s'.reqs, DSide(s', e))
    {
      JoinedLists(s, ph, d, k, e);
    }
    forall e | 0 <= e < |s.pairs| && e != d ensures StartedOrIn(s'.reqs, s'.pairs[e].dRunning, s.heap.ids(Decode(e))) {
      assert StartedOrIn(s.reqs, s.pairs[e].dRunning, s.heap.ids(Decode(e)));
    }
  }

  lemma JoinedAtP(s: State, d: nat, k: nat)
    requires d < |s.pairs| && k <= |s.pairs[d].dReady| && AtPOk(s)
    ensures AtPOk(Joined(s, d, k))
  {
    var s' := Joined(s, d, k);
    JoinedViews(s, d, k);
    assert AtPs(s') == AtPs(s);
    forall q | 0 <= q < |s.pairs| ensures PairAtP(s', AtPs(s), q) {
      assert PairAtP(s, AtPs(s), q);
      assert DSides(s')[q] == DSides(s)[q];
    }
  }

  lemma JoinedWork(s: State, ph: Physics, d: nat, k: nat)
    requires d < |s.pairs| && k <= |s.pairs[d].dReady| && WorkOk(s, ph, NOBODY, d)
    ensures WorkOk(Joined(s, d, k), ph, NOBODY, d)
  {
    var s' := Joined(s, d, k);
    JoinedViews(s, d, k);
    forall q | 0 <= q < |s.pairs| ensures PWork(s', q) { assert PWork(s, q); }
    forall e | 0 <= e < |s.pairs| && e != d ensures DWork(s', ph, e) { assert DWork(s, ph, e); }
  }

  lemma JoinedKeeps(s: State, ph: Physics, d: nat, k: nat)
    requires d < |s.pairs| && k <= |s.pairs[d].dReady| && Inv(s, ph, NOBODY, d) && RoomFor(s, ph, d, k)
    ensures Inv(Joined(s, d, k), ph, NOBODY, d)
  {
    ComingUnordered(s, ph, NOBODY, d);
    JoinedViews(s, d, k);
    JoinedBooks(s, d, k);
    JoinedBuffers(s, ph, d, k);
    JoinedCap(s, ph, d, k);
    JoinedTokens(s, ph, d, k);
    JoinedAtP(s, d, k);
    JoinedWork(s, ph, d, k);
  }

  // ---- the latest sequence is preempted -------------------------------------------------------

  function Preempted(s: State, d: nat): State
    requires d < |s.pairs| && s.pairs[d].dRunning != []
  {
    var pr := s.pairs[d];
    var n := |pr.dRunning| - 1;
    With(s, d, pr.(dRunning := pr.dRunning[..n], dReady := [pr.dRunning[n]] + pr.dReady))
  }

  lemma PreemptedViews(s: State, d: nat)
    requires d < |s.pairs| && s.pairs[d].dRunning != []
    ensures PSides(Preempted(s, d)) == PSides(s) && DSides(Preempted(s, d)) == DSides(s)
    ensures AtPs(Preempted(s, d)) == AtPs(s)
  {
    var s' := Preempted(s, d);
    var n := |s.pairs[d].dRunning| - 1;
    assert s.pairs[d].dRunning == s.pairs[d].dRunning[..n] + [s.pairs[d].dRunning[n]];
    forall q | 0 <= q < |s.pairs| ensures DSide(s', q) == DSide(s, q) && PSide(s', q) == PSide(s, q) {}
  }

  lemma PreemptedBuffers(s: State, ph: Physics, d: nat)
    requires d < |s.pairs| && s.pairs[d].dRunning != [] && BuffersOk(s, ph) && ph.vllm && CapOk(s, ph, d)
    requires AllPulled(s.reqs, s.pairs[d].dRunning)
    ensures BuffersOk(Preempted(s, d), ph) && CapOk(Preempted(s, d), ph, d)
  {
    var n := |s.pairs[d].dRunning| - 1;
    assert s.pairs[d].dRunning[n] in s.pairs[d].dRunning;
    assert ([s.pairs[d].dRunning[n]] + s.pairs[d].dReady)[1..] == s.pairs[d].dReady;
  }

  lemma PreemptedTokens(s: State, ph: Physics, d: nat)
    requires d < |s.pairs| && s.pairs[d].dRunning != [] && TokensOk(s, ph) && JoinedOk(s, d)
    ensures TokensOk(Preempted(s, d), ph) && JoinedOk(Preempted(s, d), d)
  {
    var s' := Preempted(s, d);
    PreemptedViews(s, d);
    forall p | 0 <= p < |s.pairs| ensures Fresh(s'.reqs, PSide(s', p)) {
      assert PSides(s')[p] == PSides(s)[p];
      assert Fresh(s.reqs, PSide(s, p));
    }
    forall e | 0 <= e < |s.pairs|
      ensures AllPulled(s'.reqs, s'.pairs[e].dRunning) && Exist(s'.reqs, s'.pairs[e].dReady)
      ensures FirstsLead(s'.reqs, DSide(s', e))
    {
      assert AllPulled(s.reqs, s.pairs[e].dRunning) && Exist(s.reqs, s.pairs[e].dReady);
      assert DSides(s')[e] == DSides(s)[e];
      assert FirstsLead(s.reqs, DSide(s, e));
      if e == d { PreemptedMembers(s, d); }
    }
  }

  lemma PreemptedMembers(s: State, d: nat)
    requires d < |s.pairs| && s.pairs[d].dRunning != []
    ensures var s' := Preempted(s, d);
      && (forall x :: x in s'.pairs[d].dRunning ==> x in s.pairs[d].dRunning)
      && (forall x :: x in s'.pairs[d].dReady ==> x in s.pairs[d].dRunning || x in s.pairs[d].dReady)
  {}

  lemma PreemptedAtP(s: State, d: nat)
    requires d < |s.pairs| && s.pairs[d].dRunning != [] && AtPOk(s)
    ensures AtPOk(Preempted(s, d))
  {
    var s' := Preempted(s, d);
    PreemptedViews(s, d);
    forall q | 0 <= q < |s.pairs| ensures PairAtP(s', AtPs(s), q) {
      assert PairAtP(s, AtPs(s), q);
      assert DSides(s')[q] == DSides(s)[q];
    }
  }

  lemma PreemptedWork(s: State, ph: Physics, d: nat)
    requires d < |s.pairs| && s.pairs[d].dRunning != [] && WorkOk(s, ph, NOBODY, d)
    ensures WorkOk(Preempted(s, d), ph, NOBODY, d)
  {
    var s' := Preempted(s, d);
    forall q | 0 <= q < |s.pairs| ensures PWork(s', q) { assert PWork(s, q); }
    forall e | 0 <= e < |s.pairs| && e != d ensures DWork(s', ph, e) { assert DWork(s, ph, e); }
  }

  lemma PreemptedKeeps(s: State, ph: Physics, d: nat)
    requires d < |s.pairs| && s.pairs[d].dRunning != [] && Inv(s, ph, NOBODY, d) && ph.vllm
    ensures Inv(Preempted(s, d), ph, NOBODY, d)
  {
    PreemptedViews(s, d);
    PreemptedBuffers(s, ph, d);
    PreemptedTokens(s, ph, d);
    PreemptedAtP(s, d);
    PreemptedWork(s, ph, d);
  }

  // ---- a decode step begins, ends, or none does --------------------------------------------------

  function Stopped(s: State, d: nat): State
    requires d < |s.pairs|
  {
    With(s, d, s.pairs[d].(dLooping := false))
  }

  lemma StoppedKeeps(s: State, ph: Physics, d: nat)
    requires d < |s.pairs| && Inv(s, ph, NOBODY, d) && s.pairs[d].dRunning == []
    requires s.pairs[d].dReady != [] ==> s.pairs[d].dReady[0] < |s.reqs| && !FitsEmpty(s.reqs[s.pairs[d].dReady[0]], ph)
    ensures Boundary(Stopped(s, d), ph)
  {
    LoopKeeps(s, Stopped(s, d), ph, d, []);
  }

  function StepStarted(s: State, d: nat, h: Summary): State { s.(heap := h) }

  lemma StepStartedKeeps(s: State, ph: Physics, d: nat, joined: seq<ReqId>, h: Summary)
    requires d < |s.pairs| && Inv(s, ph, NOBODY, d) && s.pairs[d].dRunning != []
    requires ph.vllm ==> Held(s.reqs, s.pairs[d].dRunning) + |s.pairs[d].dRunning| <= ph.dTokens
    requires StartedOrIn(s.reqs, s.pairs[d].dRunning, joined)
    requires Added(s.heap, h, DEnd(d, joined)) && s.heap.ids(Decode(d)) == []
    ensures Boundary(StepStarted(s, d, h), ph)
  {
    StepStartedLoop(s, d, joined, h);
    LoopKeeps(s, StepStarted(s, d, h), ph, d, joined);
  }

  lemma StepStartedLoop(s: State, d: nat, joined: seq<ReqId>, h: Summary)
    requires d < |s.pairs| && FlagsOk(s, d)
    requires Added(s.heap, h, DEnd(d, joined)) && s.heap.ids(Decode(d)) == []
    ensures LoopChange(s, StepStarted(s, d, h), d) && s.pairs[d].dLooping && h.ids(Decode(d)) == joined
  {
    assert s.heap.ids(Decode(d)) + joined == joined;
  }

  /** Pair `d` stops looping, or the end of its step becomes the pending event `h`. */
  ghost predicate LoopChange(s: State, s': State, d: nat) {
    && d < |s.pairs| == |s'.pairs| && s'.reqs == s.reqs && s'.now == s.now && s'.enqueued == s.enqueued
    && (forall q :: 0 <= q < |s.pairs| ==> s'.pairs[q] == s.pairs[q].(dLooping := s'.pairs[q].dLooping))
    && (forall q :: 0 <= q < |s.pairs| && q != d ==> s'.pairs[q] == s.pairs[q])
    && (forall k {:trigger s'.heap.ids(k)} :: k != Decode(d) ==> s'.heap.ids(k) == s.heap.ids(k))
    && (forall k {:trigger s'.heap.count(k)} ::
      s'.heap.count(k) == s.heap.count(k) + if k == Decode(d) && s'.pairs[d].dLooping then 1 else 0)
    && (forall e {:trigger s'.heap.kv(e)} :: s'.heap.kv(e) == s.heap.kv(e))
  }

  lemma LoopViews(s: State, s': State, d: nat)
    requires LoopChange(s, s', d)
    ensures PSides(s') == PSides(s) && DSides(s') == DSides(s) && AtPs(s') == AtPs(s)
  {
    forall q | 0 <= q < |s.pairs| ensures DSide(s', q) == DSide(s, q) && PSide(s', q) == PSide(s, q) {
      assert s'.heap.ids(Link(q)) == s.heap.ids(Link(q)) && s'.heap.ids(Batch(q)) == s.heap.ids(Batch(q));
    }
  }

  lemma LoopBooks(s: State, s': State, ph: Physics, d: nat)
    requires LoopChange(s, s', d)
    requires FlagsOk(s, d) && BooksOk(s) && BuffersOk(s, ph) && CapOk(s, ph, d)
    requires ph.vllm && s.pairs[d].dRunning != [] ==>
      Held(s.reqs, s.pairs[d].dRunning) + |s.pairs[d].dRunning| <= ph.dTokens
    ensures FlagsOk(s', NOBODY) && BooksOk(s') && BuffersOk(s', ph) && CapOk(s', ph, NOBODY)
  {}

  lemma LoopAtP(s: State, s': State, d: nat)
    requires LoopChange(s, s', d) && AtPOk(s)
    ensures AtPOk(s')
  {
    LoopViews(s, s', d);
    assert s'.heap.ids(Enqueue) == s.heap.ids(Enqueue);
    forall q | 0 <= q < |s.pairs| ensures PairAtP(s', AtPs(s), q) {
      assert PairAtP(s, AtPs(s), q);
      assert DSides(s')[q] == DSides(s)[q];
    }
  }

  lemma LoopLists(s: State, s': State, ph: Physics, d: nat, joined: seq<ReqId>)
    requires LoopChange(s, s', d) && TokensOk(s, ph) && JoinedOk(s, d)
    requires s.pairs[d].dRunning == [] || s'.heap.ids(Decode(d)) == joined
    requires StartedOrIn(s.reqs, s.pairs[d].dRunning, joined)
    ensures TokensOk(s', ph) && JoinedOk(s', NOBODY)
  {
    LoopViews(s, s', d);
    forall p | 0 <= p < |s.pairs| ensures Fresh(s'.reqs, PSide(s', p)) {
      assert PSides(s')[p] == PSides(s)[p];
      assert Fresh(s.reqs, PSide(s, p));
    }
    forall e | 0 <= e < |s.pairs|
      ensures AllPulled(s'.reqs, s'.pairs[e].dRunning) && Exist(s'.reqs, s'.pairs[e].dReady)
      ensures FirstsLead(s'.reqs, DSide(s', e))
      ensures StartedOrIn(s'.reqs, s'.pairs[e].dRunning, s'.heap.ids(Decode(e)))
    {
      assert AllPulled(s.reqs, s.pairs[e].dRunning) && Exist(s.reqs, s.pairs[e].dReady);
      assert DSides(s')[e] == DSides(s)[e];
      assert FirstsLead(s.reqs, DSide(s, e));
    }
  }

  lemma LoopWork(s: State, s': State, ph: Physics, d: nat)
    requires LoopChange(s, s', d) && WorkOk(s, ph, NOBODY, d)
    requires s'.pairs[d].dLooping <==> s.pairs[d].dRunning != []
    requires !s'.pairs[d].dLooping && s.pairs[d].dReady != [] ==>
      s.pairs[d].dReady[0] < |s.reqs| && !FitsEmpty(s.reqs[s.pairs[d].dReady[0]], ph)
    ensures WorkOk(s', ph, NOBODY, NOBODY)
  {
    forall q | 0 <= q < |s.pairs| ensures PWork(s', q) { assert PWork(s, q); }
    forall e | 0 <= e < |s.pairs| ensures DWork(s', ph, e) {
      if e != d { assert DWork(s, ph, e); }
    }
  }

  lemma LoopKeeps(s: State, s': State, ph: Physics, d: nat, joined: seq<ReqId>)
    requires LoopChange(s, s', d) && Inv(s, ph, NOBODY, d)
    requires ph.vllm && s.pairs[d].dRunning != [] ==>
      Held(s.reqs, s.pairs[d].dRunning) + |s.pairs[d].dRunning| <= ph.dTokens
    requires s.pairs[d].dRunning == [] || s'.heap.ids(Decode(d)) == joined
    requires StartedOrIn(s.reqs, s.pairs[d].dRunning, joined)
    requires s'.pairs[d].dLooping <==> s.pairs[d].dRunning != []
    requires !s'.pairs[d].dLooping && s.pairs[d].dReady != [] ==>
      s.pairs[d].dReady[0] < |s.reqs| && !FitsEmpty(s.reqs[s.pairs[d].dReady[0]], ph)
    ensures Boundary(s', ph)
  {
    LoopViews(s, s', d);
    LoopBooks(s, s', ph, d);
    LoopAtP(s, s', d);
    LoopLists(s, s', ph, d, joined);
    LoopWork(s, s', ph, d);
  }

  function StepEnded(s: State, t: real, h: Summary): State { s.(heap := h, now := t) }

  lemma StepEndedParts(s: State, ph: Physics, t: real, d: nat, joined: seq<ReqId>, h: Summary)
    requires d < |s.pairs| && s.now <= t && Removed(s.heap, h, DEnd(d, joined))
    requires FlagsOk(s, NOBODY) && BooksOk(s) && BuffersOk(s, ph)
    ensures var s' := StepEnded(s, t, h); FlagsOk(s', d) && BooksOk(s') && BuffersOk(s', ph)
  {
    assert h.count(Decode(d)) == 0;
  }

  lemma StepEndedQuiet(s: State, t: real, d: nat, joined: seq<ReqId>, h: Summary)
    requires d < |s.pairs| && s.now <= t && Removed(s.heap, h, DEnd(d, joined))
    ensures Quiet(s, StepEnded(s, t, h))
  {
    var s' := StepEnded(s, t, h);
    assert PSides(s') == PSides(s) && DSides(s') == DSides(s);
  }

  lemma StepEndedAtP(s: State, t: real, d: nat, joined: seq<ReqId>, h: Summary)
    requires Removed(s.heap, h, DEnd(d, joined)) && AtPOk(s)
    ensures AtPOk(StepEnded(s, t, h))
  {
    var s' := StepEnded(s, t, h);
    assert AtPs(s') == AtPs(s);
    forall q | 0 <= q < |s.pairs| ensures PairAtP(s', AtPs(s), q) {
      assert PairAtP(s, AtPs(s), q);
      assert DSide(s', q) == DSide(s, q);
    }
  }

  lemma StepEndedKeeps(s: State, ph: Physics, t: real, d: nat, joined: seq<ReqId>, h: Summary)
    requires Boundary(s, ph) && d < |s.pairs| && s.now <= t
    requires Removed(s.heap, h, DEnd(d, joined)) && h.ids(Decode(d)) == []
    ensures Inv(StepEnded(s, t, h), ph, NOBODY, d)
    ensures StartedOrIn(s.reqs, s.pairs[d].dRunning, joined)
  {
    var s' := StepEnded(s, t, h);
    StepEndedParts(s, ph, t, d, joined, h);
    StepEndedQuiet(s, t, d, joined, h);
    StepEndedAtP(s, t, d, joined, h);
    QuietKeeps(s, s', ph, NOBODY);
    QuietTokens(s, s', ph);
    StepEndedRest(s, ph, t, d, joined, h);
  }

  lemma StepEndedRest(s: State, ph: Physics, t: real, d: nat, joined: seq<ReqId>, h: Summary)
    requires JoinedOk(s, NOBODY) && WorkOk(s, ph, NOBODY, NOBODY) && CapOk(s, ph, NOBODY) && d < |s.pairs|
    requires Removed(s.heap, h, DEnd(d, joined)) && h.ids(Decode(d)) == []
    ensures var s' := StepEnded(s, t, h); JoinedOk(s', d) && WorkOk(s', ph, NOBODY, d) && CapOk(s', ph, d)
    ensures StartedOrIn(s.reqs, s.pairs[d].dRunning, joined)
  {
    var s' := StepEnded(s, t, h);
    assert s.heap.ids(Decode(d)) == joined;
    forall q | 0 <= q < |s.pairs| ensures PWork(s', q) { assert PWork(s, q); }
    forall e | 0 <= e < |s.pairs| && e != d ensures DWork(s', ph, e) { assert DWork(s, ph, e); }
  }
}
