/** The elementary state changes on the P side: they only cut its line differently. */
module PipelineSteps {
  import opened Options
  import opened EventQueue
  import opened Pipeline

  function With(s: State, p: nat, pair: Pair): State
    requires p < |s.pairs|
  {
    s.(pairs := s.pairs[p := pair])
  }

  // ---- quiet steps -------------------------------------------------------------------------

  /** Time may pass and the P side may be cut differently; the lines and the requests stay. */
  ghost predicate Quiet(s: State, s': State) {
    && s.now <= s'.now && s'.reqs == s.reqs && s'.enqueued == s.enqueued && |s'.pairs| == |s.pairs|
    && PSides(s') == PSides(s) && DSides(s') == DSides(s)
    && s'.heap.ids(Enqueue) == s.heap.ids(Enqueue)
    && (forall d :: 0 <= d < |s.pairs| ==>
      && s'.pairs[d].dRunning == s.pairs[d].dRunning && s'.pairs[d].dReady == s.pairs[d].dReady)
  }

  lemma QuietKeeps(s: State, s': State, ph: Physics, openD: int)
    requires Quiet(s, s') && ReqsInRange(s)
    requires LinesOk(Tags(s.reqs), PSides(s), DSides(s))
    requires CoverOk(Tags(s.reqs), Live(s.reqs), PSides(s), DSides(s), s.heap.ids(Enqueue), s.enqueued)
    requires CapOk(s, ph, openD)
    ensures ReqsInRange(s')
    ensures LinesOk(Tags(s'.reqs), PSides(s'), DSides(s'))
    ensures CoverOk(Tags(s'.reqs), Live(s'.reqs), PSides(s'), DSides(s'), s'.heap.ids(Enqueue), s'.enqueued)
    ensures CapOk(s', ph, openD)
  {}

  lemma QuietTokens(s: State, s': State, ph: Physics)
    requires Quiet(s, s') && TokensOk(s, ph)
    ensures TokensOk(s', ph)
  {
    forall p | 0 <= p < |s.pairs| ensures PSide(s', p) == PSide(s, p) {
      assert PSides(s')[p] == PSides(s)[p];
    }
    forall d | 0 <= d < |s.pairs| ensures DSide(s', d) == DSide(s, d) {
      assert DSides(s')[d] == DSides(s)[d];
    }
    forall x | 0 <= x < |s.reqs| ensures ReqOk(s'.reqs[x], s'.now + ph.firstExtra) {
      assert ReqOk(s.reqs[x], s.now + ph.firstExtra);
    }
  }

  lemma QuietJoined(s: State, s': State, openD: int)
    requires Quiet(s, s') && JoinedOk(s, openD)
    requires forall d: nat :: d < |s.pairs| ==> s'.heap.ids(Decode(d)) == s.heap.ids(Decode(d))
    ensures JoinedOk(s', openD)
  {}

  // ---- P starts a batch --------------------------------------------------------------------

  /** P takes the first `k` queued requests as one batch. */
  function BatchStarted(s: State, p: nat, k: nat, h: Summary): State
    requires p < |s.pairs| && k <= |s.pairs[p].pQueue|
  {
    var pr := s.pairs[p];
    With(s, p, pr.(pQueue := pr.pQueue[k..], pBusy := true)).(heap := h)
  }

  ghost predicate BatchPlanned(s: State, p: nat, k: nat, h: Summary) {
    && p < |s.pairs| && 0 < k <= |s.pairs[p].pQueue|
    && !s.pairs[p].pBusy && s.heap.ids(Batch(p)) == []
    && Added(s.heap, h, PDone(p, s.pairs[p].pQueue[..k]))
  }

  lemma BatchStartedQuiet(s: State, p: nat, k: nat, h: Summary)
    requires BatchPlanned(s, p, k, h)
    ensures Quiet(s, BatchStarted(s, p, k, h))
  {
    var s' := BatchStarted(s, p, k, h);
    forall q | 0 <= q < |s.pairs| ensures PSide(s', q) == PSide(s, q) && DSide(s', q) == DSide(s, q) {
      assert h.ids(Link(q)) == s.heap.ids(Link(q));
      if q == p {
        assert s.pairs[p].pQueue == s.pairs[p].pQueue[..k] + s.pairs[p].pQueue[k..];
      } else {
        assert h.ids(Batch(q)) == s.heap.ids(Batch(q));
      }
    }
    assert PSides(s') == PSides(s) && DSides(s') == DSides(s);
  }

  lemma BatchStartedAtP(s: State, p: nat, k: nat, h: Summary)
    requires BatchPlanned(s, p, k, h) && AtPOk(s)
    ensures AtPOk(BatchStarted(s, p, k, h))
  {
    var s' := BatchStarted(s, p, k, h);
    assert AtPs(s') == AtPs(s);
    forall q | 0 <= q < |s.pairs| ensures PairAtP(s', AtPs(s), q) {
      assert PairAtP(s, AtPs(s), q);
      assert DSide(s', q) == DSide(s, q);
    }
  }

  lemma BatchStartedBooks(s: State, ph: Physics, p: nat, k: nat, h: Summary, openD: int)
    requires BatchPlanned(s, p, k, h)
    requires BooksOk(s) && BuffersOk(s, ph) && FlagsOk(s, openD)
    ensures var s' := BatchStarted(s, p, k, h); BooksOk(s') && BuffersOk(s', ph) && FlagsOk(s', openD)
  {}

  lemma BatchStartedWork(s: State, ph: Physics, p: nat, k: nat, h: Summary, openD: int)
    requires BatchPlanned(s, p, k, h) && s.pairs[p].unsent == []
    requires WorkOk(s, ph, p, openD)
    ensures WorkOk(BatchStarted(s, p, k, h), ph, NOBODY, openD)
  {
    var s' := BatchStarted(s, p, k, h);
    forall q | 0 <= q < |s.pairs| ensures PWork(s', q) {
      if q != p { assert PWork(s, q); }
    }
    forall d | 0 <= d < |s.pairs| && d != openD ensures DWork(s', ph, d) { assert DWork(s, ph, d); }
  }

  lemma BatchStartedKeeps(s: State, ph: Physics, p: nat, k: nat, h: Summary, openD: int)
    requires Inv(s, ph, p, openD) && BatchPlanned(s, p, k, h) && s.pairs[p].unsent == []
    ensures Inv(BatchStarted(s, p, k, h), ph, NOBODY, openD)
  {
    var s' := BatchStarted(s, p, k, h);
    BatchStartedQuiet(s, p, k, h);
    BatchStartedAtP(s, p, k, h);
    BatchStartedBooks(s, ph, p, k, h, openD);
    BatchStartedWork(s, ph, p, k, h, openD);
    QuietKeeps(s, s', ph, openD);
    QuietTokens(s, s', ph);
    QuietJoined(s, s', openD);
  }

  // ---- P sends the head of its finished requests -----------------------------------------

  /** The head enters the buffer of its D; the link is taken until `t`. */
  function HeadSent(s: State, p: nat, t: real, h: Summary): State
    requires p < |s.pairs| && s.pairs[p].unsent != [] && s.pairs[p].unsent[0] < |s.reqs|
    requires s.reqs[s.pairs[p].unsent[0]].dPair < |s.pairs|
  {
    var r := s.reqs[s.pairs[p].unsent[0]];
    var s1 := With(s, p, s.pairs[p].(unsent := s.pairs[p].unsent[1..], linkFree := t));
    With(s1, r.dPair, s1.pairs[r.dPair].(buffer := s1.pairs[r.dPair].buffer + r.kv)).(heap := h)
  }

  ghost predicate SendPlanned(s: State, p: nat, t: real, h: Summary) {
    && p < |s.pairs| && s.pairs[p].unsent != [] && s.pairs[p].unsent[0] < |s.reqs|
    && var x := s.pairs[p].unsent[0];
    && s.reqs[x].dPair < |s.pairs|
    && s.pairs[p].linkFree <= t
    && Added(s.heap, h, KvArrived(x, p, s.reqs[x].dPair, s.reqs[x].kv))
  }

  lemma HeadSentQuiet(s: State, p: nat, t: real, h: Summary)
    requires SendPlanned(s, p, t, h)
    ensures Quiet(s, HeadSent(s, p, t, h))
  {
    var s' := HeadSent(s, p, t, h);
    forall q | 0 <= q < |s.pairs| ensures PSide(s', q) == PSide(s, q) && DSide(s', q) == DSide(s, q) {
      assert h.ids(Batch(q)) == s.heap.ids(Batch(q));
      if q != p {
        assert h.ids(Link(q)) == s.heap.ids(Link(q));
      } else {
        assert s.pairs[p].unsent == [s.pairs[p].unsent[0]] + s.pairs[p].unsent[1..];
      }
    }
    assert PSides(s') == PSides(s) && DSides(s') == DSides(s);
  }

  lemma HeadSentAtP(s: State, p: nat, t: real, h: Summary)
    requires SendPlanned(s, p, t, h) && AtPOk(s)
    ensures AtPOk(HeadSent(s, p, t, h))
  {
    var s' := HeadSent(s, p, t, h);
    assert AtPs(s') == AtPs(s);
    forall q | 0 <= q < |s.pairs| ensures PairAtP(s', AtPs(s), q) {
      assert PairAtP(s, AtPs(s), q);
      assert DSide(s', q) == DSide(s, q);
      assert s.pairs[p].unsent[0] in s.pairs[p].unsent;
    }
  }

  lemma HeadSentFlags(s: State, p: nat, t: real, h: Summary, openD: int)
    requires SendPlanned(s, p, t, h) && FlagsOk(s, openD)
    ensures FlagsOk(HeadSent(s, p, t, h), openD)
  {
    var s' := HeadSent(s, p, t, h);
    forall q | 0 <= q < |s.pairs|
      ensures s'.pairs[q].pBusy == s.pairs[q].pBusy && s'.pairs[q].retryScheduled == s.pairs[q].retryScheduled
      ensures s'.pairs[q].dLooping == s.pairs[q].dLooping
      ensures h.count(Batch(q)) == s.heap.count(Batch(q)) && h.count(Retry(q)) == s.heap.count(Retry(q))
      ensures h.count(Decode(q)) == s.heap.count(Decode(q))
    {}
  }

  lemma HeadSentBooks(s: State, p: nat, t: real, h: Summary)
    requires SendPlanned(s, p, t, h) && BooksOk(s)
    ensures BooksOk(HeadSent(s, p, t, h))
  {}

  lemma HeadSentBuffers(s: State, ph: Physics, p: nat, t: real, h: Summary)
    requires SendPlanned(s, p, t, h) && BuffersOk(s, ph)
    requires s.pairs[s.reqs[s.pairs[p].unsent[0]].dPair].buffer + s.reqs[s.pairs[p].unsent[0]].kv <= ph.kvBuffer
    ensures BuffersOk(HeadSent(s, p, t, h), ph)
  {}

  lemma HeadSentWork(s: State, ph: Physics, p: nat, t: real, h: Summary, openD: int)
    requires SendPlanned(s, p, t, h) && WorkOk(s, ph, p, openD)
    ensures WorkOk(HeadSent(s, p, t, h), ph, p, openD)
  {
    var s' := HeadSent(s, p, t, h);
    forall q | 0 <= q < |s.pairs| && q != p ensures PWork(s', q) { assert PWork(s, q); }
    forall d | 0 <= d < |s.pairs| && d != openD ensures DWork(s', ph, d) { assert DWork(s, ph, d); }
  }

  lemma HeadSentKeeps(s: State, ph: Physics, p: nat, t: real, h: Summary, openD: int)
    requires Inv(s, ph, p, openD) && SendPlanned(s, p, t, h)
    requires s.pairs[s.reqs[s.pairs[p].unsent[0]].dPair].buffer + s.reqs[s.pairs[p].unsent[0]].kv <= ph.kvBuffer
    ensures Inv(HeadSent(s, p, t, h), ph, p, openD)
  {
    var s' := HeadSent(s, p, t, h);
    HeadSentQuiet(s, p, t, h);
    HeadSentAtP(s, p, t, h);
    HeadSentFlags(s, p, t, h, openD);
    HeadSentBooks(s, p, t, h);
    HeadSentBuffers(s, ph, p, t, h);
    HeadSentWork(s, ph, p, t, h, openD);
    QuietKeeps(s, s', ph, openD);
    QuietTokens(s, s', ph);
    QuietJoined(s, s', openD);
  }

  // ---- retries ---------------------------------------------------------------------------

  /** A blocked P plans to try its send again. */
  function RetryPlanned(s: State, p: nat, h: Summary): State
    requires p < |s.pairs|
  {
    With(s, p, s.pairs[p].(retryScheduled := true)).(heap := h)
  }

  lemma RetryPlannedParts(s: State, ph: Physics, p: nat, h: Summary, openD: int)
    requires p < |s.pairs| && Added(s.heap, h, SendRetry(p)) && !s.pairs[p].retryScheduled
    requires FlagsOk(s, openD) && BooksOk(s) && BuffersOk(s, ph)
    ensures var s' := RetryPlanned(s, p, h); FlagsOk(s', openD) && BooksOk(s') && BuffersOk(s', ph)
  {}

  lemma RetryPlannedQuiet(s: State, p: nat, h: Summary)
    requires p < |s.pairs| && Added(s.heap, h, SendRetry(p))
    ensures Quiet(s, RetryPlanned(s, p, h))
  {
    var s' := RetryPlanned(s, p, h);
    assert PSides(s') == PSides(s) && DSides(s') == DSides(s);
  }

  lemma RetryPlannedAtP(s: State, p: nat, h: Summary)
    requires p < |s.pairs| && Added(s.heap, h, SendRetry(p)) && AtPOk(s)
    ensures AtPOk(RetryPlanned(s, p, h))
  {
    var s' := RetryPlanned(s, p, h);
    assert AtPs(s') == AtPs(s);
    forall q | 0 <= q < |s.pairs| ensures PairAtP(s', AtPs(s), q) {
      assert PairAtP(s, AtPs(s), q);
      assert DSide(s', q) == DSide(s, q);
    }
  }

  lemma RetryPlannedKeeps(s: State, ph: Physics, p: nat, h: Summary, openD: int)
    requires Inv(s, ph, p, openD)
    requires p < |s.pairs| && s.pairs[p].unsent != [] && !s.pairs[p].retryScheduled
    requires Added(s.heap, h, SendRetry(p))
    ensures Inv(RetryPlanned(s, p, h), ph, NOBODY, openD)
  {
    var s' := RetryPlanned(s, p, h);
    RetryPlannedParts(s, ph, p, h, openD);
    RetryPlannedQuiet(s, p, h);
    RetryPlannedAtP(s, p, h);
    QuietKeeps(s, s', ph, openD);
    QuietTokens(s, s', ph);
    QuietJoined(s, s', openD);
    assert WorkOk(s', ph, NOBODY, openD) by {
      forall q | 0 <= q < |s.pairs| ensures PWork(s', q) {
        if q != p { assert PWork(s, q); }
      }
      forall d | 0 <= d < |s.pairs| && d != openD ensures DWork(s', ph, d) { assert DWork(s, ph, d); }
    }
  }

  /** The planned retry comes. */
  function RetryFired(s: State, t: real, p: nat, h: Summary): State
    requires p < |s.pairs|
  {
    With(s, p, s.pairs[p].(retryScheduled := false)).(heap := h, now := t)
  }

  lemma RetryFiredParts(s: State, ph: Physics, t: real, p: nat, h: Summary)
    requires p < |s.pairs| && Removed(s.heap, h, SendRetry(p)) && s.now <= t
    requires FlagsOk(s, NOBODY) && BooksOk(s) && BuffersOk(s, ph)
    ensures var s' := RetryFired(s, t, p, h); FlagsOk(s', NOBODY) && BooksOk(s') && BuffersOk(s', ph)
  {
    RetryFiredFlags(s, t, p, h);
  }

  lemma RetryFiredFlags(s: State, t: real, p: nat, h: Summary)
    requires p < |s.pairs| && Removed(s.heap, h, SendRetry(p)) && FlagsOk(s, NOBODY)
    ensures FlagsOk(RetryFired(s, t, p, h), NOBODY)
  {
    assert h.count(Retry(p)) == 0;
  }

  lemma RetryFiredQuiet(s: State, t: real, p: nat, h: Summary)
    requires p < |s.pairs| && Removed(s.heap, h, SendRetry(p)) && s.now <= t
    ensures Quiet(s, RetryFired(s, t, p, h))
  {
    var s' := RetryFired(s, t, p, h);
    assert PSides(s') == PSides(s) && DSides(s') == DSides(s);
  }

  lemma RetryFiredAtP(s: State, t: real, p: nat, h: Summary)
    requires p < |s.pairs| && Removed(s.heap, h, SendRetry(p)) && AtPOk(s)
    ensures AtPOk(RetryFired(s, t, p, h))
  {
    var s' := RetryFired(s, t, p, h);
    assert AtPs(s') == AtPs(s);
    forall q | 0 <= q < |s.pairs| ensures PairAtP(s', AtPs(s), q) {
      assert PairAtP(s, AtPs(s), q);
      assert DSide(s', q) == DSide(s, q);
    }
  }

  lemma RetryFiredKeeps(s: State, ph: Physics, t: real, p: nat, h: Summary)
    requires Boundary(s, ph) && p < |s.pairs| && Removed(s.heap, h, SendRetry(p)) && s.now <= t
    ensures Inv(RetryFired(s, t, p, h), ph, p, NOBODY)
  {
    var s' := RetryFired(s, t, p, h);
    RetryFiredParts(s, ph, t, p, h);
    RetryFiredQuiet(s, t, p, h);
    RetryFiredAtP(s, t, p, h);
    QuietKeeps(s, s', ph, NOBODY);
    QuietTokens(s, s', ph);
    QuietJoined(s, s', NOBODY);
    assert WorkOk(s', ph, p, NOBODY) by {
      forall q | 0 <= q < |s.pairs| && q != p ensures PWork(s', q) { assert PWork(s, q); }
      forall d | 0 <= d < |s.pairs| ensures DWork(s', ph, d) { assert DWork(s, ph, d); }
    }
  }

  // ---- P returns a batch -------------------------------------------------------------------

  function Prompts(reqs: seq<Req>, q: seq<ReqId>): nat {
    if q == [] then 0 else
      var x := q[|q| - 1];
      Prompts(reqs, q[..|q| - 1]) + if x < |reqs| then reqs[x].prompt else 0
  }

  /** The batch is finished: its requests leave P and wait to be sent. */
  function Ids(q: seq<ReqId>): set<ReqId> { set x | x in q }

  function BatchDone(s: State, t: real, p: nat, batch: seq<ReqId>, h: Summary): State
    requires p < |s.pairs|
  {
    var pr := s.pairs[p];
    With(s, p, pr.(
      pBusy := false, unsent := pr.unsent + batch,
      atP := pr.atP - Ids(batch), inflightTokens := pr.inflightTokens + Prompts(s.reqs, batch)))
      .(heap := h, now := t)
  }

  ghost predicate BatchReturns(s: State, t: real, p: nat, batch: seq<ReqId>, h: Summary) {
    && p < |s.pairs| && s.now <= t
    && Removed(s.heap, h, PDone(p, batch)) && h.ids(Batch(p)) == []
  }

  lemma BatchDoneQuiet(s: State, t: real, p: nat, batch: seq<ReqId>, h: Summary)
    requires BatchReturns(s, t, p, batch, h)
    ensures Quiet(s, BatchDone(s, t, p, batch, h))
  {
    var s' := BatchDone(s, t, p, batch, h);
    forall q | 0 <= q < |s.pairs| ensures PSide(s', q) == PSide(s, q) && DSide(s', q) == DSide(s, q) {
      assert h.ids(Link(q)) == s.heap.ids(Link(q));
      if q != p {
        assert h.ids(Batch(q)) == s.heap.ids(Batch(q));
      } else {
        assert s.heap.ids(Batch(p)) == batch;
      }
    }
    assert PSides(s') == PSides(s) && DSides(s') == DSides(s);
  }

  lemma {:induction false} InflightLeave(reqs: seq<Req>, atP: map<ReqId, nat>, p: nat, r: ReqId)
    requires r in atP
    requires r < |reqs| ==> reqs[r].pair == p && reqs[r].first.None?
    ensures Inflight(reqs, atP - {r}, p) == Inflight(reqs, atP, p) + if r < |reqs| then reqs[r].prompt else 0
  {
    if reqs != [] {
      var x := |reqs| - 1;
      InflightLeave(reqs[..x], atP, p, r);
    }
  }

  lemma {:induction false} InflightBatch(reqs: seq<Req>, atP: map<ReqId, nat>, p: nat, batch: seq<ReqId>)
    requires AtPRecords(reqs, p, atP) && Distinct(batch) && forall x :: x in batch ==> x in atP
    ensures Inflight(reqs, atP - Ids(batch), p) == Inflight(reqs, atP, p) + Prompts(reqs, batch)
  {
    if batch == [] {
      assert atP - Ids(batch) == atP;
    } else {
      var n := |batch| - 1;
      var before := Ids(batch[..n]);
      InflightBatch(reqs, atP, p, batch[..n]);
      assert batch == batch[..n] + [batch[n]];
      assert batch[n] in batch && batch[n] in atP && batch[n] !in before;
      InflightLeave(reqs, atP - before, p, batch[n]);
      assert atP - Ids(batch) == (atP - before) - {batch[n]};
    }
  }

  lemma BatchDoneBooks(s: State, t: real, p: nat, batch: seq<ReqId>, h: Summary)
    requires BatchReturns(s, t, p, batch, h) && BooksOk(s)
    requires AtPRecords(s.reqs, p, s.pairs[p].atP) && Distinct(batch)
    requires forall x :: x in batch ==> x in s.pairs[p].atP
    ensures BooksOk(BatchDone(s, t, p, batch, h))
  {
    InflightBatch(s.reqs, s.pairs[p].atP, p, batch);
  }

  lemma BatchDoneFlags(s: State, ph: Physics, t: real, p: nat, batch: seq<ReqId>, h: Summary)
    requires BatchReturns(s, t, p, batch, h) && FlagsOk(s, NOBODY) && BuffersOk(s, ph)
    ensures FlagsOk(BatchDone(s, t, p, batch, h), NOBODY) && BuffersOk(BatchDone(s, t, p, batch, h), ph)
  {
    assert h.count(Batch(p)) == 0;
  }

  /** The batch as part of P's line: no request twice, none elsewhere in the line. */
  lemma BatchInLine(s: State, p: nat, batch: seq<ReqId>)
    requires p < |s.pairs| && s.heap.ids(Batch(p)) == batch
    requires LinesOk(Tags(s.reqs), PSides(s), DSides(s))
    ensures Distinct(batch)
    ensures forall x :: x in batch ==> x !in s.pairs[p].pQueue
    ensures forall x :: x in batch ==> x < |s.reqs| && s.reqs[x].pair == p && s.reqs[x].order.Some?
  {
    var line := PSide(s, p);
    var a := s.heap.ids(Link(p)) + s.pairs[p].unsent;
    assert PSides(s)[p] == line;
    assert Ordered(Tags(s.reqs), line) && OfP(Tags(s.reqs), line, p);
    assert line == a + batch + s.pairs[p].pQueue;
    forall i, j | 0 <= i < j < |batch| ensures batch[i] != batch[j] {
      assert line[|a| + i] == batch[i] && line[|a| + j] == batch[j];
      assert Before(Tags(s.reqs), batch[i], batch[j]);
    }
    forall i, j | 0 <= i < |batch| && 0 <= j < |s.pairs[p].pQueue| ensures batch[i] != s.pairs[p].pQueue[j] {
      assert line[|a| + i] == batch[i] && line[|a| + |batch| + j] == s.pairs[p].pQueue[j];
      assert Before(Tags(s.reqs), batch[i], s.pairs[p].pQueue[j]);
    }
    forall x | x in batch ensures x < |s.reqs| && s.reqs[x].pair == p && s.reqs[x].order.Some? {
      assert x in line;
      assert Known(Tags(s.reqs), x);
    }
  }

  lemma StillElsewhere(
    s: State, p: nat, q: nat, batch: seq<ReqId>, h: Summary, at: seq<map<ReqId, nat>>, at': seq<map<ReqId, nat>>)
    requires p < |s.pairs| && q < |s.pairs| && |at| == |at'| == |s.pairs|
    requires forall r :: 0 <= r < |at| && r != p ==> at'[r] == at[r]
    requires at'[p] == at[p] - Ids(batch)
    requires OfP(Tags(s.reqs), PSide(s, q), q)
    requires StillAtP(s.reqs, at, s.heap.ids(Batch(q))) && StillAtP(s.reqs, at, s.pairs[q].pQueue)
    requires forall x :: x in batch ==> x !in s.pairs[p].pQueue
    requires q != p ==> h.ids(Batch(q)) == s.heap.ids(Batch(q))
    requires q == p ==> h.ids(Batch(q)) == []
    ensures StillAtP(s.reqs, at', h.ids(Batch(q))) && StillAtP(s.reqs, at', s.pairs[q].pQueue)
  {
    forall x | x in s.pairs[q].pQueue ensures s.reqs[x].pair == q {
      assert x in PSide(s, q);
    }
    forall x | x in s.heap.ids(Batch(q)) ensures s.reqs[x].pair == q {
      assert x in PSide(s, q);
    }
  }

  /** Taking requests out of `atP` cannot put one back. */
  lemma LeftStays(reqs: seq<Req>, at: seq<map<ReqId, nat>>, at': seq<map<ReqId, nat>>, p: nat, batch: seq<ReqId>, q: seq<ReqId>)
    requires p < |at| == |at'| && at' == at[p := at[p] - Ids(batch)]
    requires LeftP(reqs, at, q)
    ensures LeftP(reqs, at', q)
  {}

  lemma BatchDonePair(
    s: State, s': State, p: nat, q: nat, batch: seq<ReqId>, at: seq<map<ReqId, nat>>, at': seq<map<ReqId, nat>>)
    requires p < |s.pairs| == |s'.pairs| == |at| && q < |s.pairs| && s'.reqs == s.reqs
    requires at' == at[p := at[p] - Ids(batch)]
    requires PairAtP(s, at, q) && DSide(s', q) == DSide(s, q)
    requires s'.heap.ids(Link(q)) == s.heap.ids(Link(q))
    requires s'.pairs[q].unsent == s.pairs[q].unsent + if q == p then batch else []
    requires s'.pairs[q].atP == at'[q] && s.pairs[q].atP == at[q]
    requires forall x :: x in batch ==> x < |s.reqs| && s.reqs[x].pair == p
    requires StillAtP(s.reqs, at', s'.heap.ids(Batch(q))) && StillAtP(s.reqs, at', s'.pairs[q].pQueue)
    ensures PairAtP(s', at', q)
  {
    LeftStays(s.reqs, at, at', p, batch, s.heap.ids(Link(q)));
    LeftStays(s.reqs, at, at', p, batch, s.pairs[q].unsent);
    LeftStays(s.reqs, at, at', p, batch, DSide(s, q));
  }

  lemma BatchDoneAtP(s: State, t: real, p: nat, batch: seq<ReqId>, h: Summary)
    requires BatchReturns(s, t, p, batch, h) && AtPOk(s)
    requires LinesOk(Tags(s.reqs), PSides(s), DSides(s))
    requires forall x :: x in h.ids(Enqueue) ==> x < |s.reqs| && s.reqs[x].order.None?
    ensures AtPOk(BatchDone(s, t, p, batch, h))
  {
    var s' := BatchDone(s, t, p, batch, h);
    var at, at' := AtPs(s), AtPs(s');
    BatchInLine(s, p, batch);
    assert at' == at[p := at[p] - Ids(batch)];
    ComingStays(s, p, batch, h.ids(Enqueue), at, at');
    forall q | 0 <= q < |s.pairs| ensures PairAtP(s', at', q) {
      BatchDoneOne(s, t, p, q, batch, h, at, at');
    }
  }

  lemma ComingStays(
    s: State, p: nat, batch: seq<ReqId>, coming: seq<ReqId>, at: seq<map<ReqId, nat>>, at': seq<map<ReqId, nat>>)
    requires p < |at| && at' == at[p := at[p] - Ids(batch)] && StillAtP(s.reqs, at, coming)
    requires forall x :: x in coming ==> x !in batch
    ensures StillAtP(s.reqs, at', coming)
  {}

  lemma BatchDoneOne(
    s: State, t: real, p: nat, q: nat, batch: seq<ReqId>, h: Summary, at: seq<map<ReqId, nat>>, at': seq<map<ReqId, nat>>)
    requires BatchReturns(s, t, p, batch, h) && q < |s.pairs| && at == AtPs(s) && PairAtP(s, at, q)
    requires at' == at[p := at[p] - Ids(batch)]
    requires LinesOk(Tags(s.reqs), PSides(s), DSides(s))
    requires forall x :: x in batch ==> x < |s.reqs| && s.reqs[x].pair == p && x !in s.pairs[p].pQueue
    ensures PairAtP(BatchDone(s, t, p, batch, h), at', q)
  {
    assert OfP(Tags(s.reqs), PSide(s, q), q) by { assert PSides(s)[q] == PSide(s, q); }
    StillElsewhere(s, p, q, batch, h, at, at');
    BatchDonePair(s, BatchDone(s, t, p, batch, h), p, q, batch, at, at');
  }

  lemma WorkFrame(s: State, s': State, ph: Physics, p: nat)
    requires WorkOk(s, ph, NOBODY, NOBODY) && |s'.pairs| == |s.pairs| && s'.reqs == s.reqs
    requires forall q :: 0 <= q < |s.pairs| && q != p ==> s'.pairs[q] == s.pairs[q]
    requires p < |s.pairs| && s'.pairs[p].dLooping == s.pairs[p].dLooping
      && s'.pairs[p].dRunning == s.pairs[p].dRunning && s'.pairs[p].dReady == s.pairs[p].dReady
    ensures WorkOk(s', ph, p, NOBODY)
  {
    forall q | 0 <= q < |s.pairs| && q != p ensures PWork(s', q) { assert PWork(s, q); }
    forall d | 0 <= d < |s.pairs| ensures DWork(s', ph, d) { assert DWork(s, ph, d); }
  }

  lemma BatchDoneLedger(s: State, t: real, p: nat, batch: seq<ReqId>, h: Summary)
    requires BatchReturns(s, t, p, batch, h) && AtPOk(s) && BooksOk(s)
    requires LinesOk(Tags(s.reqs), PSides(s), DSides(s))
    requires forall x :: x in s.heap.ids(Enqueue) ==> x < |s.reqs| && s.reqs[x].order.None?
    ensures BooksOk(BatchDone(s, t, p, batch, h)) && AtPOk(BatchDone(s, t, p, batch, h))
  {
    BatchInLine(s, p, batch);
    assert PairAtP(s, AtPs(s), p);
    BatchDoneBooks(s, t, p, batch, h);
    BatchDoneAtP(s, t, p, batch, h);
  }

  lemma ComingUnordered(s: State, ph: Physics, openP: int, openD: int)
    requires Inv(s, ph, openP, openD)
    ensures forall x :: x in s.heap.ids(Enqueue) ==> x < |s.reqs| && s.reqs[x].order.None?
  {}

  lemma BatchDoneKeeps(s: State, ph: Physics, t: real, p: nat, batch: seq<ReqId>, h: Summary)
    requires Boundary(s, ph) && BatchReturns(s, t, p, batch, h)
    ensures Inv(BatchDone(s, t, p, batch, h), ph, p, NOBODY)
  {
    var s' := BatchDone(s, t, p, batch, h);
    ComingUnordered(s, ph, NOBODY, NOBODY);
    BatchDoneQuiet(s, t, p, batch, h);
    BatchDoneLedger(s, t, p, batch, h);
    BatchDoneFlags(s, ph, t, p, batch, h);
    QuietKeeps(s, s', ph, NOBODY);
    QuietTokens(s, s', ph);
    QuietJoined(s, s', NOBODY);
    WorkFrame(s, s', ph, p);
  }
}
