/** The steps that change the lines: a request comes, is enqueued at its P, arrives at its D. */
module PipelineMoves {
  import opened Options
  import opened EventQueue
  import opened Pipeline
  import opened PipelineSteps

  // ---- totals under the change of one request -----------------------------------------------

  lemma {:induction false} InflightUpdate(reqs: seq<Req>, atP: map<ReqId, nat>, p: nat, r: ReqId, x: Req)
    requires r < |reqs|
    ensures Inflight(reqs[r := x], atP, p)
      == Inflight(reqs, atP, p) - InflightOf(reqs[r], r in atP, p) + InflightOf(x, r in atP, p)
  {
    var n := |reqs| - 1;
    if r == n {
      assert reqs[r := x][..n] == reqs[..n];
    } else {
      assert reqs[r := x][..n] == reqs[..n][r := x];
      InflightUpdate(reqs[..n], atP, p, r, x);
    }
  }

  lemma {:induction false} DecodingUpdate(reqs: seq<Req>, d: nat, r: ReqId, x: Req)
    requires r < |reqs|
    ensures Decoding(reqs[r := x], d) == Decoding(reqs, d) - DecodingOf(reqs[r], d) + DecodingOf(x, d)
  {
    var n := |reqs| - 1;
    if r == n {
      assert reqs[r := x][..n] == reqs[..n];
    } else {
      assert reqs[r := x][..n] == reqs[..n][r := x];
      DecodingUpdate(reqs[..n], d, r, x);
    }
  }

  lemma {:induction false} HeldSame(reqs: seq<Req>, reqs': seq<Req>, q: seq<ReqId>)
    requires forall i :: 0 <= i < |q| ==>
      Context(reqs', q[i]) == Context(reqs, q[i]) && Claim(reqs', q[i]) == Claim(reqs, q[i])
    ensures Held(reqs', q) == Held(reqs, q) && Reserved(reqs', q) == Reserved(reqs, q)
  {
    if q != [] {
      assert forall i :: 0 <= i < |q[1..]| ==> q[1..][i] == q[i + 1];
      HeldSame(reqs, reqs', q[1..]);
    }
  }

  lemma {:induction false} UnpulledSame(reqs: seq<Req>, reqs': seq<Req>, q: seq<ReqId>)
    requires forall i :: 0 <= i < |q| ==> BufferKv(reqs', q[i]) == BufferKv(reqs, q[i])
    ensures Unpulled(reqs', q) == Unpulled(reqs, q)
  {
    if q != [] {
      assert forall i :: 0 <= i < |q[1..]| ==> q[1..][i] == q[i + 1];
      UnpulledSame(reqs, reqs', q[1..]);
    }
  }

  // ---- a request is enqueued at its P ---------------------------------------------------------

  function Numbered(s: State, r: ReqId): Req
    requires r < |s.reqs|
  {
    s.reqs[r].(order := Some(s.enqueued))
  }

  function Enqueued(s: State, t: real, r: ReqId, h: Summary): State
    requires r < |s.reqs| && s.reqs[r].pair < |s.pairs|
  {
    var p := s.reqs[r].pair;
    With(s, p, s.pairs[p].(pQueue := s.pairs[p].pQueue + [r]))
      .(heap := h, now := t, reqs := s.reqs[r := Numbered(s, r)], enqueued := s.enqueued + 1)
  }

  ghost predicate Comes(s: State, t: real, r: ReqId, h: Summary) {
    && r < |s.reqs| && s.reqs[r].pair < |s.pairs| && s.now <= t
    && Removed(s.heap, h, PEnqueue(r))
  }

  lemma EnqueuedViews(s: State, t: real, r: ReqId, h: Summary)
    requires Comes(s, t, r, h)
    ensures var s' := Enqueued(s, t, r, h); var p := s.reqs[r].pair;
      && PSides(s') == PSides(s)[p := PSides(s)[p] + [r]] && DSides(s') == DSides(s)
      && Tags(s'.reqs) == Tags(s.reqs)[r := Tags(s.reqs)[r].(order := Some(s.enqueued))]
      && Live(s'.reqs) == Live(s.reqs)
  {
    var s' := Enqueued(s, t, r, h);
    forall q | 0 <= q < |s.pairs|
      ensures PSide(s', q) == PSide(s, q) + (if q == s.reqs[r].pair then [r] else []) && DSide(s', q) == DSide(s, q)
    {
      assert h.ids(Link(q)) == s.heap.ids(Link(q)) && h.ids(Batch(q)) == s.heap.ids(Batch(q));
    }
  }

  lemma LinesEnqueue(tags: seq<Tag>, ps: seq<seq<ReqId>>, ds: seq<seq<ReqId>>, r: ReqId, n: nat)
    requires LinesOk(tags, ps, ds) && r < |tags| && tags[r].order.None? && tags[r].pair < |ps|
    requires forall x :: 0 <= x < |tags| && tags[x].order.Some? ==> tags[x].order.value < n
    ensures LinesOk(tags[r := tags[r].(order := Some(n))], ps[tags[r].pair := ps[tags[r].pair] + [r]], ds)
  {
    var p := tags[r].pair;
    var tags' := tags[r := tags[r].(order := Some(n))];
    var ps' := ps[p := ps[p] + [r]];
    forall q | 0 <= q < |ps| ensures Ordered(tags', ps'[q]) && OfP(tags', ps'[q], q) {
      assert Ordered(tags, ps[q]) && OfP(tags, ps[q], q);
      OrderedTags(tags, tags', r, ps[q]);
      if q == p { OrderedAppend(tags', ps[p], r); }
    }
    forall d | 0 <= d < |ds| ensures Ordered(tags', ds[d]) && OfD(tags', ds[d], d) {
      assert Ordered(tags, ds[d]) && OfD(tags, ds[d], d);
      OrderedTags(tags, tags', r, ds[d]);
    }
    forall q, d | 0 <= q < |ps| && 0 <= d < |ds| ensures Cross(tags', ds[d], ps'[q]) {
      assert Cross(tags, ds[d], ps[q]) && Ordered(tags, ds[d]) && Ordered(tags, ps[q]);
      forall x, y | x in ds[d] && y in ps'[q] ensures Before(tags', x, y) {
        if y != r { assert Before(tags, x, y); } else { assert Known(tags, x); }
      }
    }
  }

  lemma OrderedTags(tags: seq<Tag>, tags': seq<Tag>, r: ReqId, q: seq<ReqId>)
    requires |tags'| == |tags| && r < |tags| && tags[r].order.None?
    requires forall x :: 0 <= x < |tags| && x != r ==> tags'[x] == tags[x]
    requires Ordered(tags, q)
    ensures Ordered(tags', q) && r !in q
  {
    forall x | x in q ensures Known(tags', x) { assert Known(tags, x); }
    forall i, j | 0 <= i < j < |q| ensures Before(tags', q[i], q[j]) { assert Before(tags, q[i], q[j]); }
  }

  lemma OrderedAppend(tags: seq<Tag>, q: seq<ReqId>, r: ReqId)
    requires Ordered(tags, q) && Known(tags, r)
    requires forall x :: x in q ==> Before(tags, x, r)
    ensures Ordered(tags, q + [r])
  {
    forall i, j | 0 <= i < j < |q| + 1 ensures Before(tags, (q + [r])[i], (q + [r])[j]) {
      if j < |q| { assert Before(tags, q[i], q[j]); } else { assert q[i] in q; }
    }
  }

  lemma CoverEnqueue(
    tags: seq<Tag>, live: seq<bool>, ps: seq<seq<ReqId>>, ds: seq<seq<ReqId>>, coming: seq<ReqId>, r: ReqId, n: nat)
    requires CoverOk(tags, live, ps, ds, [r] + coming, n)
    ensures r < |tags| && tags[r].order.None? && tags[r].pair < |ps|
    ensures CoverOk(tags[r := tags[r].(order := Some(n))], live, ps[tags[r].pair := ps[tags[r].pair] + [r]], ds, coming, n + 1)
  {
    assert r in [r] + coming;
    forall x | x in coming ensures x in [r] + coming && x != r {
      var i :| 0 <= i < |coming| && coming[i] == x;
      assert ([r] + coming)[i + 1] == x && ([r] + coming)[0] == r;
    }
    assert Distinct(coming) by {
      forall i, j | 0 <= i < j < |coming| ensures coming[i] != coming[j] {
        assert ([r] + coming)[i + 1] == coming[i] && ([r] + coming)[j + 1] == coming[j];
      }
    }
    var p := tags[r].pair;
    var ps' := ps[p := ps[p] + [r]];
    forall x | 0 <= x < |tags| && x != r
      ensures tags[x].order.None? ==> x in coming
      ensures tags[x].order.Some? && live[x] ==> x in ps'[tags[x].pair] || x in ds[tags[x].dPair]
    {
      if tags[x].order.Some? && live[x] {
        if x in ps[tags[x].pair] { assert x in ps'[tags[x].pair]; }
      }
    }
    assert r in ps'[p];
    forall q | 0 <= q < |ps| ensures AllLive(live, ps'[q]) { assert AllLive(live, ps[q]); }
  }

  lemma EnqueuedBooks(s: State, ph: Physics, t: real, r: ReqId, h: Summary)
    requires Comes(s, t, r, h) && BooksOk(s) && FlagsOk(s, NOBODY)
    ensures BooksOk(Enqueued(s, t, r, h)) && FlagsOk(Enqueued(s, t, r, h), NOBODY)
  {
    var s' := Enqueued(s, t, r, h);
    forall p | 0 <= p < |s.pairs|
      ensures Inflight(s'.reqs, s'.pairs[p].atP, p) == Inflight(s.reqs, s.pairs[p].atP, p)
      ensures Decoding(s'.reqs, p) == Decoding(s.reqs, p)
    {
      InflightUpdate(s.reqs, s.pairs[p].atP, p, r, Numbered(s, r));
      DecodingUpdate(s.reqs, p, r, Numbered(s, r));
    }
  }

  lemma EnqueuedBuffers(s: State, ph: Physics, t: real, r: ReqId, h: Summary)
    requires Comes(s, t, r, h) && BuffersOk(s, ph) && CapOk(s, ph, NOBODY)
    ensures BuffersOk(Enqueued(s, t, r, h), ph) && CapOk(Enqueued(s, t, r, h), ph, NOBODY)
  {
    var s' := Enqueued(s, t, r, h);
    forall d | 0 <= d < |s.pairs|
      ensures Unpulled(s'.reqs, s'.pairs[d].dReady) == Unpulled(s.reqs, s.pairs[d].dReady)
      ensures Held(s'.reqs, s'.pairs[d].dRunning) == Held(s.reqs, s.pairs[d].dRunning)
      ensures Reserved(s'.reqs, s'.pairs[d].dRunning) == Reserved(s.reqs, s.pairs[d].dRunning)
    {
      UnpulledSame(s.reqs, s'.reqs, s.pairs[d].dReady);
      HeldSame(s.reqs, s'.reqs, s.pairs[d].dRunning);
    }
  }

  lemma EnqueuedReqs(s: State, ph: Physics, t: real, r: ReqId, h: Summary)
    requires Comes(s, t, r, h) && s.reqs[r].first.None? && s.reqs[r].order.None?
    requires ReqsOk(s.reqs, s.now + ph.firstExtra) && FirstsInOrder(s.reqs)
    requires forall x :: 0 <= x < |s.reqs| && s.reqs[x].order.Some? ==> s.reqs[x].order.value < s.enqueued
    ensures ReqsOk(s.reqs[r := Numbered(s, r)], t + ph.firstExtra) && FirstsInOrder(s.reqs[r := Numbered(s, r)])
  {
    var reqs' := s.reqs[r := Numbered(s, r)];
    forall x | 0 <= x < |reqs'| ensures ReqOk(reqs'[x], t + ph.firstExtra) {
      assert ReqOk(s.reqs[x], s.now + ph.firstExtra);
    }
  }

  lemma FreshSame(reqs: seq<Req>, reqs': seq<Req>, q: seq<ReqId>)
    requires |reqs'| >= |reqs| && Fresh(reqs, q)
    requires forall x :: 0 <= x < |reqs| ==> reqs'[x].first == reqs[x].first && reqs'[x].pulled == reqs[x].pulled
    ensures Fresh(reqs', q)
  {}

  /** What is known of a D's lists only speaks of first tokens and pulled KV. */
  lemma ListsSame(reqs: seq<Req>, reqs': seq<Req>, running: seq<ReqId>, ready: seq<ReqId>, line: seq<ReqId>, joined: seq<ReqId>)
    requires |reqs'| >= |reqs|
    requires forall x :: 0 <= x < |reqs| ==> reqs'[x].first == reqs[x].first && reqs'[x].pulled == reqs[x].pulled
    requires AllPulled(reqs, running) && Exist(reqs, ready) && FirstsLead(reqs, line) && line == running + ready
    ensures AllPulled(reqs', running) && Exist(reqs', ready) && FirstsLead(reqs', line)
    ensures StartedOrIn(reqs, running, joined) ==> StartedOrIn(reqs', running, joined)
  {
    forall i | 0 <= i < |line| ensures line[i] < |reqs| {
      if i < |running| { assert line[i] in running; } else { assert line[i] in ready; }
    }
  }

  lemma InTail(q: seq<ReqId>, r: ReqId, rest: seq<ReqId>)
    requires q == [r] + rest
    ensures r in q && forall x :: x in rest ==> x in q
  {
    forall x | x in rest ensures x in q { assert x in [r] + rest; }
  }

  lemma EnqueuedTokens(s: State, ph: Physics, t: real, r: ReqId, h: Summary)
    requires Comes(s, t, r, h) && s.reqs[r].order.None?
    requires TokensOk(s, ph) && JoinedOk(s, NOBODY)
    requires forall x :: 0 <= x < |s.reqs| && s.reqs[x].order.Some? ==> s.reqs[x].order.value < s.enqueued
    ensures TokensOk(Enqueued(s, t, r, h), ph) && JoinedOk(Enqueued(s, t, r, h), NOBODY)
  {
    var s' := Enqueued(s, t, r, h);
    assert s.heap.ids(Enqueue) == [r] + h.ids(Enqueue);
    InTail(s.heap.ids(Enqueue), r, h.ids(Enqueue));
    EnqueuedReqs(s, ph, t, r, h);
    EnqueuedViews(s, t, r, h);
    forall p | 0 <= p < |s.pairs| ensures Fresh(s'.reqs, PSide(s', p)) {
      assert Fresh(s.reqs, PSide(s, p));
      assert PSides(s')[p] == PSide(s', p) && PSides(s)[p] == PSide(s, p);
      FreshSame(s.reqs, s'.reqs, PSide(s, p));
    }
    forall d | 0 <= d < |s.pairs|
      ensures AllPulled(s'.reqs, s'.pairs[d].dRunning) && Exist(s'.reqs, s'.pairs[d].dReady)
      ensures FirstsLead(s'.reqs, DSide(s', d))
      ensures StartedOrIn(s'.reqs, s'.pairs[d].dRunning, h.ids(Decode(d)))
    {
      assert StartedOrIn(s.reqs, s.pairs[d].dRunning, s.heap.ids(Decode(d)));
      ListsSame(s.reqs, s'.reqs, s.pairs[d].dRunning, s.pairs[d].dReady, DSide(s, d), s.heap.ids(Decode(d)));
    }
  }

  lemma EnqueuedAtP(s: State, t: real, r: ReqId, h: Summary)
    requires Comes(s, t, r, h) && AtPOk(s)
    ensures AtPOk(Enqueued(s, t, r, h))
  {
    var s' := Enqueued(s, t, r, h);
    assert AtPs(s') == AtPs(s);
    InTail(s.heap.ids(Enqueue), r, h.ids(Enqueue));
    forall q | 0 <= q < |s.pairs| ensures PairAtP(s', AtPs(s), q) {
      assert PairAtP(s, AtPs(s), q);
      assert DSide(s', q) == DSide(s, q);
      assert h.ids(Link(q)) == s.heap.ids(Link(q)) && h.ids(Batch(q)) == s.heap.ids(Batch(q));
    }
  }

  lemma EnqueuedWork(s: State, ph: Physics, t: real, r: ReqId, h: Summary)
    requires Comes(s, t, r, h) && WorkOk(s, ph, NOBODY, NOBODY)
    ensures WorkOk(Enqueued(s, t, r, h), ph, s.reqs[r].pair, NOBODY)
  {
    var s' := Enqueued(s, t, r, h);
    forall q | 0 <= q < |s.pairs| && q != s.reqs[r].pair ensures PWork(s', q) { assert PWork(s, q); }
    forall d | 0 <= d < |s.pairs| ensures DWork(s', ph, d) { assert DWork(s, ph, d); }
  }

  lemma OrdersBelow(s: State, ph: Physics, openP: int, openD: int)
    requires Inv(s, ph, openP, openD)
    ensures forall x :: 0 <= x < |s.reqs| && s.reqs[x].order.Some? ==> s.reqs[x].order.value < s.enqueued
    ensures forall x :: 0 <= x < |Tags(s.reqs)| && Tags(s.reqs)[x].order.Some? ==> Tags(s.reqs)[x].order.value < s.enqueued
  {
    forall x | 0 <= x < |s.reqs| && s.reqs[x].order.Some? ensures s.reqs[x].order.value < s.enqueued {
      assert Tags(s.reqs)[x].order == s.reqs[x].order;
    }
  }

  lemma EnqueuedLines(s: State, t: real, r: ReqId, h: Summary)
    requires Comes(s, t, r, h)
    requires LinesOk(Tags(s.reqs), PSides(s), DSides(s))
    requires CoverOk(Tags(s.reqs), Live(s.reqs), PSides(s), DSides(s), s.heap.ids(Enqueue), s.enqueued)
    ensures s.reqs[r].order.None?
    ensures var s' := Enqueued(s, t, r, h);
      && LinesOk(Tags(s'.reqs), PSides(s'), DSides(s'))
      && CoverOk(Tags(s'.reqs), Live(s'.reqs), PSides(s'), DSides(s'), h.ids(Enqueue), s'.enqueued)
  {
    EnqueuedViews(s, t, r, h);
    assert s.heap.ids(Enqueue) == [r] + h.ids(Enqueue);
    CoverEnqueue(Tags(s.reqs), Live(s.reqs), PSides(s), DSides(s), h.ids(Enqueue), r, s.enqueued);
    LinesEnqueue(Tags(s.reqs), PSides(s), DSides(s), r, s.enqueued);
  }

  lemma EnqueuedKeeps(s: State, ph: Physics, t: real, r: ReqId, h: Summary)
    requires Boundary(s, ph) && Comes(s, t, r, h)
    ensures Inv(Enqueued(s, t, r, h), ph, s.reqs[r].pair, NOBODY)
  {
    OrdersBelow(s, ph, NOBODY, NOBODY);
    EnqueuedLines(s, t, r, h);
    EnqueuedBooks(s, ph, t, r, h);
    EnqueuedBuffers(s, ph, t, r, h);
    EnqueuedTokens(s, ph, t, r, h);
    EnqueuedAtP(s, t, r, h);
    EnqueuedWork(s, ph, t, r, h);
  }

  // ---- the KV of a request arrives at its D -------------------------------------------------

  /** The request waits to join; a D that did not loop starts to. */
  function Arrived(s: State, t: real, r: ReqId, d: nat, h: Summary): State
    requires d < |s.pairs|
  {
    With(s, d, s.pairs[d].(dReady := s.pairs[d].dReady + [r], dLooping := true)).(heap := h, now := t)
  }

  /** The D that is between two steps after the arrival, if any. */
  function Awakened(s: State, d: nat): int
    requires d < |s.pairs|
  {
    if s.pairs[d].dLooping then NOBODY else d
  }

  ghost predicate Arrives(s: State, t: real, r: ReqId, d: nat, h: Summary) {
    && r < |s.reqs| && s.reqs[r].pair < |s.pairs| && d == s.reqs[r].dPair < |s.pairs| && s.now <= t
    && Removed(s.heap, h, KvArrived(r, s.reqs[r].pair, d, s.reqs[r].kv))
  }

  lemma ArrivedViews(s: State, t: real, r: ReqId, d: nat, h: Summary)
    requires Arrives(s, t, r, d, h)
    ensures var s' := Arrived(s, t, r, d, h); var p := s.reqs[r].pair;
      && PSides(s)[p] == [r] + PSides(s')[p] && PSides(s') == PSides(s)[p := PSides(s')[p]]
      && DSides(s') == DSides(s)[d := DSides(s)[d] + [r]]
  {
    var s' := Arrived(s, t, r, d, h);
    var p := s.reqs[r].pair;
    forall q | 0 <= q < |s.pairs|
      ensures PSide(s, q) == (if q == p then [r] else []) + PSide(s', q)
      ensures DSide(s', q) == DSide(s, q) + if q == d then [r] else []
    {
      assert h.ids(Batch(q)) == s.heap.ids(Batch(q));
      if q == p {
        assert s.heap.ids(Link(p)) == [r] + h.ids(Link(p));
      } else {
        assert s.heap.ids(Link(q)) == h.ids(Link(q));
        assert PSide(s, q) == PSide(s', q);
      }
    }
    forall q | 0 <= q < |s.pairs| && q != p ensures PSide(s', q) == PSide(s, q) {
      assert PSide(s, q) == [] + PSide(s', q);
    }
    assert forall q :: 0 <= q < |s.pairs| && q != d ==> DSide(s', q) == DSide(s, q);
  }

  lemma OrderedTail(tags: seq<Tag>, q: seq<ReqId>, r: ReqId, rest: seq<ReqId>)
    requires Ordered(tags, q) && q == [r] + rest
    ensures Ordered(tags, rest) && forall y :: y in rest ==> Before(tags, r, y)
  {
    InTail(q, r, rest);
    forall i, j | 0 <= i < j < |rest| ensures Before(tags, rest[i], rest[j]) {
      assert q[i + 1] == rest[i] && q[j + 1] == rest[j];
    }
    forall i | 0 <= i < |rest| ensures Before(tags, r, rest[i]) {
      assert q[0] == r && q[i + 1] == rest[i];
    }
  }

  lemma LinesArrive(tags: seq<Tag>, ps: seq<seq<ReqId>>, ds: seq<seq<ReqId>>, p: nat, d: nat, r: ReqId, rest: seq<ReqId>)
    requires LinesOk(tags, ps, ds) && p < |ps| && d < |ds| && ps[p] == [r] + rest
    requires r < |tags| && tags[r].dPair == d
    ensures LinesOk(tags, ps[p := rest], ds[d := ds[d] + [r]])
  {
    var ps', ds' := ps[p := rest], ds[d := ds[d] + [r]];
    OrderedTail(tags, ps[p], r, rest);
    InTail(ps[p], r, rest);
    assert Cross(tags, ds[d], ps[p]);
    OrderedAppend(tags, ds[d], r);
    forall q, e | 0 <= q < |ps| && 0 <= e < |ds| ensures Cross(tags, ds'[e], ps'[q]) {
      assert Cross(tags, ds[e], ps[q]);
      forall x, y | x in ds'[e] && y in ps'[q] ensures Before(tags, x, y) {
        if x in ds[e] {
          assert y in ps[q];
        } else if q != p {
          assert OfP(tags, ps[q], q) && OfP(tags, ps[p], p) && Ordered(tags, ps[q]);
          assert Known(tags, y) && tags[y].pair == q;
        }
      }
    }
    forall q | 0 <= q < |ps| ensures Ordered(tags, ps'[q]) && OfP(tags, ps'[q], q) {
      assert Ordered(tags, ps[q]) && OfP(tags, ps[q], q);
    }
    forall e | 0 <= e < |ds| ensures Ordered(tags, ds'[e]) && OfD(tags, ds'[e], e) {
      assert Ordered(tags, ds[e]) && OfD(tags, ds[e], e);
    }
  }

  lemma CoverArrive(
    tags: seq<Tag>, live: seq<bool>, ps: seq<seq<ReqId>>, ds: seq<seq<ReqId>>, coming: seq<ReqId>, n: nat,
    p: nat, d: nat, r: ReqId, rest: seq<ReqId>)
    requires CoverOk(tags, live, ps, ds, coming, n) && p < |ps| && d < |ds| && ps[p] == [r] + rest
    requires r < |tags| && tags[r].dPair == d
    ensures CoverOk(tags, live, ps[p := rest], ds[d := ds[d] + [r]], coming, n)
  {
    var ps', ds' := ps[p := rest], ds[d := ds[d] + [r]];
    InTail(ps[p], r, rest);
    forall x | 0 <= x < |tags| && tags[x].order.Some? && live[x]
      ensures x in ps'[tags[x].pair] || x in ds'[tags[x].dPair]
    {
      if x in ds[tags[x].dPair] {
        assert x in ds'[tags[x].dPair];
      } else {
        assert x in ps[tags[x].pair];
        if tags[x].pair == p && x == r { assert r in ds'[d]; }
      }
    }
    forall q | 0 <= q < |ps| ensures AllLive(live, ps'[q]) { assert AllLive(live, ps[q]); }
    forall e | 0 <= e < |ds| ensures AllLive(live, ds'[e]) { assert AllLive(live, ds[e]) && AllLive(live, ps[p]); }
  }

  lemma {:induction false} UnpulledAppend(reqs: seq<Req>, q: seq<ReqId>, r: ReqId)
    ensures Unpulled(reqs, q + [r]) == Unpulled(reqs, q) + BufferKv(reqs, r)
  {
    if q == [] {
      assert q + [r] == [r];
    } else {
      assert (q + [r])[1..] == q[1..] + [r];
      UnpulledAppend(reqs, q[1..], r);
    }
  }

  lemma ArrivedBuffers(s: State, ph: Physics, t: real, r: ReqId, d: nat, h: Summary)
    requires Arrives(s, t, r, d, h) && BuffersOk(s, ph) && !s.reqs[r].pulled
    ensures BuffersOk(Arrived(s, t, r, d, h), ph)
  {
    UnpulledAppend(s.reqs, s.pairs[d].dReady, r);
  }

  lemma ArrivedFlags(s: State, t: real, r: ReqId, d: nat, h: Summary)
    requires Arrives(s, t, r, d, h) && FlagsOk(s, NOBODY)
    ensures FlagsOk(Arrived(s, t, r, d, h), Awakened(s, d))
  {}

  lemma ArrivedBooks(s: State, ph: Physics, t: real, r: ReqId, d: nat, h: Summary)
    requires Arrives(s, t, r, d, h) && BooksOk(s) && CapOk(s, ph, NOBODY)
    ensures var s' := Arrived(s, t, r, d, h); BooksOk(s') && CapOk(s', ph, Awakened(s, d))
  {}

  lemma ArrivedAtP(s: State, t: real, r: ReqId, d: nat, h: Summary)
    requires Arrives(s, t, r, d, h) && AtPOk(s)
    ensures AtPOk(Arrived(s, t, r, d, h))
  {
    var s' := Arrived(s, t, r, d, h);
    assert AtPs(s') == AtPs(s);
    assert PairAtP(s, AtPs(s), s.reqs[r].pair);
    InTail(s.heap.ids(Link(s.reqs[r].pair)), r, h.ids(Link(s.reqs[r].pair)));
    forall q | 0 <= q < |s.pairs| ensures PairAtP(s', AtPs(s), q) {
      assert PairAtP(s, AtPs(s), q);
      assert DSide(s', q) == DSide(s, q) + if q == d then [r] else [];
    }
  }

  lemma ArrivedWork(s: State, ph: Physics, t: real, r: ReqId, d: nat, h: Summary)
    requires Arrives(s, t, r, d, h) && WorkOk(s, ph, NOBODY, NOBODY)
    ensures WorkOk(Arrived(s, t, r, d, h), ph, NOBODY, Awakened(s, d))
  {
    var s' := Arrived(s, t, r, d, h);
    forall q | 0 <= q < |s.pairs| ensures PWork(s', q) { assert PWork(s, q); }
    forall e | 0 <= e < |s.pairs| && e != Awakened(s, d) ensures DWork(s', ph, e) { assert DWork(s, ph, e); }
  }

  lemma FirstsAppend(reqs: seq<Req>, q: seq<ReqId>, r: ReqId)
    requires FirstsLead(reqs, q) && r < |reqs| && reqs[r].first.None?
    ensures FirstsLead(reqs, q + [r])
  {}

  lemma ArrivedTokens(s: State, ph: Physics, t: real, r: ReqId, d: nat, h: Summary)
    requires Arrives(s, t, r, d, h) && TokensOk(s, ph) && JoinedOk(s, NOBODY)
    ensures TokensOk(Arrived(s, t, r, d, h), ph) && JoinedOk(Arrived(s, t, r, d, h), Awakened(s, d))
    ensures !s.reqs[r].pulled
  {
    var s' := Arrived(s, t, r, d, h);
    var p := s.reqs[r].pair;
    ArrivedViews(s, t, r, d, h);
    assert Fresh(s.reqs, PSide(s, p));
    assert PSides(s)[p] == PSide(s, p) && PSides(s')[p] == PSide(s', p);
    InTail(PSide(s, p), r, PSide(s', p));
    forall q | 0 <= q < |s.pairs| ensures Fresh(s'.reqs, PSide(s', q)) {
      assert Fresh(s.reqs, PSide(s, q));
      if q != p { assert PSides(s')[q] == PSides(s)[q]; }
    }
    forall e | 0 <= e < |s.pairs|
      ensures AllPulled(s'.reqs, s'.pairs[e].dRunning) && Exist(s'.reqs, s'.pairs[e].dReady)
      ensures FirstsLead(s'.reqs, DSide(s', e))
    {
      assert FirstsLead(s.reqs, DSide(s, e));
      if e == d {
        FirstsAppend(s.reqs, DSide(s, d), r);
        assert DSide(s', d) == DSide(s, d) + [r];
      }
    }
    forall x | 0 <= x < |s.reqs| ensures ReqOk(s.reqs[x], t + ph.firstExtra) {
      assert ReqOk(s.reqs[x], s.now + ph.firstExtra);
    }
  }

  lemma ArrivedLines(s: State, t: real, r: ReqId, d: nat, h: Summary)
    requires Arrives(s, t, r, d, h)
    requires LinesOk(Tags(s.reqs), PSides(s), DSides(s))
    requires CoverOk(Tags(s.reqs), Live(s.reqs), PSides(s), DSides(s), s.heap.ids(Enqueue), s.enqueued)
    ensures var s' := Arrived(s, t, r, d, h);
      && LinesOk(Tags(s'.reqs), PSides(s'), DSides(s'))
      && CoverOk(Tags(s'.reqs), Live(s'.reqs), PSides(s'), DSides(s'), h.ids(Enqueue), s'.enqueued)
  {
    var s' := Arrived(s, t, r, d, h);
    var p := s.reqs[r].pair;
    ArrivedViews(s, t, r, d, h);
    LinesArrive(Tags(s.reqs), PSides(s), DSides(s), p, d, r, PSides(s')[p]);
    CoverArrive(Tags(s.reqs), Live(s.reqs), PSides(s), DSides(s), s.heap.ids(Enqueue), s.enqueued, p, d, r, PSides(s')[p]);
  }

  lemma ArrivedKeeps(s: State, ph: Physics, t: real, r: ReqId, d: nat, h: Summary)
    requires Boundary(s, ph) && Arrives(s, t, r, d, h)
    ensures Inv(Arrived(s, t, r, d, h), ph, NOBODY, Awakened(s, d))
  {
    ArrivedLines(s, t, r, d, h);
    ArrivedTokens(s, ph, t, r, d, h);
    ArrivedBuffers(s, ph, t, r, d, h);
    ArrivedFlags(s, t, r, d, h);
    ArrivedBooks(s, ph, t, r, d, h);
    ArrivedAtP(s, t, r, d, h);
    ArrivedWork(s, ph, t, r, d, h);
  }
}
