/** A decode step ends: every running sequence gets a token, and complete ones leave. */
module PipelineTokens {
  import opened Options
  import opened EventQueue
  import opened Pipeline
  import opened PipelineSteps
  import opened PipelineMoves
  import opened PipelineDecode

  function Later(a: real, b: real): real { if a < b then b else a }

  /** The request after its token at time `now`. */
  function Emit(x: Req, now: real, extra: real): Req {
    var first := if x.first.None? then now + extra else x.first.value;
    var x' := x.(first := Some(first), emitted := x.emitted + 1);
    if x'.emitted >= x.output then x'.(done := Some(Later(now, first))) else x'
  }

  function Without(q: seq<ReqId>, i: nat): seq<ReqId>
    requires i < |q|
  {
    q[..i] + q[i + 1..]
  }

  /** A first token: the request leaves the books of its P and is decoding on its D. */
  function Started(pairs: seq<Pair>, p: nat, d: nat, prompt: nat): seq<Pair>
    requires p < |pairs| && d < |pairs|
  {
    var a := pairs[p := pairs[p].(inflightTokens := pairs[p].inflightTokens - prompt)];
    a[d := a[d].(decoding := a[d].decoding + 1)]
  }

  /** A last token: the sequence leaves its D. */
  function Served(pairs: seq<Pair>, d: nat, i: nat): seq<Pair>
    requires d < |pairs| && i < |pairs[d].dRunning|
  {
    pairs[d := pairs[d].(dRunning := Without(pairs[d].dRunning, i), decoding := pairs[d].decoding - 1)]
  }

  /** Sequence `i` of D `d` gets a token. */
  function TokenOut(s: State, ph: Physics, d: nat, i: nat): State
    requires d < |s.pairs| && i < |s.pairs[d].dRunning|
    requires s.pairs[d].dRunning[i] < |s.reqs| && s.reqs[s.pairs[d].dRunning[i]].pair < |s.pairs|
  {
    var r := s.pairs[d].dRunning[i];
    var x := s.reqs[r];
    var x' := Emit(x, s.now, ph.firstExtra);
    var a := if x.first.None? then Started(s.pairs, x.pair, d, x.prompt) else s.pairs;
    s.(reqs := s.reqs[r := x'], pairs := if x'.done.Some? then Served(a, d, i) else a)
  }

  ghost predicate Emits(s: State, d: nat, i: nat) {
    && d < |s.pairs| && i < |s.pairs[d].dRunning|
    && var r := s.pairs[d].dRunning[i];
    && r < |s.reqs| && s.reqs[r].pair < |s.pairs| && s.reqs[r].dPair == d && s.reqs[r].done.None?
  }

  lemma TokenViews(s: State, ph: Physics, d: nat, i: nat)
    requires Emits(s, d, i)
    ensures var s' := TokenOut(s, ph, d, i); var r := s.pairs[d].dRunning[i];
      && PSides(s') == PSides(s)
      && DSides(s') == (if s'.reqs[r].done.Some? then DSides(s)[d := Without(DSides(s)[d], i)] else DSides(s))
      && Tags(s'.reqs) == Tags(s.reqs) && AtPs(s') == AtPs(s)
      && Live(s'.reqs) == Live(s.reqs)[r := s'.reqs[r].done.None?]
  {
    var s' := TokenOut(s, ph, d, i);
    var r := s.pairs[d].dRunning[i];
    assert Without(DSide(s, d), i) == Without(s.pairs[d].dRunning, i) + s.pairs[d].dReady;
    forall q | 0 <= q < |s.pairs|
      ensures PSide(s', q) == PSide(s, q)
      ensures DSide(s', q) == if q == d && s'.reqs[r].done.Some? then Without(DSide(s, d), i) else DSide(s, q)
    {}
  }

  // ---- lines ---------------------------------------------------------------------------------

  lemma OrderedWithout(tags: seq<Tag>, q: seq<ReqId>, i: nat)
    requires Ordered(tags, q) && i < |q|
    ensures Ordered(tags, Without(q, i))
    ensures forall x :: x in Without(q, i) ==> x in q
    ensures forall x :: x in q && x != q[i] ==> x in Without(q, i)
    ensures q[i] !in Without(q, i)
  {
    var w := Without(q, i);
    forall a, b | 0 <= a < b < |w| ensures Before(tags, w[a], w[b]) {
      var a', b' := if a < i then a else a + 1, if b < i then b else b + 1;
      assert Before(tags, q[a'], q[b']);
    }
    forall a | 0 <= a < |w| ensures w[a] in q && w[a] != q[i] {
      var a' := if a < i then a else a + 1;
      assert w[a] == q[a'];
      if a' < i { assert Before(tags, q[a'], q[i]); } else { assert Before(tags, q[i], q[a']); }
    }
    forall x | x in q && x != q[i] ensures x in w {
      var a :| 0 <= a < |q| && q[a] == x;
      assert w[if a < i then a else a - 1] == x;
    }
  }

  lemma LinesServe(tags: seq<Tag>, ps: seq<seq<ReqId>>, ds: seq<seq<ReqId>>, d: nat, i: nat)
    requires LinesOk(tags, ps, ds) && d < |ds| && i < |ds[d]|
    ensures LinesOk(tags, ps, ds[d := Without(ds[d], i)])
  {
    var ds' := ds[d := Without(ds[d], i)];
    OrderedWithout(tags, ds[d], i);
    forall q, e | 0 <= q < |ps| && 0 <= e < |ds| ensures Cross(tags, ds'[e], ps[q]) {
      assert Cross(tags, ds[e], ps[q]);
    }
    assert OfD(tags, ds[d], d);
  }

  lemma CoverServe(
    tags: seq<Tag>, live: seq<bool>, ps: seq<seq<ReqId>>, ds: seq<seq<ReqId>>, coming: seq<ReqId>, n: nat, d: nat, i: nat)
    requires LinesOk(tags, ps, ds) && CoverOk(tags, live, ps, ds, coming, n) && d < |ds| && i < |ds[d]|
    requires ds[d][i] < |live|
    ensures CoverOk(tags, live[ds[d][i] := false], ps, ds[d := Without(ds[d], i)], coming, n)
  {
    var r := ds[d][i];
    var ds' := ds[d := Without(ds[d], i)];
    assert r in ds[d];
    assert Ordered(tags, ds[d]) && OfD(tags, ds[d], d) && Known(tags, r);
    OrderedWithout(tags, ds[d], i);
    forall q | 0 <= q < |ps| ensures AllLive(live[r := false], ps[q]) {
      assert AllLive(live, ps[q]) && Cross(tags, ds[d], ps[q]) && OfP(tags, ps[q], q);
      assert !Before(tags, r, r);
    }
    forall e | 0 <= e < |ds| ensures AllLive(live[r := false], ds'[e]) {
      assert AllLive(live, ds[e]) && OfD(tags, ds[e], e);
    }
    forall x | 0 <= x < |tags| && tags[x].order.Some? && live[r := false][x]
      ensures x in ps[tags[x].pair] || x in ds'[tags[x].dPair]
    {
      assert x in ps[tags[x].pair] || x in ds[tags[x].dPair];
    }
  }

  lemma TokenLines(s: State, ph: Physics, d: nat, i: nat)
    requires Emits(s, d, i)
    requires LinesOk(Tags(s.reqs), PSides(s), DSides(s))
    requires CoverOk(Tags(s.reqs), Live(s.reqs), PSides(s), DSides(s), s.heap.ids(Enqueue), s.enqueued)
    ensures var s' := TokenOut(s, ph, d, i);
      && LinesOk(Tags(s'.reqs), PSides(s'), DSides(s'))
      && CoverOk(Tags(s'.reqs), Live(s'.reqs), PSides(s'), DSides(s'), s'.heap.ids(Enqueue), s'.enqueued)
  {
    var s' := TokenOut(s, ph, d, i);
    var r := s.pairs[d].dRunning[i];
    TokenViews(s, ph, d, i);
    assert DSides(s)[d] == DSide(s, d) && DSide(s, d)[i] == r;
    if s'.reqs[r].done.Some? {
      LinesServe(Tags(s.reqs), PSides(s), DSides(s), d, i);
      CoverServe(Tags(s.reqs), Live(s.reqs), PSides(s), DSides(s), s.heap.ids(Enqueue), s.enqueued, d, i);
    } else {
      assert Live(s'.reqs) == Live(s.reqs);
    }
  }

  // ---- books and resources ---------------------------------------------------------------------

  lemma TokenPairFields(s: State, ph: Physics, d: nat, i: nat, p: nat)
    requires Emits(s, d, i) && p < |s.pairs|
    ensures var s' := TokenOut(s, ph, d, i); var x := s.reqs[s.pairs[d].dRunning[i]];
      var started := x.first.None?; var served := Emit(x, s.now, ph.firstExtra).done.Some?;
      && |s'.pairs| == |s.pairs|
      && s'.pairs[p].atP == s.pairs[p].atP && s'.pairs[p].dLooping == s.pairs[p].dLooping
      && s'.pairs[p].pBusy == s.pairs[p].pBusy && s'.pairs[p].retryScheduled == s.pairs[p].retryScheduled
      && s'.pairs[p].inflightTokens == s.pairs[p].inflightTokens - (if started && p == x.pair then x.prompt else 0)
      && s'.pairs[p].decoding ==
        s.pairs[p].decoding + (if started && p == d then 1 else 0) - (if served && p == d then 1 else 0)
  {}

  lemma TokenFlags(s: State, ph: Physics, d: nat, i: nat)
    requires Emits(s, d, i) && FlagsOk(s, d) && ReqsInRange(s)
    ensures var s' := TokenOut(s, ph, d, i); FlagsOk(s', d) && ReqsInRange(s')
  {
    var s' := TokenOut(s, ph, d, i);
    forall p | 0 <= p < |s.pairs|
      ensures s'.pairs[p].dLooping == s.pairs[p].dLooping
      ensures s'.pairs[p].pBusy == s.pairs[p].pBusy && s'.pairs[p].retryScheduled == s.pairs[p].retryScheduled
    {
      TokenPairFields(s, ph, d, i, p);
    }
  }

  lemma TokenBooks(s: State, ph: Physics, d: nat, i: nat)
    requires Emits(s, d, i) && BooksOk(s)
    requires s.pairs[d].dRunning[i] !in s.pairs[s.reqs[s.pairs[d].dRunning[i]].pair].atP
    ensures BooksOk(TokenOut(s, ph, d, i))
  {
    var s' := TokenOut(s, ph, d, i);
    var r := s.pairs[d].dRunning[i];
    var x' := Emit(s.reqs[r], s.now, ph.firstExtra);
    forall p | 0 <= p < |s.pairs|
      ensures s'.pairs[p].inflightTokens == Inflight(s'.reqs, s'.pairs[p].atP, p)
      ensures s'.pairs[p].decoding == Decoding(s'.reqs, p)
    {
      TokenPairFields(s, ph, d, i, p);
      InflightUpdate(s.reqs, s.pairs[p].atP, p, r, x');
      DecodingUpdate(s.reqs, p, r, x');
    }
  }

  lemma {:induction false} ReservedWithout(reqs: seq<Req>, q: seq<ReqId>, i: nat)
    requires i < |q|
    ensures Reserved(reqs, Without(q, i)) <= Reserved(reqs, q)
  {
    SplitSums(reqs, q[..i], q[i + 1..]);
    SplitSums(reqs, q[..i], q[i..]);
    assert q == q[..i] + q[i..] && q[i..][1..] == q[i + 1..];
  }

  lemma TokenSums(s: State, ph: Physics, d: nat, i: nat, e: nat)
    requires Emits(s, d, i) && e < |s.pairs| && LinesOk(Tags(s.reqs), PSides(s), DSides(s))
    ensures var s' := TokenOut(s, ph, d, i);
      && Unpulled(s'.reqs, s.pairs[e].dReady) == Unpulled(s.reqs, s.pairs[e].dReady)
      && Reserved(s'.reqs, s'.pairs[e].dRunning) <= Reserved(s.reqs, s.pairs[e].dRunning)
      && (e != d ==> Held(s'.reqs, s'.pairs[e].dRunning) == Held(s.reqs, s.pairs[e].dRunning))
  {
    var s' := TokenOut(s, ph, d, i);
    var r := s.pairs[d].dRunning[i];
    UnpulledSame(s.reqs, s'.reqs, s.pairs[e].dReady);
    ReservedSame(s.reqs, s'.reqs, s'.pairs[e].dRunning);
    if e == d {
      ReservedWithout(s.reqs, s.pairs[d].dRunning, i);
    } else {
      LinesApart(s, e);
      forall j | 0 <= j < |s.pairs[e].dRunning| ensures s.pairs[e].dRunning[j] != r {
        assert s.pairs[e].dRunning[j] in DSide(s, e);
      }
      HeldSame(s.reqs, s'.reqs, s.pairs[e].dRunning);
    }
  }

  lemma TokenQueues(s: State, ph: Physics, d: nat, i: nat, e: nat)
    requires Emits(s, d, i) && e < |s.pairs|
    ensures var s' := TokenOut(s, ph, d, i);
      && |s'.pairs| == |s.pairs| && s'.heap == s.heap && s'.pairs[e].buffer == s.pairs[e].buffer
      && s'.pairs[e].dReady == s.pairs[e].dReady && (e != d ==> s'.pairs[e].dRunning == s.pairs[e].dRunning)
  {}

  lemma TokenRoom(s: State, ph: Physics, d: nat, i: nat, e: nat)
    requires Emits(s, d, i) && e < |s.pairs| && BuffersOk(s, ph) && CapOk(s, ph, d)
    requires LinesOk(Tags(s.reqs), PSides(s), DSides(s))
    ensures var s' := TokenOut(s, ph, d, i);
      && e < |s'.pairs|
      && s'.pairs[e].buffer == s'.heap.kv(e) + Unpulled(s'.reqs, s'.pairs[e].dReady) && s'.pairs[e].buffer <= ph.kvBuffer
      && (!ph.vllm ==> Reserved(s'.reqs, s'.pairs[e].dRunning) <= ph.dTokens)
      && (ph.vllm && e != d && s'.pairs[e].dRunning != [] ==>
        Held(s'.reqs, s'.pairs[e].dRunning) + |s'.pairs[e].dRunning| <= ph.dTokens)
  {
    TokenQueues(s, ph, d, i, e);
    TokenSums(s, ph, d, i, e);
  }

  lemma TokenResources(s: State, ph: Physics, d: nat, i: nat)
    requires Emits(s, d, i) && BuffersOk(s, ph) && CapOk(s, ph, d)
    requires LinesOk(Tags(s.reqs), PSides(s), DSides(s))
    ensures BuffersOk(TokenOut(s, ph, d, i), ph) && CapOk(TokenOut(s, ph, d, i), ph, d)
  {
    var s' := TokenOut(s, ph, d, i);
    forall e | 0 <= e < |s'.pairs|
      ensures s'.pairs[e].buffer == s'.heap.kv(e) + Unpulled(s'.reqs, s'.pairs[e].dReady) && s'.pairs[e].buffer <= ph.kvBuffer
      ensures !ph.vllm ==> Reserved(s'.reqs, s'.pairs[e].dRunning) <= ph.dTokens
      ensures ph.vllm && e != d && s'.pairs[e].dRunning != [] ==>
        Held(s'.reqs, s'.pairs[e].dRunning) + |s'.pairs[e].dRunning| <= ph.dTokens
    {
      TokenRoom(s, ph, d, i, e);
    }
  }

  lemma {:induction false} ReservedSame(reqs: seq<Req>, reqs': seq<Req>, q: seq<ReqId>)
    requires forall j :: 0 <= j < |q| ==> Claim(reqs', q[j]) == Claim(reqs, q[j])
    ensures Reserved(reqs', q) == Reserved(reqs, q)
  {
    if q != [] {
      assert forall j :: 0 <= j < |q[1..]| ==> q[1..][j] == q[j + 1];
      ReservedSame(reqs, reqs', q[1..]);
    }
  }

  // ---- first tokens -----------------------------------------------------------------------------

  /** Whoever is older than sequence `i`, at the same P and D, has its first token already. */
  lemma OlderStarted(s: State, ph: Physics, d: nat, i: nat, x: ReqId)
    requires Emits(s, d, i) && x < |s.reqs| && Earlier(s.reqs[x], s.reqs[s.pairs[d].dRunning[i]])
    requires LinesOk(Tags(s.reqs), PSides(s), DSides(s))
    requires CoverOk(Tags(s.reqs), Live(s.reqs), PSides(s), DSides(s), s.heap.ids(Enqueue), s.enqueued)
    requires ReqOk(s.reqs[x], s.now + ph.firstExtra)
    requires forall j :: 0 <= j < i && s.pairs[d].dRunning[j] < |s.reqs| ==> s.reqs[s.pairs[d].dRunning[j]].first.Some?
    ensures s.reqs[x].first.Some? && s.reqs[x].first.value <= s.now + ph.firstExtra
  {
    var tags := Tags(s.reqs);
    var r := s.pairs[d].dRunning[i];
    var p := s.reqs[x].pair;
    var line := DSide(s, d);
    assert line[i] == r && r in line;
    if s.reqs[x].done.None? {
      assert tags[x].order == s.reqs[x].order && Live(s.reqs)[x];
      assert PSides(s)[p] == PSide(s, p) && DSides(s)[d] == line;
      assert Cross(tags, line, PSide(s, p)) && Ordered(tags, line);
      assert !Before(tags, r, x);
      var j :| 0 <= j < |line| && line[j] == x;
      assert forall k :: i < k < |line| ==> Before(tags, line[i], line[k]);
      assert j < i && s.pairs[d].dRunning[j] == x;
    }
  }

  lemma TokenReqs(s: State, ph: Physics, d: nat, i: nat)
    requires Emits(s, d, i) && TokensOk(s, ph) && ph.firstExtra >= 0.0
    requires LinesOk(Tags(s.reqs), PSides(s), DSides(s))
    requires CoverOk(Tags(s.reqs), Live(s.reqs), PSides(s), DSides(s), s.heap.ids(Enqueue), s.enqueued)
    requires forall j :: 0 <= j < i && s.pairs[d].dRunning[j] < |s.reqs| ==> s.reqs[s.pairs[d].dRunning[j]].first.Some?
    ensures ReqsOk(TokenOut(s, ph, d, i).reqs, s.now + ph.firstExtra) && FirstsInOrder(TokenOut(s, ph, d, i).reqs)
  {
    var reqs' := TokenOut(s, ph, d, i).reqs;
    var r := s.pairs[d].dRunning[i];
    LinesApart(s, d);
    assert DSide(s, d)[i] == r;
    forall x | 0 <= x < |reqs'| ensures ReqOk(reqs'[x], s.now + ph.firstExtra) {
      assert ReqOk(s.reqs[x], s.now + ph.firstExtra);
    }
    forall x, y | 0 <= x < |reqs'| && 0 <= y < |reqs'| && Earlier(reqs'[x], reqs'[y]) && reqs'[y].first.Some?
      ensures reqs'[x].first.Some? && reqs'[x].first.value <= reqs'[y].first.value
    {
      assert Earlier(s.reqs[x], s.reqs[y]);
      if y == r && s.reqs[r].first.None? {
        assert ReqOk(s.reqs[x], s.now + ph.firstExtra);
        OlderStarted(s, ph, d, i, x);
      }
    }
  }

  lemma FirstsWithout(reqs: seq<Req>, reqs': seq<Req>, q: seq<ReqId>, i: nat)
    requires i < |q| && q[i] < |reqs| == |reqs'| && FirstsLead(reqs, q) && Distinct(q)
    requires forall x :: 0 <= x < |reqs| && x != q[i] ==> reqs'[x] == reqs[x]
    requires reqs'[q[i]].first.Some?
    requires forall j :: 0 <= j < i && q[j] < |reqs| ==> reqs[q[j]].first.Some?
    ensures FirstsLead(reqs', q) && FirstsLead(reqs', Without(q, i))
  {
    forall a, b | 0 <= a < b < |q| && q[a] < |reqs| && q[b] < |reqs| && reqs'[q[b]].first.Some?
      ensures reqs'[q[a]].first.Some?
    {
      if b != i { assert q[b] != q[i] && reqs[q[b]].first.Some?; }
    }
    var w := Without(q, i);
    forall a, b | 0 <= a < b < |w| && w[a] < |reqs| && w[b] < |reqs| && reqs'[w[b]].first.Some?
      ensures reqs'[w[a]].first.Some?
    {
      assert w[a] == q[if a < i then a else a + 1] && w[b] == q[if b < i then b else b + 1];
    }
  }

  lemma TokenLists(s: State, ph: Physics, d: nat, i: nat, e: nat)
    requires Emits(s, d, i) && e < |s.pairs| && Distinct(DSide(s, d))
    requires AllPulled(s.reqs, s.pairs[e].dRunning) && Exist(s.reqs, s.pairs[e].dReady)
    requires FirstsLead(s.reqs, DSide(s, e))
    requires forall x :: x in DSide(s, e) ==> x < |s.reqs| && s.reqs[x].dPair == e
    requires forall j :: 0 <= j < i && s.pairs[d].dRunning[j] < |s.reqs| ==> s.reqs[s.pairs[d].dRunning[j]].first.Some?
    ensures var s' := TokenOut(s, ph, d, i);
      && AllPulled(s'.reqs, s'.pairs[e].dRunning) && Exist(s'.reqs, s'.pairs[e].dReady)
      && FirstsLead(s'.reqs, DSide(s', e))
  {
    var s' := TokenOut(s, ph, d, i);
    TokenViews(s, ph, d, i);
    assert DSides(s')[e] == DSide(s', e) && DSides(s)[e] == DSide(s, e);
    if e == d {
      assert DSide(s, d)[i] == s.pairs[d].dRunning[i];
      FirstsWithout(s.reqs, s'.reqs, DSide(s, d), i);
      forall x | x in s'.pairs[d].dRunning ensures x in s.pairs[d].dRunning {}
    } else {
      forall j | 0 <= j < |DSide(s, e)| ensures DSide(s, e)[j] < |s.reqs| && s'.reqs[DSide(s, e)[j]] == s.reqs[DSide(s, e)[j]] {
        assert DSide(s, e)[j] in DSide(s, e);
      }
    }
  }

  lemma TokenFresh(s: State, ph: Physics, d: nat, i: nat)
    requires Emits(s, d, i) && TokensOk(s, ph) && LinesOk(Tags(s.reqs), PSides(s), DSides(s))
    ensures forall p :: 0 <= p < |s.pairs| ==> Fresh(TokenOut(s, ph, d, i).reqs, PSide(TokenOut(s, ph, d, i), p))
  {
    var s', r := TokenOut(s, ph, d, i), s.pairs[d].dRunning[i];
    LinesApart(s, d);
    assert DSide(s, d)[i] == r && r in DSide(s, d);
    forall p | 0 <= p < |s.pairs| ensures Fresh(s'.reqs, PSide(s', p)) {
      assert Fresh(s.reqs, PSide(s, p)) && PSide(s', p) == PSide(s, p) && r !in PSide(s, p);
    }
  }

  lemma TokenTokens(s: State, ph: Physics, d: nat, i: nat)
    requires Emits(s, d, i) && TokensOk(s, ph) && JoinedOk(s, d) && ph.firstExtra >= 0.0
    requires LinesOk(Tags(s.reqs), PSides(s), DSides(s))
    requires CoverOk(Tags(s.reqs), Live(s.reqs), PSides(s), DSides(s), s.heap.ids(Enqueue), s.enqueued)
    requires forall x :: x in s.heap.ids(Enqueue) ==> x < |s.reqs| && s.reqs[x].order.None?
    requires forall j :: 0 <= j < i && s.pairs[d].dRunning[j] < |s.reqs| ==> s.reqs[s.pairs[d].dRunning[j]].first.Some?
    ensures TokensOk(TokenOut(s, ph, d, i), ph) && JoinedOk(TokenOut(s, ph, d, i), d)
  {
    var s' := TokenOut(s, ph, d, i);
    var r := s.pairs[d].dRunning[i];
    TokenReqs(s, ph, d, i);
    LinesApart(s, d);
    assert DSide(s, d)[i] == r && r in DSide(s, d);
    TokenFresh(s, ph, d, i);
    forall e | 0 <= e < |s.pairs|
      ensures AllPulled(s'.reqs, s'.pairs[e].dRunning) && Exist(s'.reqs, s'.pairs[e].dReady)
      ensures FirstsLead(s'.reqs, DSide(s', e))
    {
      LinesApart(s, e);
      TokenLists(s, ph, d, i, e);
    }
    TokenJoined(s, ph, d, i);
  }

  lemma TokenJoined(s: State, ph: Physics, d: nat, i: nat)
    requires Emits(s, d, i) && JoinedOk(s, d)
    ensures JoinedOk(TokenOut(s, ph, d, i), d)
  {
    var s' := TokenOut(s, ph, d, i);
    forall e | 0 <= e < |s.pairs| && e != d ensures StartedOrIn(s'.reqs, s'.pairs[e].dRunning, s.heap.ids(Decode(e))) {
      assert StartedOrIn(s.reqs, s.pairs[e].dRunning, s.heap.ids(Decode(e)));
    }
  }

  /** `r` has left its P, so its token changes nothing there. */
  lemma TokenPair(s: State, s': State, at: seq<map<ReqId, nat>>, r: ReqId, q: nat)
    requires q < |s.pairs| == |s'.pairs| == |at| && r < |s.reqs| == |s'.reqs| && PairAtP(s, at, q)
    requires s'.heap == s.heap && s'.pairs[q].unsent == s.pairs[q].unsent && s'.pairs[q].pQueue == s.pairs[q].pQueue
    requires s'.pairs[q].atP == s.pairs[q].atP == at[q]
    requires s'.reqs[r].pair == s.reqs[r].pair && forall x :: 0 <= x < |s.reqs| && x != r ==> s'.reqs[x] == s.reqs[x]
    requires s.reqs[r].pair < |at| && r !in at[s.reqs[r].pair]
    requires forall x :: x in DSide(s', q) ==> x in DSide(s, q)
    ensures PairAtP(s', at, q)
  {
    LeftSame(s.reqs, s'.reqs, at, s.heap.ids(Link(q)));
    LeftSame(s.reqs, s'.reqs, at, s.pairs[q].unsent);
    LeftSame(s.reqs, s'.reqs, at, DSide(s, q));
    LeftSame(s.reqs, s'.reqs, at, s.heap.ids(Batch(q)));
    LeftSame(s.reqs, s'.reqs, at, s.pairs[q].pQueue);
  }

  lemma LeftSame(reqs: seq<Req>, reqs': seq<Req>, at: seq<map<ReqId, nat>>, q: seq<ReqId>)
    requires |reqs'| == |reqs| && forall x :: 0 <= x < |reqs| ==> reqs'[x].pair == reqs[x].pair
    ensures LeftP(reqs, at, q) ==> LeftP(reqs', at, q)
    ensures StillAtP(reqs, at, q) ==> StillAtP(reqs', at, q)
  {}

  lemma RunningLeft(s: State, d: nat, i: nat)
    requires Emits(s, d, i) && AtPOk(s)
    ensures s.pairs[d].dRunning[i] !in s.pairs[s.reqs[s.pairs[d].dRunning[i]].pair].atP
  {
    var r := s.pairs[d].dRunning[i];
    assert PairAtP(s, AtPs(s), d);
    assert DSide(s, d)[i] == r && r in DSide(s, d);
    assert r !in AtPs(s)[s.reqs[r].pair];
  }

  lemma TokenPairAtP(s: State, ph: Physics, d: nat, i: nat, q: nat)
    requires Emits(s, d, i) && q < |s.pairs| && PairAtP(s, AtPs(s), q)
    requires s.pairs[d].dRunning[i] !in s.pairs[s.reqs[s.pairs[d].dRunning[i]].pair].atP
    ensures |TokenOut(s, ph, d, i).pairs| == |s.pairs| && PairAtP(TokenOut(s, ph, d, i), AtPs(s), q)
  {
    TokenPairFields(s, ph, d, i, q);
    TokenMembers(s, ph, d, i, q);
    TokenPair(s, TokenOut(s, ph, d, i), AtPs(s), s.pairs[d].dRunning[i], q);
  }

  lemma TokenAtP(s: State, ph: Physics, d: nat, i: nat)
    requires Emits(s, d, i) && AtPOk(s)
    ensures AtPOk(TokenOut(s, ph, d, i))
  {
    var s' := TokenOut(s, ph, d, i);
    TokenViews(s, ph, d, i);
    RunningLeft(s, d, i);
    LeftSame(s.reqs, s'.reqs, AtPs(s), s.heap.ids(Enqueue));
    forall q | 0 <= q < |s.pairs| ensures PairAtP(s', AtPs(s), q) { TokenPairAtP(s, ph, d, i, q); }
  }

  lemma TokenMembers(s: State, ph: Physics, d: nat, i: nat, q: nat)
    requires Emits(s, d, i) && q < |s.pairs|
    ensures var s' := TokenOut(s, ph, d, i); forall x :: x in DSide(s', q) ==> x in DSide(s, q)
  {}

  lemma TokenWork(s: State, ph: Physics, d: nat, i: nat)
    requires Emits(s, d, i) && WorkOk(s, ph, NOBODY, d)
    requires LinesOk(Tags(s.reqs), PSides(s), DSides(s))
    ensures WorkOk(TokenOut(s, ph, d, i), ph, NOBODY, d)
  {
    var s' := TokenOut(s, ph, d, i);
    forall q | 0 <= q < |s.pairs| ensures PWork(s', q) { assert PWork(s, q); }
    forall e | 0 <= e < |s.pairs| && e != d ensures DWork(s', ph, e) {
      assert DWork(s, ph, e);
      if s.pairs[e].dReady != [] {
        LinesApart(s, e);
        assert s.pairs[e].dReady[0] in DSide(s, e);
      }
    }
  }

  lemma TokenKeeps(s: State, ph: Physics, d: nat, i: nat)
    requires Inv(s, ph, NOBODY, d) && Emits(s, d, i) && ph.firstExtra >= 0.0
    requires forall j :: 0 <= j < i && s.pairs[d].dRunning[j] < |s.reqs| ==> s.reqs[s.pairs[d].dRunning[j]].first.Some?
    ensures Inv(TokenOut(s, ph, d, i), ph, NOBODY, d)
  {
    ComingUnordered(s, ph, NOBODY, d);
    TokenLines(s, ph, d, i);
    TokenAtP(s, ph, d, i);
    RunningLeft(s, d, i);
    TokenBooks(s, ph, d, i);
    TokenFlags(s, ph, d, i);
    TokenResources(s, ph, d, i);
    TokenTokens(s, ph, d, i);
    TokenWork(s, ph, d, i);
  }

  /** A running sequence is a live request of this D. */
  lemma RunningEmits(s: State, ph: Physics, d: nat, i: nat)
    requires Inv(s, ph, NOBODY, d) && d < |s.pairs| && i < |s.pairs[d].dRunning|
    ensures Emits(s, d, i)
  {
    var r := s.pairs[d].dRunning[i];
    LinesApart(s, d);
    assert DSide(s, d)[i] == r && r in DSide(s, d);
    assert DSides(s)[d] == DSide(s, d);
    assert AllLive(Live(s.reqs), DSide(s, d));
  }
}
