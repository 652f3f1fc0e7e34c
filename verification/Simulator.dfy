/** The event loop of the simulator over its pairs and requests. */
module Simulator {
  import opened Options
  import opened EventQueue
  import opened Pipeline
  import opened PipelineSteps
  import opened PipelineMoves
  import opened PipelineDispatch
  import opened PipelineDecode
  import opened PipelineTokens
  import opened PipelinePromises
  import opened Sealing

  /** The requests' P, D and KV size never change; links only get busier. */
  ghost predicate SameStatics(s: State, s': State) {
    && |s'.pairs| == |s.pairs| && |s'.reqs| >= |s.reqs|
    && (forall i :: 0 <= i < |s.reqs| ==>
      s'.reqs[i].pair == s.reqs[i].pair && s'.reqs[i].dPair == s.reqs[i].dPair && s'.reqs[i].kv == s.reqs[i].kv)
    && (forall p :: 0 <= p < |s.pairs| ==> s.pairs[p].linkFree <= s'.pairs[p].linkFree)
  }

  lemma EventsStay(s: State, s': State, events: seq<Timed>, events': seq<Timed>)
    requires EventsOk(s, events) && SameStatics(s, s')
    requires s'.heap == Summarize(events') && Sorted(events')
    requires forall e :: e in events' ==> s'.now <= e.t && (e in events || EventOk(s', e))
    ensures EventsOk(s', events')
  {
    forall e | e in events' ensures EventOk(s', e) {
      if e in events { assert EventOk(s, e); }
    }
  }

  /** The batch rule: as many from the front as fit the token limit, but at least one. */
  ghost predicate IsBatch(reqs: seq<Req>, queue: seq<ReqId>, k: nat, limit: nat) {
    && 0 < k <= |queue|
    && (k == 1 || Prompts(reqs, queue[..k]) <= limit)
    && (k == |queue| || Prompts(reqs, queue[..k + 1]) > limit)
  }

  /** First occurrence removed, as `list.remove` does. */
  function Remove(q: seq<ReqId>, r: ReqId): seq<ReqId> {
    if q == [] then [] else if q[0] == r then q[1..] else [q[0]] + Remove(q[1..], r)
  }

  lemma {:induction false} RemoveKeeps(q: seq<ReqId>, r: ReqId)
    ensures forall x :: x in q && x != r ==> x in Remove(q, r)
    ensures forall x :: x in Remove(q, r) ==> x in q
  {
    if q != [] {
      RemoveKeeps(q[1..], r);
      assert q == [q[0]] + q[1..];
    }
  }

  lemma {:induction false} RemoveAt(q: seq<ReqId>, i: nat)
    requires i < |q| && Distinct(q)
    ensures Remove(q, q[i]) == Without(q, i)
  {
    if i > 0 {
      assert q[0] != q[i];
      assert forall a, b :: 0 <= a < b < |q[1..]| ==> q[1..][a] == q[a + 1] && q[1..][b] == q[b + 1];
      RemoveAt(q[1..], i - 1);
      assert q[1..][i - 1] == q[i];
      assert Without(q, i) == [q[0]] + Without(q[1..], i - 1);
    } else {
      assert Without(q, 0) == q[1..];
    }
  }

  // ---- the invariant as one fact, looked into only where that is asked for -------------------

  /** Only what belongs to sending and prefilling differs, and receive buffers only fill. */
  ghost predicate OnlyPFields(pairs: seq<Pair>, pairs': seq<Pair>) {
    && |pairs'| == |pairs|
    && (forall d :: 0 <= d < |pairs| ==> pairs'[d] == pairs[d].(
      pQueue := pairs'[d].pQueue, pBusy := pairs'[d].pBusy, unsent := pairs'[d].unsent, linkFree := pairs'[d].linkFree,
      retryScheduled := pairs'[d].retryScheduled, buffer := pairs'[d].buffer))
    && (forall d :: 0 <= d < |pairs| ==> pairs[d].buffer <= pairs'[d].buffer)
  }

  lemma HeadSentFields(s: State, p: nat, t: real, h: Summary)
    requires p < |s.pairs| && s.pairs[p].unsent != [] && s.pairs[p].unsent[0] < |s.reqs|
    requires s.reqs[s.pairs[p].unsent[0]].dPair < |s.pairs| && s.reqs[s.pairs[p].unsent[0]].kv >= 0.0
    ensures var pairs' := HeadSent(s, p, t, h).pairs;
      && OnlyPFields(s.pairs, pairs')
      && pairs'[p].unsent == s.pairs[p].unsent[1..]
      && pairs'[p].pBusy == s.pairs[p].pBusy && pairs'[p].retryScheduled == s.pairs[p].retryScheduled
      && forall q :: 0 <= q < |pairs'| && q != p ==> pairs'[q].unsent == s.pairs[q].unsent
  {}

  ghost predicate Holds(s: State, events: seq<Timed>, ph: Physics, openP: int, openD: int) {
    forall n {:trigger Asked(n)} :: Asked(n) ==> PhysicsOk(ph) && Inv(s, ph, openP, openD) && EventsOk(s, events)
  }

  lemma Unfold(s: State, events: seq<Timed>, ph: Physics, openP: int, openD: int)
    requires Holds(s, events, ph, openP, openD)
    ensures PhysicsOk(ph) && Inv(s, ph, openP, openD) && EventsOk(s, events)
  {
    assert Asked(0);
  }

  class Sim {
    const ph: Physics
    var now: real
    var pairs: seq<Pair>
    var reqs: seq<Req>
    var events: seq<Timed>
    var enqueued: nat  // history: how many requests were enqueued at a P so far

    ghost function S(): State
      reads this
    {
      State(now, enqueued, pairs, reqs, Summarize(events))
    }

    ghost predicate Ok(openP: int, openD: int)
      reads this
    {
      Holds(S(), events, ph, openP, openD)
    }

    method At(t: real, ev: Event)
      modifies this`events
      ensures events == Push(old(events), Timed(t, ev))
    {
      events := Push(events, Timed(t, ev));
    }

    // ---- P ---------------------------------------------------------------------------------

    /** How many requests from the front of the queue P takes at once. */
    method BatchSize(queue: seq<ReqId>) returns (k: nat)
      requires queue != [] && forall i :: 0 <= i < |queue| ==> queue[i] < |reqs|
      ensures IsBatch(reqs, queue, k, ph.batchTokens)
    {
      var tokens := 0;
      k := 0;
      while k < |queue| && (k == 0 || tokens + reqs[queue[k]].prompt <= ph.batchTokens)
        invariant k <= |queue|
        invariant tokens == Prompts(reqs, queue[..k])
        invariant k <= 1 || tokens <= ph.batchTokens
      {
        PromptsAppend(reqs, queue[..k], queue[k]);
        assert queue[..k + 1] == queue[..k] + [queue[k]];
        tokens := tokens + reqs[queue[k]].prompt;
        k := k + 1;
      }
      if k < |queue| {
        PromptsAppend(reqs, queue[..k], queue[k]);
        assert queue[..k + 1] == queue[..k] + [queue[k]];
      }
    }

    method PStart(p: nat, ghost openD: int) returns (ghost k: nat, ghost t: real)
      requires Ok(p, openD) && p < |pairs|
      requires pairs[p].unsent != [] ==> pairs[p].retryScheduled
      modifies this`pairs, this`events
      ensures Ok(NOBODY, openD) && OnlyP()
      ensures if old(pairs)[p].pBusy || old(pairs)[p].unsent != [] || old(pairs)[p].pQueue == []
        then pairs == old(pairs) && events == old(events)
        else
          && IsBatch(reqs, old(pairs)[p].pQueue, k, ph.batchTokens) && now <= t
          && events == Push(old(events), Timed(t, PDone(p, old(pairs)[p].pQueue[..k])))
          && pairs == old(pairs)[p := old(pairs)[p].(pBusy := true, pQueue := old(pairs)[p].pQueue[k..])]
    {
      ghost var s0, events0 := S(), events;
      if pairs[p].pBusy || pairs[p].unsent != [] || pairs[p].pQueue == [] {
        NothingToStart(s0, events, ph, p, openD);
        k, t := 0, 0.0;
        return;
      }
      QueueKnown(s0, events, ph, p, p, openD);
      var size := BatchSize(pairs[p].pQueue);
      var batch := pairs[p].pQueue[..size];
      pairs := pairs[p := pairs[p].(pQueue := pairs[p].pQueue[size..], pBusy := true)];
      var dur: real :| dur >= 0.0;
      At(now + dur, PDone(p, batch));
      k, t := size, now + dur;
      assert S() == BatchStarted(s0, p, k, Summarize(events));
      StartKeeps(s0, events0, S(), events, ph, p, k, t, openD);
      DecodeKept(events0, Timed(t, PDone(p, batch)));
    }

    /** The D side of every pair, and what D events are pending, stay as they are. */
    twostate predicate OnlyP()
      reads this
    {
      && OnlyPFields(old(pairs), pairs)
      && (forall d: nat {:trigger Decode(d)} :: Sel(events, Decode(d)) == Sel(old(events), Decode(d)))
    }

    /** The receive buffer of the head's D has room for it. */
    predicate CanSend(p: nat)
      reads this
    {
      && p < |pairs| && pairs[p].unsent != [] && pairs[p].unsent[0] < |reqs|
      && reqs[pairs[p].unsent[0]].pair == p && reqs[pairs[p].unsent[0]].dPair < |pairs|
      && reqs[pairs[p].unsent[0]].kv >= 0.0
      && pairs[reqs[pairs[p].unsent[0]].dPair].buffer + reqs[pairs[p].unsent[0]].kv <= ph.kvBuffer
    }

    method SendHead(p: nat, ghost openD: int)
      requires Ok(p, openD) && p < |pairs| && pairs[p].unsent != []
      requires CanSend(p)
      modifies this`pairs, this`events
      ensures Ok(p, openD) && OnlyP()
      ensures pairs[p].unsent == old(pairs)[p].unsent[1..] && pairs[p].pBusy == old(pairs)[p].pBusy
      ensures pairs[p].retryScheduled == old(pairs)[p].retryScheduled
      ensures forall q :: 0 <= q < |pairs| && q != p ==> pairs[q].unsent == old(pairs)[q].unsent
    {
      ghost var s0, events0 := S(), events;
      var r := pairs[p].unsent[0];
      var dest := reqs[r].dPair;
      var start := if now < pairs[p].linkFree then pairs[p].linkFree else now;
      var carry: real :| carry >= 0.0;
      pairs := pairs[p := pairs[p].(unsent := pairs[p].unsent[1..], linkFree := start + carry)];
      pairs := pairs[dest := pairs[dest].(buffer := pairs[dest].buffer + reqs[r].kv)];
      At(start + carry, KvArrived(r, p, dest, reqs[r].kv));
      assert S() == HeadSent(s0, p, start + carry, Summarize(events));
      HeadSentFields(s0, p, start + carry, Summarize(events));
      SendKeeps(s0, events0, S(), events, ph, p, start + carry, openD);
      DecodeKept(events0, Timed(start + carry, KvArrived(r, p, dest, reqs[r].kv)));
    }

    /**
      P sends finished KV in order into the receive buffers; a full buffer at the head blocks it
      (it retries later and starts nothing), else it may start the next batch.
    */
    method Send(p: nat, ghost openD: int)
      requires Ok(p, openD) && p < |pairs|
      modifies this`pairs, this`events
      ensures Ok(NOBODY, openD) && OnlyP()
      ensures pairs[p].unsent == [] || (pairs[p].retryScheduled && Blocked(p))
      ensures forall q :: 0 <= q < |pairs| && q != p ==> pairs[q].unsent == old(pairs)[q].unsent
    {
      while pairs[p].unsent != []
        invariant Ok(p, openD) && OnlyP()
        invariant forall q :: 0 <= q < |pairs| && q != p ==> pairs[q].unsent == old(pairs)[q].unsent
        decreases |pairs[p].unsent|
      {
        HeadKnown(S(), events, ph, p, p, openD);
        var r := pairs[p].unsent[0];
        if pairs[reqs[r].dPair].buffer + reqs[r].kv > ph.kvBuffer {
          break;
        }
        SendHead(p, openD);
      }
      if pairs[p].unsent != [] {
        HeadKnown(S(), events, ph, p, p, openD);
        if !pairs[p].retryScheduled {
          PlanRetry(p, openD);
        } else {
          AlreadyWaiting(S(), events, ph, p, openD);
        }
      } else {
        var k, t := PStart(p, openD);
      }
    }

    predicate Blocked(p: nat)
      reads this
    {
      && p < |pairs| && pairs[p].unsent != [] && pairs[p].unsent[0] < |reqs| && reqs[pairs[p].unsent[0]].dPair < |pairs|
      && pairs[reqs[pairs[p].unsent[0]].dPair].buffer + reqs[pairs[p].unsent[0]].kv > ph.kvBuffer
    }

    method PlanRetry(p: nat, ghost openD: int)
      requires Ok(p, openD) && p < |pairs| && pairs[p].unsent != [] && !pairs[p].retryScheduled
      modifies this`pairs, this`events
      ensures Ok(NOBODY, openD) && OnlyP()
      ensures pairs == old(pairs)[p := old(pairs)[p].(retryScheduled := true)]
    {
      ghost var s0, events0 := S(), events;
      RetryPeriod(s0, events0, ph, p, openD);
      RetryFields(pairs, p);
      pairs := pairs[p := pairs[p].(retryScheduled := true)];
      At(now + ph.sendRetry, SendRetry(p));
      assert S() == RetryPlanned(s0, p, Summarize(events));
      RetryKeeps(s0, events0, S(), events, ph, p, now + ph.sendRetry, openD);
      DecodeKept(events0, Timed(now + ph.sendRetry, SendRetry(p)));
    }

    // ---- D ---------------------------------------------------------------------------------

    /** Sequences are taken in order while D has room; each pulls its KV from the receive buffer. */
    method Pull(ready: seq<ReqId>, running: seq<ReqId>) returns (k: nat, freed: real)
      requires Distinct(ready) && forall i :: 0 <= i < |ready| ==> ready[i] < |reqs|
      modifies this`reqs
      ensures JoinRule(old(reqs), running, ready, k, ph)
      ensures reqs == PullAll(old(reqs), ready[..k]) && freed == Unpulled(old(reqs), ready[..k])
    {
      ghost var reqs0 := reqs;
      var used := NeedOf(reqs, running, ph);
      k, freed := 0, 0.0;
      PullNone(reqs, ready);
      while k < |ready| && Fits(used + Need(reqs, ready[k], ph), ph)
        invariant k <= |ready| && |reqs| == |reqs0|
        invariant reqs == PullAll(reqs0, ready[..k])
        invariant freed == Unpulled(reqs0, ready[..k])
        invariant used == NeedOf(reqs0, running, ph) + NeedOf(reqs0, ready[..k], ph)
        invariant k == 0 || Fits(used, ph)
      {
        var r := ready[k];
        PullStep(reqs0, reqs, ready, k, ph);
        used := used + Need(reqs, r, ph);
        if !reqs[r].pulled {
          freed := freed + reqs[r].kv;
          reqs := reqs[r := reqs[r].(pulled := true)];
        }
        k := k + 1;
      }
      if k < |ready| { PullStep(reqs0, reqs, ready, k, ph); }
    }

    method Join(d: nat) returns (joined: seq<ReqId>)
      requires Ok(NOBODY, d) && d < |pairs|
      modifies this`pairs, this`reqs
      ensures |joined| <= |old(pairs)[d].dReady| && joined == old(pairs)[d].dReady[..|joined|]
      ensures Ok(NOBODY, d) && S() == Joined(old(S()), d, |joined|)
      ensures JoinRule(old(reqs), old(pairs)[d].dRunning, old(pairs)[d].dReady, |joined|, ph)
    {
      ghost var s0 := S();
      ReadyKnown(s0, events, ph, d);
      joined := TakeIn(d);
      JoinKeeps(s0, S(), events, ph, d, |joined|);
    }

    method TakeIn(d: nat) returns (joined: seq<ReqId>)
      requires d < |pairs| && Distinct(pairs[d].dReady)
      requires forall i :: 0 <= i < |pairs[d].dReady| ==> pairs[d].dReady[i] < |reqs|
      modifies this`pairs, this`reqs
      ensures |joined| <= |old(pairs)[d].dReady| && joined == old(pairs)[d].dReady[..|joined|]
      ensures S() == Joined(old(S()), d, |joined|)
      ensures JoinRule(old(reqs), old(pairs)[d].dRunning, old(pairs)[d].dReady, |joined|, ph)
    {
      ghost var s0 := S();
      var ready := pairs[d].dReady;
      var k, freed := Pull(ready, pairs[d].dRunning);
      joined := ready[..k];
      JoinedIs(s0, d, k);
      pairs := pairs[d := pairs[d].(
        dRunning := pairs[d].dRunning + joined, dReady := ready[k..], buffer := pairs[d].buffer - freed)];
    }

    method PreemptLatest(d: nat, joined0: seq<ReqId>) returns (joined: seq<ReqId>)
      requires Ok(NOBODY, d) && d < |pairs| && pairs[d].dRunning != [] && ph.vllm
      requires StartedOrIn(reqs, pairs[d].dRunning, joined0)
      modifies this`pairs
      ensures Ok(NOBODY, d) && pairs == Preempted(old(S()), d).pairs
      ensures StartedOrIn(reqs, pairs[d].dRunning, joined)
    {
      ghost var s0 := S();
      ReadyKnown(s0, events, ph, d);
      RemoveJoined(reqs, pairs[d].dRunning, joined0);
      var n := |pairs[d].dRunning| - 1;
      var r := pairs[d].dRunning[n];
      joined := Remove(joined0, r);
      pairs := pairs[d := pairs[d].(dRunning := pairs[d].dRunning[..n], dReady := [r] + pairs[d].dReady)];
      assert S() == Preempted(s0, d);
      PopKeeps(s0, S(), events, ph, d);
    }

    /** The step appends a token per sequence: the latest ones are preempted until that fits. */
    method Preempt(d: nat, joined0: seq<ReqId>) returns (joined: seq<ReqId>, ghost m: nat)
      requires Ok(NOBODY, d) && d < |pairs| && ph.vllm && StartedOrIn(reqs, pairs[d].dRunning, joined0)
      modifies this`pairs
      ensures Ok(NOBODY, d) && m <= |old(pairs)[d].dRunning|
      ensures pairs == old(pairs)[d := CutBack(old(pairs)[d], m)]
      ensures PreemptRule(reqs, old(pairs)[d].dRunning, m, ph)
      ensures StartedOrIn(reqs, pairs[d].dRunning, joined)
    {
      ghost var running := pairs[d].dRunning;
      joined, m := joined0, |running|;
      CutNothing(pairs, d);
      while pairs[d].dRunning != [] && Held(reqs, pairs[d].dRunning) + |pairs[d].dRunning| > ph.dTokens
        invariant Ok(NOBODY, d) && m <= |running| && pairs == old(pairs)[d := CutBack(old(pairs)[d], m)]
        invariant m == |running| || Held(reqs, running[..m + 1]) + m + 1 > ph.dTokens
        invariant StartedOrIn(reqs, pairs[d].dRunning, joined)
        decreases m
      {
        CutOneMore(S(), old(pairs), d, m);
        joined := PreemptLatest(d, joined);
        m := m - 1;
      }
    }

    /** A P whose next send goes to this D tries it again: its buffer has more room now. */
    method WakeSenders(d: nat)
      requires Ok(NOBODY, d) && d < |pairs|
      modifies this`pairs, this`events
      ensures Ok(NOBODY, d) && OnlyP()
      ensures forall p :: 0 <= p < |pairs| && Waits(p, d) ==> Blocked(p)
    {
      for p := 0 to |pairs|
        invariant Ok(NOBODY, d) && OnlyP()
        invariant forall q :: 0 <= q < p && Waits(q, d) ==> Blocked(q)
      {
        if pairs[p].unsent != [] {
          HeadKnown(S(), events, ph, p, NOBODY, d);
          if reqs[pairs[p].unsent[0]].dPair == d {
            OpenP(S(), events, ph, p, d);
            label before:
            Send(p, d);
            forall q | 0 <= q < p && Waits(q, d) ensures Blocked(q) {
              assert pairs[q].unsent == old@before(pairs)[q].unsent;
              assert old@before(Waits(q, d)) && old@before(Blocked(q));
              assert old@before(pairs)[d].buffer <= pairs[d].buffer;
            }
          }
        }
      }
    }

    /**
      D's line is cut anew: who runs is exactly what the two rules allow. `joined` names all
      that run without a first token.
    */
    method Recut(d: nat) returns (joined: seq<ReqId>, ghost k: nat, ghost m: nat)
      requires Ok(NOBODY, d) && d < |pairs| && AllStarted(reqs, pairs[d].dRunning)
      modifies this`pairs, this`reqs
      ensures Ok(NOBODY, d) && |pairs| == |old(pairs)|
      ensures RecutRule(old(reqs), reqs, old(pairs)[d], pairs[d], k, m, ph)
      ensures StartedOrIn(reqs, pairs[d].dRunning, joined)
    {
      ReadyKnown(S(), events, ph, d);
      joined := Join(d);
      k, m := |joined|, |pairs[d].dRunning|;
      StartedJoined(old(reqs), old(pairs)[d].dRunning, joined);
      assert pairs[d].dRunning[..m] == pairs[d].dRunning && pairs[d].dRunning[m..] + pairs[d].dReady == pairs[d].dReady;
      if ph.vllm {
        joined, m := Preempt(d, joined);
      }
    }

    /** One turn of D: cut its line anew, let senders use the freed buffer, begin the next step. */
    method DIter(d: nat) returns (ghost k: nat, ghost m: nat)
      requires Ok(NOBODY, d) && d < |pairs| && AllStarted(reqs, pairs[d].dRunning)
      modifies this`pairs, this`reqs, this`events
      ensures Ok(NOBODY, NOBODY) && |pairs| == |old(pairs)|
      ensures RecutRule(old(reqs), reqs, old(pairs)[d], pairs[d], k, m, ph)
    {
      ghost var s0 := S();
      ReadyKnown(s0, events, ph, d);
      RetryPeriod(s0, events, ph, NOBODY, d);
      var joined;
      joined, k, m := Recut(d);
      ghost var cut := pairs[d];
      if pairs[d].dRunning == [] {
        HeadBlocked(s0.reqs, reqs, s0.pairs[d], pairs[d], ph, k, m);
        Stop(d);
        return;
      }
      if joined != [] {
        WakeSenders(d);
      }
      BeginStep(d, joined);
    }

    method Stop(d: nat)
      requires Ok(NOBODY, d) && d < |pairs| && pairs[d].dRunning == []
      requires pairs[d].dReady != [] ==> pairs[d].dReady[0] < |reqs| && !FitsEmpty(reqs[pairs[d].dReady[0]], ph)
      modifies this`pairs
      ensures Ok(NOBODY, NOBODY) && pairs == old(pairs)[d := old(pairs)[d].(dLooping := false)]
    {
      ghost var s0 := S();
      pairs := pairs[d := pairs[d].(dLooping := false)];
      assert S() == Stopped(s0, d);
      StopKeeps(s0, S(), events, ph, d);
    }

    method BeginStep(d: nat, joined: seq<ReqId>)
      requires Ok(NOBODY, d) && d < |pairs| && pairs[d].dRunning != []
      requires ph.vllm ==> Held(reqs, pairs[d].dRunning) + |pairs[d].dRunning| <= ph.dTokens
      requires StartedOrIn(reqs, pairs[d].dRunning, joined)
      modifies this`events
      ensures Ok(NOBODY, NOBODY)
    {
      ghost var s0, events0 := S(), events;
      var dur: real :| dur >= 0.0;
      At(now + dur, DEnd(d, joined));
      assert S() == StepStarted(s0, d, Summarize(events));
      BeginKeeps(s0, events0, S(), events, ph, d, joined, now + dur);
    }

    // ---- tokens ------------------------------------------------------------------------------

    method FirstToken(d: nat, r: ReqId)
      requires d < |pairs| && r < |reqs| && reqs[r].pair < |pairs|
      modifies this`pairs, this`reqs
      ensures reqs == old(reqs)[r := old(reqs)[r].(first := Some(now + ph.firstExtra))]
      ensures pairs == Started(old(pairs), old(reqs)[r].pair, d, old(reqs)[r].prompt)
    {
      var p := reqs[r].pair;
      reqs := reqs[r := reqs[r].(first := Some(now + ph.firstExtra))];
      pairs := pairs[p := pairs[p].(inflightTokens := pairs[p].inflightTokens - reqs[r].prompt)];
      pairs := pairs[d := pairs[d].(decoding := pairs[d].decoding + 1)];
    }

    method LastToken(d: nat, r: ReqId, ghost i: nat)
      requires d < |pairs| && i < |pairs[d].dRunning| && pairs[d].dRunning[i] == r && Distinct(pairs[d].dRunning)
      requires r < |reqs| && reqs[r].first.Some?
      modifies this`pairs, this`reqs
      ensures reqs == old(reqs)[r := old(reqs)[r].(done := Some(Later(now, old(reqs)[r].first.value)))]
      ensures pairs == Served(old(pairs), d, i)
    {
      RemoveAt(pairs[d].dRunning, i);
      pairs := pairs[d := pairs[d].(dRunning := Remove(pairs[d].dRunning, r), decoding := pairs[d].decoding - 1)];
      reqs := reqs[r := reqs[r].(done := Some(Later(now, reqs[r].first.value)))];
    }

    /** One running sequence gets its token. */
    method EmitOne(d: nat, r: ReqId, joined: seq<ReqId>, ghost i: nat)
      requires Ok(NOBODY, d) && d < |pairs| && i < |pairs[d].dRunning| && pairs[d].dRunning[i] == r
      requires r in joined || (r < |reqs| && reqs[r].first.Some?)
      requires AllStarted(reqs, pairs[d].dRunning[..i])
      modifies this`pairs, this`reqs
      ensures Ok(NOBODY, d) && Emits(old(S()), d, i) && S() == TokenOut(old(S()), ph, d, i)
      ensures Onward(old(reqs), reqs)
    {
      ghost var s0 := S();
      EmitKnown(s0, events, ph, d, i);
      if r in joined && reqs[r].first.None? {
        FirstToken(d, r);
      }
      reqs := reqs[r := reqs[r].(emitted := reqs[r].emitted + 1)];
      if reqs[r].emitted >= reqs[r].output {
        LastToken(d, r, i);
      }
      assert reqs == s0.reqs[r := Emit(s0.reqs[r], now, ph.firstExtra)];
      EmitKeeps(s0, S(), events, ph, d, i);
      TokenOnward(s0, ph, d, i);
    }

    method EmitNext(d: nat, joined: seq<ReqId>, running: seq<ReqId>, n: nat, ghost reqs0: seq<Req>)
      requires Ok(NOBODY, d) && d < |pairs| && n < |running| && Distinct(running)
      requires StartedOrIn(reqs0, running, joined)
      requires EmitState(reqs0, reqs, pairs[d].dRunning, running, n, now, ph.firstExtra)
      modifies this`pairs, this`reqs
      ensures Ok(NOBODY, d) && |pairs| == |old(pairs)|
      ensures EmitState(reqs0, reqs, pairs[d].dRunning, running, n + 1, now, ph.firstExtra)
      ensures pairs[d].dReady == old(pairs)[d].dReady
    {
      ghost var kept := Going(reqs0, running[..n], now, ph.firstExtra);
      NextToEmit(reqs0, reqs, running, n, joined, kept, pairs[d].dRunning, now, ph.firstExtra);
      ghost var s0 := S();
      EmitOne(d, running[n], joined, |kept|);
      TokenCut(s0, ph, d, |kept|);
      KeepEmitted(
        reqs0, s0.reqs, reqs, s0.pairs[d].dRunning, pairs[d].dRunning, kept, running, n, now, ph.firstExtra);
      OnwardOn(reqs0, s0.reqs, reqs);
    }

    /** Every running sequence gets a token, in order; the complete ones leave. */
    method EmitAll(d: nat, joined: seq<ReqId>)
      requires Ok(NOBODY, d) && d < |pairs| && StartedOrIn(reqs, pairs[d].dRunning, joined)
      modifies this`pairs, this`reqs
      ensures Ok(NOBODY, d) && |pairs| == |old(pairs)|
      ensures AllStarted(reqs, pairs[d].dRunning)
      ensures Emitted(old(reqs), reqs, old(pairs)[d].dRunning, now, ph.firstExtra)
      ensures pairs[d].dRunning == Going(old(reqs), old(pairs)[d].dRunning, now, ph.firstExtra)
      ensures pairs[d].dReady == old(pairs)[d].dReady && Onward(old(reqs), reqs)
    {
      ReadyKnown(S(), events, ph, d);
      var running := pairs[d].dRunning;
      EmitNone(reqs, running, now, ph.firstExtra);
      for n := 0 to |running|
        invariant Ok(NOBODY, d) && |pairs| == |old(pairs)|
        invariant pairs[d].dReady == old(pairs)[d].dReady
        invariant EmitState(old(reqs), reqs, pairs[d].dRunning, running, n, now, ph.firstExtra)
      {
        EmitNext(d, joined, running, n, old(reqs));
      }
      EmitDone(old(reqs), reqs, pairs[d].dRunning, running, now, ph.firstExtra);
    }

    // ---- events ------------------------------------------------------------------------------

    method PopEvent()
      requires events != []
      modifies this`now, this`events
      ensures now == old(events)[0].t && events == old(events)[1..]
    {
      now, events := events[0].t, events[1..];
    }

    method OnPEnqueue(r: ReqId)
      requires Ok(NOBODY, NOBODY) && events != [] && events[0].ev == PEnqueue(r)
      modifies this
      ensures Ok(NOBODY, NOBODY) && now == old(events)[0].t
      ensures r < |old(reqs)| && reqs == old(reqs)[r := old(reqs)[r].(order := Some(old(enqueued)))]
      ensures Onward(old(reqs), reqs)
    {
      ghost var s0, events0 := S(), events;
      ComingKnown(s0, events0, ph, r);
      PopEvent();
      var p := reqs[r].pair;
      reqs := reqs[r := reqs[r].(order := Some(enqueued))];
      enqueued := enqueued + 1;
      pairs := pairs[p := pairs[p].(pQueue := pairs[p].pQueue + [r])];
      assert S() == Enqueued(s0, now, r, Summarize(events));
      EnqueueKeeps(s0, events0, S(), ph, r);
      var k, t := PStart(p, NOBODY);
    }

    method Return(p: nat, batch: seq<ReqId>)
      requires p < |pairs| && forall i :: 0 <= i < |batch| ==> batch[i] < |reqs|
      modifies this`pairs
      ensures pairs == old(pairs)[p := old(pairs)[p].(
        pBusy := false, unsent := old(pairs)[p].unsent + batch,
        atP := old(pairs)[p].atP - Ids(batch),
        inflightTokens := old(pairs)[p].inflightTokens + Prompts(reqs, batch))]
    {
      var atP, inflight := pairs[p].atP, pairs[p].inflightTokens;
      IdsGrow([], 0);
      for i := 0 to |batch|
        invariant pairs == old(pairs)
        invariant atP == pairs[p].atP - Ids(batch[..i])
        invariant inflight == pairs[p].inflightTokens + Prompts(reqs, batch[..i])
      {
        assert batch[..i + 1] == batch[..i] + [batch[i]];
        PromptsAppend(reqs, batch[..i], batch[i]);
        IdsGrow(batch[..i], batch[i]);
        atP := atP - {batch[i]};
        inflight := inflight + reqs[batch[i]].prompt;
      }
      assert batch[..|batch|] == batch;
      pairs := pairs[p := pairs[p].(
        pBusy := false, unsent := pairs[p].unsent + batch, atP := atP, inflightTokens := inflight)];
    }

    method OnPDone(p: nat, batch: seq<ReqId>)
      requires Ok(NOBODY, NOBODY) && events != [] && events[0].ev == PDone(p, batch)
      modifies this
      ensures Ok(NOBODY, NOBODY) && now == old(events)[0].t && reqs == old(reqs)
      ensures p < |pairs| && (pairs[p].unsent == [] || (pairs[p].retryScheduled && Blocked(p)))
    {
      ghost var s0, events0 := S(), events;
      BatchKnown(s0, events0, ph, p, batch);
      PopEvent();
      Return(p, batch);
      assert S() == BatchDone(s0, now, p, batch, Summarize(events));
      ReturnKeeps(s0, events0, S(), ph, p, batch);
      Send(p, NOBODY);
    }

    method OnSendRetry(p: nat)
      requires Ok(NOBODY, NOBODY) && events != [] && events[0].ev == SendRetry(p)
      modifies this
      ensures Ok(NOBODY, NOBODY) && now == old(events)[0].t && reqs == old(reqs)
      ensures p < |pairs| && (pairs[p].unsent == [] || (pairs[p].retryScheduled && Blocked(p)))
    {
      ghost var s0, events0 := S(), events;
      RetryKnown(s0, events0, ph, p);
      PopEvent();
      pairs := pairs[p := pairs[p].(retryScheduled := false)];
      assert S() == RetryFired(s0, now, p, Summarize(events));
      FireKeeps(s0, events0, S(), ph, p);
      Send(p, NOBODY);
    }

    method OnKvArrived(r: ReqId, ghost p: nat, d: nat, ghost kv: real)
      requires Ok(NOBODY, NOBODY) && events != [] && events[0].ev == KvArrived(r, p, d, kv)
      modifies this
      ensures Ok(NOBODY, NOBODY) && now == old(events)[0].t && |pairs| == |old(pairs)| && d < |pairs|
      ensures Onward(old(reqs), reqs)
      ensures if old(pairs)[d].dLooping
        then reqs == old(reqs) && pairs[d] == old(pairs)[d].(dReady := old(pairs)[d].dReady + [r])
        else exists k, m :: RecutRule(
          old(reqs), reqs, old(pairs)[d].(dReady := old(pairs)[d].dReady + [r], dLooping := true), pairs[d], k, m, ph)
    {
      ghost var s0, events0 := S(), events;
      ArrivalKnown(s0, events0, ph, r, d);
      PopEvent();
      var looping := pairs[d].dLooping;
      pairs := pairs[d := pairs[d].(dReady := pairs[d].dReady + [r])];
      if !looping {
        pairs := pairs[d := pairs[d].(dLooping := true)];
      }
      assert S() == Arrived(s0, now, r, d, Summarize(events));
      ArrivalKeeps(s0, events0, S(), ph, r, d);
      if !looping {
        ghost var k, m := DIter(d);
        PullOnward(old(reqs), (old(pairs)[d].dReady + [r])[..k]);
      }
    }

    method OnDEnd(d: nat, joined: seq<ReqId>) returns (ghost step: Step)
      requires Ok(NOBODY, NOBODY) && events != [] && events[0].ev == DEnd(d, joined)
      modifies this
      ensures Ok(NOBODY, NOBODY) && now == old(events)[0].t && |pairs| == |old(pairs)| && d < |pairs|
      ensures StepRule(old(reqs), reqs, old(pairs)[d], pairs[d], step, now, ph)
      ensures Onward(old(reqs), reqs)
    {
      ghost var s0, events0 := S(), events;
      StepKnown(s0, events0, ph, d);
      PopEvent();
      assert S() == StepEnded(s0, now, Summarize(events));
      EndKeeps(s0, events0, S(), ph, d, joined);
      EmitAll(d, joined);
      ghost var after, pr := reqs, pairs[d];
      ghost var k, m := DIter(d);
      PullOnward(after, pr.dReady[..k]);
      OnwardOn(old(reqs), after, reqs);
      step := Step(after, pr, k, m);
    }

    /** One turn of the event loop: time only moves forward. */
    method Next()
      requires Ok(NOBODY, NOBODY) && events != []
      modifies this
      ensures Ok(NOBODY, NOBODY) && now == old(events)[0].t && Onward(old(reqs), reqs)
    {
      match events[0].ev
      case PEnqueue(r) => OnPEnqueue(r);
      case PDone(p, batch) => OnPDone(p, batch);
      case SendRetry(p) => OnSendRetry(p);
      case KvArrived(r, p, d, kv) => OnKvArrived(r, p, d, kv);
      case DEnd(d, joined) => var step := OnDEnd(d, joined);
    }

    // ---- runs --------------------------------------------------------------------------------

    constructor (ph: Physics, n: nat)
      requires PhysicsOk(ph)
      ensures this.ph == ph && Ok(NOBODY, NOBODY) && |pairs| == n && reqs == [] && events == []
    {
      this.ph := ph;
      now, reqs, events, enqueued := 0.0, [], [], 0;
      pairs := seq(n, i => IDLE);
      new;
      IdleHolds(S(), ph);
    }

    /** A new request, sent at time `t` to P `p` and to be decoded by D `d`, is on its way to P. */
    method Dispatch(t: real, prompt: nat, output: nat, kv: real, p: nat, d: nat) returns (r: ReqId)
      requires Ok(NOBODY, NOBODY) && p < |pairs| && d < |pairs| && kv >= 0.0
      requires now <= t && (events != [] ==> t <= events[0].t)
      modifies this
      ensures Ok(NOBODY, NOBODY) && now == t
      ensures r == |old(reqs)| && reqs == old(reqs) + [NewReq(prompt, output, kv, p, d)]
      ensures pairs == old(pairs)[p := old(pairs)[p].(atP := old(pairs)[p].atP[r := prompt])]
      ensures exists at: real :: t <= at && events == Push(old(events), Timed(at, PEnqueue(r)))
    {
      ghost var s0, events0 := S(), events;
      r, now := |reqs|, t;
      reqs := reqs + [NewReq(prompt, output, kv, p, d)];
      pairs := pairs[p := pairs[p].(atP := pairs[p].atP[r := prompt])];
      var delay: real :| delay >= 0.0;
      At(now + delay, PEnqueue(r));
      assert S() == Dispatched(s0, t, NewReq(prompt, output, kv, p, d), Summarize(events));
      DispatchKeeps(s0, events0, S(), events, ph, t, NewReq(prompt, output, kv, p, d), t + delay);
    }

    method Obey(c: Command)
      requires Ok(NOBODY, NOBODY)
      modifies this
      ensures Ok(NOBODY, NOBODY) && old(now) <= now && Onward(old(reqs), reqs)
    {
      NextLater(S(), events, ph);
      match c
      case Arrival(wait, prompt, output, kv, p, d) =>
        if p < |pairs| && d < |pairs| && kv >= 0.0 && wait >= 0.0 {
          var t := if events != [] && events[0].t < now + wait then events[0].t else now + wait;
          var r := Dispatch(t, prompt, output, kv, p, d);
        }
      case Turn =>
        if events != [] { Next(); }
    }

    predicate Waits(p: nat, d: nat)
      reads this
    {
      p < |pairs| && pairs[p].unsent != [] && pairs[p].unsent[0] < |reqs| && reqs[pairs[p].unsent[0]].dPair == d
    }
  }

  lemma IdsGrow(q: seq<ReqId>, r: ReqId)
    ensures Ids(q + [r]) == Ids(q) + {r} && Ids([]) == {}
  {}

  // ---- runs ------------------------------------------------------------------------------------

  /** What happens next in a run: a new request after some time, or the earliest pending event. */
  datatype Command = Arrival(wait: real, prompt: nat, output: nat, kv: real, p: nat, d: nat) | Turn

  const IDLE := Pair([], false, [], 0.0, false, 0.0, [], [], false, map[], 0, 0)

  /** What is known of a request is never taken back: its order, its first token, its end. */
  ghost predicate RunsOn(a: Req, b: Req) {
    && b.prompt == a.prompt && b.output == a.output && b.kv == a.kv && b.pair == a.pair && b.dPair == a.dPair
    && (a.order.Some? ==> b.order == a.order)
    && (a.first.Some? ==> b.first == a.first)
    && (a.done.Some? ==> b.done == a.done && b.emitted == a.emitted)
    && a.emitted <= b.emitted && (a.pulled ==> b.pulled)
  }

  ghost predicate Onward(reqs: seq<Req>, reqs': seq<Req>) {
    |reqs| <= |reqs'| && forall r :: 0 <= r < |reqs| ==> RunsOn(reqs[r], reqs'[r])
  }

  lemma OnwardOn(a: seq<Req>, b: seq<Req>, c: seq<Req>)
    requires Onward(a, b) && Onward(b, c)
    ensures Onward(a, c)
  {
    forall r | 0 <= r < |a| ensures RunsOn(a[r], c[r]) { assert RunsOn(a[r], b[r]) && RunsOn(b[r], c[r]); }
  }

  lemma PullOnward(reqs: seq<Req>, q: seq<ReqId>)
    ensures Onward(reqs, PullAll(reqs, q))
  {}

  lemma TokenOnward(s: State, ph: Physics, d: nat, i: nat)
    requires Emits(s, d, i)
    ensures Onward(s.reqs, TokenOut(s, ph, d, i).reqs)
  {}

  lemma IdleHolds(s: State, ph: Physics)
    requires PhysicsOk(ph) && s.reqs == [] && s.heap == Summarize([]) && s.now == 0.0
    requires forall p :: 0 <= p < |s.pairs| ==> s.pairs[p] == IDLE
    ensures Holds(s, [], ph, NOBODY, NOBODY)
  {
    IdleLines(s);
    IdleBooks(s, ph);
    IdleTokens(s, ph);
  }

  ghost predicate Idle(s: State) {
    s.reqs == [] && s.heap == Summarize([]) && forall p :: 0 <= p < |s.pairs| ==> s.pairs[p] == IDLE
  }

  lemma IdleLines(s: State)
    requires Idle(s)
    ensures LinesOk(Tags(s.reqs), PSides(s), DSides(s))
    ensures CoverOk(Tags(s.reqs), Live(s.reqs), PSides(s), DSides(s), s.heap.ids(Enqueue), s.enqueued)
  {
    forall p | 0 <= p < |s.pairs| ensures PSide(s, p) == [] && DSide(s, p) == [] {}
  }

  lemma IdleBooks(s: State, ph: Physics)
    requires Idle(s) && PhysicsOk(ph)
    ensures FlagsOk(s, NOBODY) && BooksOk(s) && AtPOk(s) && BuffersOk(s, ph) && CapOk(s, ph, NOBODY)
  {}

  lemma IdleTokens(s: State, ph: Physics)
    requires Idle(s) && PhysicsOk(ph)
    ensures TokensOk(s, ph) && JoinedOk(s, NOBODY) && WorkOk(s, ph, NOBODY, NOBODY)
  {}

  lemma NextLater(s: State, events: seq<Timed>, ph: Physics)
    requires Holds(s, events, ph, NOBODY, NOBODY)
    ensures events != [] ==> s.now <= events[0].t
  {
    Unfold(s, events, ph, NOBODY, NOBODY);
    if events != [] { assert events[0] in events && EventOk(s, events[0]); }
  }

  lemma DispatchKeeps(
    s: State, events: seq<Timed>, s': State, events': seq<Timed>, ph: Physics, now: real, x: Req, t: real)
    requires Holds(s, events, ph, NOBODY, NOBODY)
    requires x == NewReq(x.prompt, x.output, x.kv, x.pair, x.dPair)
    requires x.pair < |s.pairs| && x.dPair < |s.pairs| && x.kv >= 0.0
    requires s.now <= now <= t && (events != [] ==> now <= events[0].t)
    requires events' == Push(events, Timed(t, PEnqueue(|s.reqs|)))
    requires s' == Dispatched(s, now, x, Summarize(events'))
    ensures Holds(s', events', ph, NOBODY, NOBODY)
  {
    var e := Timed(t, PEnqueue(|s.reqs|));
    DispatchInv(s, events, ph, now, x, e);
    assert EventsOk(s', events') by {
      Unfold(s, events, ph, NOBODY, NOBODY);
      DispatchEvents(s, events, s', now, e);
    }
  }

  lemma DispatchInv(s: State, events: seq<Timed>, ph: Physics, now: real, x: Req, e: Timed)
    requires Holds(s, events, ph, NOBODY, NOBODY) && s.now <= now && e.ev == PEnqueue(|s.reqs|)
    requires x == NewReq(x.prompt, x.output, x.kv, x.pair, x.dPair)
    requires x.pair < |s.pairs| && x.dPair < |s.pairs| && x.kv >= 0.0
    ensures PhysicsOk(ph) && Boundary(Dispatched(s, now, x, Summarize(Push(events, e))), ph)
  {
    Unfold(s, events, ph, NOBODY, NOBODY);
    PushAddsAnywhere(events, e);
    DispatchedKeeps(s, ph, now, x, Summarize(Push(events, e)));
  }

  lemma DispatchEvents(s: State, events: seq<Timed>, s': State, now: real, e: Timed)
    requires EventsOk(s, events) && SameStatics(s, s') && EventOk(s', e)
    requires events != [] ==> now <= events[0].t
    requires s'.now == now && s'.heap == Summarize(Push(events, e))
    ensures EventsOk(s', Push(events, e))
  {
    PushSorted(events, e);
    PushMembers(events, e);
    forall x | x in Push(events, e) ensures s'.now <= x.t && (x in events || EventOk(s', x)) {
      if x in events {
        var i :| 0 <= i < |events| && events[i] == x;
        if i > 0 { assert events[0].t <= events[i].t; }
      }
    }
    EventsStay(s, s', events, Push(events, e));
  }

  lemma RunPromises(s: State, events: seq<Timed>, ph: Physics)
    requires Holds(s, events, ph, NOBODY, NOBODY)
    ensures Promises(s, ph)
  {
    Unfold(s, events, ph, NOBODY, NOBODY);
    PromisesKept(s, events, ph);
  }

  /** Any number of idle pairs, then any script: the promises hold after every command. */
  method Run(ph: Physics, n: nat, script: seq<Command>) returns (sim: Sim)
    requires PhysicsOk(ph)
    ensures fresh(sim) && Promises(sim.S(), ph)
  {
    sim := new Sim(ph, n);
    RunPromises(sim.S(), sim.events, ph);
    for i := 0 to |script|
      invariant fresh(sim) && sim.ph == ph && sim.Ok(NOBODY, NOBODY) && Promises(sim.S(), ph)
    {
      sim.Obey(script[i]);
      RunPromises(sim.S(), sim.events, ph);
    }
  }

  function Need(reqs: seq<Req>, x: ReqId, ph: Physics): nat {
    if ph.vllm then Context(reqs, x) else Claim(reqs, x)
  }

  function NeedOf(reqs: seq<Req>, q: seq<ReqId>, ph: Physics): nat {
    if ph.vllm then Held(reqs, q) else Reserved(reqs, q)
  }

  /** `vllm` admission keeps a 1 % watermark free. */
  predicate Fits(n: nat, ph: Physics) {
    if ph.vllm then 100 * n <= 99 * ph.dTokens else n <= ph.dTokens
  }

  /** The first `k` waiting sequences fit beside the running ones and the next one does not. */
  ghost predicate JoinRule(reqs: seq<Req>, running: seq<ReqId>, ready: seq<ReqId>, k: nat, ph: Physics) {
    && k <= |ready|
    && (k == 0 || Fits(NeedOf(reqs, running, ph) + NeedOf(reqs, ready[..k], ph), ph))
    && (k == |ready| || !Fits(NeedOf(reqs, running, ph) + NeedOf(reqs, ready[..k + 1], ph), ph))
  }

  lemma TakeOne(reqs: seq<Req>, ready: seq<ReqId>, k: nat, ph: Physics)
    requires k < |ready|
    ensures NeedOf(reqs, ready[..k + 1], ph) == NeedOf(reqs, ready[..k], ph) + Need(reqs, ready[k], ph)
    ensures Unpulled(reqs, ready[..k + 1]) == Unpulled(reqs, ready[..k]) + BufferKv(reqs, ready[k])
  {
    assert ready[..k + 1] == ready[..k] + [ready[k]];
    SplitSums(reqs, ready[..k], [ready[k]]);
  }

  lemma PullNone(reqs: seq<Req>, ready: seq<ReqId>)
    ensures PullAll(reqs, ready[..0]) == reqs
  {}

  lemma PullOne(reqs: seq<Req>, ready: seq<ReqId>, k: nat, ph: Physics)
    requires k < |ready| && ready[k] < |reqs| && Distinct(ready)
    ensures PullAll(reqs, ready[..k])[ready[k]] == reqs[ready[k]]
    ensures PullAll(reqs, ready[..k + 1]) == PullAll(reqs, ready[..k])[ready[k] := reqs[ready[k]].(pulled := true)]
    ensures Need(PullAll(reqs, ready[..k]), ready[k], ph) == Need(reqs, ready[k], ph)
  {
    var r := ready[k];
    assert r !in ready[..k] by {
      forall i | 0 <= i < k ensures ready[..k][i] != r { assert ready[i] != ready[k]; }
    }
    assert ready[..k + 1] == ready[..k] + [r];
    forall i: ReqId ensures i in ready[..k + 1] <==> i in ready[..k] || i == r {
      assert i in ready[..k] + [r] <==> i in ready[..k] || i in [r];
    }
  }

  /** One sequence more is pulled: what it needs, what it frees, and what it changes. */
  lemma PullStep(reqs0: seq<Req>, reqs: seq<Req>, ready: seq<ReqId>, k: nat, ph: Physics)
    requires k < |ready| && ready[k] < |reqs0| && Distinct(ready) && reqs == PullAll(reqs0, ready[..k])
    ensures |reqs| == |reqs0| && ready[k] < |reqs|
    ensures NeedOf(reqs0, ready[..k + 1], ph) == NeedOf(reqs0, ready[..k], ph) + Need(reqs, ready[k], ph)
    ensures var r := reqs[ready[k]];
      && Unpulled(reqs0, ready[..k + 1]) == Unpulled(reqs0, ready[..k]) + (if r.pulled then 0.0 else r.kv)
      && PullAll(reqs0, ready[..k + 1]) == if r.pulled then reqs else reqs[ready[k] := r.(pulled := true)]
  {
    TakeOne(reqs0, ready, k, ph);
    PullOne(reqs0, ready, k, ph);
  }

  lemma ReadyKnown(s: State, events: seq<Timed>, ph: Physics, d: nat)
    requires Holds(s, events, ph, NOBODY, d) && d < |s.pairs|
    ensures Distinct(s.pairs[d].dReady) && Distinct(s.pairs[d].dRunning)
    ensures forall i :: 0 <= i < |s.pairs[d].dReady| ==> s.pairs[d].dReady[i] < |s.reqs|
    ensures forall i :: 0 <= i < |s.pairs[d].dRunning| ==> s.pairs[d].dRunning[i] < |s.reqs|
  {
    assert LinesOk(Tags(s.reqs), PSides(s), DSides(s)) by { Unfold(s, events, ph, NOBODY, d); }
    LinesApart(s, d);
    LineParts(|s.reqs|, s.pairs[d].dRunning, s.pairs[d].dReady);
  }

  lemma LineParts(n: nat, a: seq<ReqId>, b: seq<ReqId>)
    requires Distinct(a + b) && forall x :: x in a + b ==> x < n
    ensures Distinct(a) && Distinct(b)
    ensures forall i :: 0 <= i < |a| ==> a[i] < n
    ensures forall i :: 0 <= i < |b| ==> b[i] < n
  {
    var line := a + b;
    forall i | 0 <= i < |a| ensures a[i] < n { assert line[i] == a[i] && line[i] in line; }
    forall i | 0 <= i < |b| ensures b[i] < n { assert line[|a| + i] == b[i] && line[|a| + i] in line; }
    forall i, j | 0 <= i < j < |a| ensures a[i] != a[j] { assert line[i] != line[j]; }
    forall i, j | 0 <= i < j < |b| ensures b[i] != b[j] { assert line[|a| + i] != line[|a| + j]; }
  }

  lemma JoinKeeps(s: State, s': State, events: seq<Timed>, ph: Physics, d: nat, k: nat)
    requires Holds(s, events, ph, NOBODY, d) && d < |s.pairs| && k <= |s.pairs[d].dReady|
    requires JoinRule(s.reqs, s.pairs[d].dRunning, s.pairs[d].dReady, k, ph) && s' == Joined(s, d, k)
    ensures Holds(s', events, ph, NOBODY, d)
  {
    JoinInv(s, events, ph, d, k);
    JoinEvents(s, events, ph, d, k);
  }

  lemma JoinedIs(s: State, d: nat, k: nat)
    requires d < |s.pairs| && k <= |s.pairs[d].dReady|
    ensures var s', pr, q := Joined(s, d, k), s.pairs[d], s.pairs[d].dReady[..k];
      && s'.now == s.now && s'.enqueued == s.enqueued && s'.heap == s.heap && s'.reqs == PullAll(s.reqs, q)
      && s'.pairs == s.pairs[d := pr.(
        dRunning := pr.dRunning + q, dReady := pr.dReady[k..], buffer := pr.buffer - Unpulled(s.reqs, q))]
  {}

  lemma JoinInv(s: State, events: seq<Timed>, ph: Physics, d: nat, k: nat)
    requires Holds(s, events, ph, NOBODY, d) && d < |s.pairs| && k <= |s.pairs[d].dReady|
    requires JoinRule(s.reqs, s.pairs[d].dRunning, s.pairs[d].dReady, k, ph)
    ensures PhysicsOk(ph) && Inv(Joined(s, d, k), ph, NOBODY, d)
  {
    Unfold(s, events, ph, NOBODY, d);
    JoinedKeeps(s, ph, d, k);
  }

  lemma JoinEvents(s: State, events: seq<Timed>, ph: Physics, d: nat, k: nat)
    requires Holds(s, events, ph, NOBODY, d) && d < |s.pairs| && k <= |s.pairs[d].dReady|
    ensures EventsOk(Joined(s, d, k), events)
  {
    Unfold(s, events, ph, NOBODY, d);
    JoinedViews(s, d, k);
    forall e | e in events ensures s.now <= e.t { assert EventOk(s, e); }
    EventsStay(s, Joined(s, d, k), events, events);
  }

  lemma DecodeKept(events: seq<Timed>, e: Timed)
    requires !e.ev.DEnd?
    ensures forall d: nat {:trigger Decode(d)} :: Sel(Push(events, e), Decode(d)) == Sel(events, Decode(d))
  {
    PushFrame(events, e);
  }

  lemma RetryPeriod(s: State, events: seq<Timed>, ph: Physics, openP: int, openD: int)
    requires Holds(s, events, ph, openP, openD)
    ensures PhysicsOk(ph)
  {
    Unfold(s, events, ph, openP, openD);
  }

  lemma PromptsAppend(reqs: seq<Req>, q: seq<ReqId>, r: ReqId)
    requires r < |reqs|
    ensures Prompts(reqs, q + [r]) == Prompts(reqs, q) + reqs[r].prompt
  {
    assert (q + [r])[..|q|] == q;
  }

  lemma NothingToStart(s: State, events: seq<Timed>, ph: Physics, p: nat, openD: int)
    requires Holds(s, events, ph, p, openD) && p < |s.pairs|
    requires s.pairs[p].unsent != [] ==> s.pairs[p].retryScheduled
    requires s.pairs[p].pBusy || s.pairs[p].unsent != [] || s.pairs[p].pQueue == []
    ensures Holds(s, events, ph, NOBODY, openD)
  {
    Unfold(s, events, ph, p, openD);
    assert PWork(s, p);
  }

  lemma QueueKnown(s: State, events: seq<Timed>, ph: Physics, p: nat, openP: int, openD: int)
    requires Holds(s, events, ph, openP, openD) && p < |s.pairs|
    ensures forall i :: 0 <= i < |s.pairs[p].pQueue| ==> s.pairs[p].pQueue[i] < |s.reqs|
  {
    Unfold(s, events, ph, openP, openD);
    assert PairAtP(s, AtPs(s), p);
    forall i | 0 <= i < |s.pairs[p].pQueue| ensures s.pairs[p].pQueue[i] < |s.reqs| {
      assert s.pairs[p].pQueue[i] in s.pairs[p].pQueue;
    }
  }

  /** The event list after a push, for any step that leaves requests and times alone. */
  lemma PushStays(s: State, s': State, events: seq<Timed>, e: Timed)
    requires EventsOk(s, events) && SameStatics(s, s') && s'.now == s.now && EventOk(s', e)
    requires s'.heap == Summarize(Push(events, e))
    ensures EventsOk(s', Push(events, e))
  {
    PushSorted(events, e);
    PushMembers(events, e);
    forall x | x in Push(events, e) ensures s'.now <= x.t && (x in events || EventOk(s', x)) {
      if x in events { assert EventOk(s, x); }
    }
    EventsStay(s, s', events, Push(events, e));
  }

  lemma NoPending(s: State, events: seq<Timed>, k: Key)
    requires s.heap == Summarize(events) && s.heap.count(k) == 0
    ensures Count(events, k) == 0 && s.heap.ids(k) == []
  {
    assert Count(events, k) == 0;
    CountZero(events, k);
  }

  lemma StartInv(s: State, events: seq<Timed>, ph: Physics, p: nat, k: nat, e: Timed, openD: int)
    requires Holds(s, events, ph, p, openD)
    requires p < |s.pairs| && 0 < k <= |s.pairs[p].pQueue|
    requires !s.pairs[p].pBusy && s.pairs[p].unsent == []
    requires e.ev == PDone(p, s.pairs[p].pQueue[..k])
    ensures Inv(BatchStarted(s, p, k, Summarize(Push(events, e))), ph, NOBODY, openD)
  {
    Unfold(s, events, ph, p, openD);
    NoPending(s, events, Batch(p));
    PushAdds(events, e);
    BatchStartedKeeps(s, ph, p, k, Summarize(Push(events, e)), openD);
  }

  lemma StartKeeps(
    s: State, events: seq<Timed>, s': State, events': seq<Timed>, ph: Physics, p: nat, k: nat, t: real, openD: int)
    requires Holds(s, events, ph, p, openD)
    requires p < |s.pairs| && 0 < k <= |s.pairs[p].pQueue| && s.now <= t
    requires !s.pairs[p].pBusy && s.pairs[p].unsent == []
    requires events' == Push(events, Timed(t, PDone(p, s.pairs[p].pQueue[..k])))
    requires s' == BatchStarted(s, p, k, Summarize(events'))
    ensures Holds(s', events', ph, NOBODY, openD)
  {
    var e := Timed(t, PDone(p, s.pairs[p].pQueue[..k]));
    StartInv(s, events, ph, p, k, e, openD);
    assert PhysicsOk(ph) && EventsOk(s', events') by {
      Unfold(s, events, ph, p, openD);
      PushStays(s, s', events, e);
    }
  }

  lemma HeadKnown(s: State, events: seq<Timed>, ph: Physics, p: nat, openP: int, openD: int)
    requires Holds(s, events, ph, openP, openD) && p < |s.pairs| && s.pairs[p].unsent != []
    ensures var x := s.pairs[p].unsent[0];
      x < |s.reqs| && s.reqs[x].pair == p && s.reqs[x].dPair < |s.pairs| && s.reqs[x].kv >= 0.0
  {
    Unfold(s, events, ph, openP, openD);
    var x := s.pairs[p].unsent[0];
    assert PSides(s)[p] == PSide(s, p) && x in s.pairs[p].unsent && x in PSide(s, p);
    assert OfP(Tags(s.reqs), PSide(s, p), p);
  }

  lemma SendInv(s: State, events: seq<Timed>, ph: Physics, p: nat, e: Timed, openD: int)
    requires Holds(s, events, ph, p, openD)
    requires p < |s.pairs| && s.pairs[p].unsent != [] && s.pairs[p].unsent[0] < |s.reqs|
    requires var x := s.pairs[p].unsent[0];
      && s.reqs[x].dPair < |s.pairs| && s.pairs[s.reqs[x].dPair].buffer + s.reqs[x].kv <= ph.kvBuffer
      && e.ev == KvArrived(x, p, s.reqs[x].dPair, s.reqs[x].kv)
    requires s.pairs[p].linkFree <= e.t
    ensures Inv(HeadSent(s, p, e.t, Summarize(Push(events, e))), ph, p, openD)
  {
    Unfold(s, events, ph, p, openD);
    forall i | 0 <= i < |events| && KeyOf(events[i].ev) == Link(p) ensures events[i].t <= e.t {
      assert EventOk(s, events[i]);
    }
    PushAdds(events, e);
    HeadSentKeeps(s, ph, p, e.t, Summarize(Push(events, e)), openD);
  }

  lemma SendKeeps(
    s: State, events: seq<Timed>, s': State, events': seq<Timed>, ph: Physics, p: nat, t: real, openD: int)
    requires Holds(s, events, ph, p, openD)
    requires p < |s.pairs| && s.pairs[p].unsent != [] && s.pairs[p].unsent[0] < |s.reqs|
    requires var x := s.pairs[p].unsent[0];
      && s.reqs[x].pair == p && s.reqs[x].dPair < |s.pairs|
      && s.pairs[s.reqs[x].dPair].buffer + s.reqs[x].kv <= ph.kvBuffer
      && events' == Push(events, Timed(t, KvArrived(x, p, s.reqs[x].dPair, s.reqs[x].kv)))
    requires s.now <= t && s.pairs[p].linkFree <= t
    requires s' == HeadSent(s, p, t, Summarize(events'))
    ensures Holds(s', events', ph, p, openD)
  {
    var x := s.pairs[p].unsent[0];
    var e := Timed(t, KvArrived(x, p, s.reqs[x].dPair, s.reqs[x].kv));
    SendInv(s, events, ph, p, e, openD);
    assert PhysicsOk(ph) && EventsOk(s', events') by {
      Unfold(s, events, ph, p, openD);
      SendStatics(s, p, t, Summarize(events'));
      PushStays(s, s', events, e);
    }
  }

  lemma SendStatics(s: State, p: nat, t: real, h: Summary)
    requires p < |s.pairs| && s.pairs[p].unsent != [] && s.pairs[p].unsent[0] < |s.reqs|
    requires s.reqs[s.pairs[p].unsent[0]].dPair < |s.pairs| && s.pairs[p].linkFree <= t
    ensures SameStatics(s, HeadSent(s, p, t, h)) && HeadSent(s, p, t, h).pairs[p].linkFree == t
  {}

  lemma RetryInv(s: State, events: seq<Timed>, ph: Physics, p: nat, e: Timed, openD: int)
    requires Holds(s, events, ph, p, openD)
    requires p < |s.pairs| && s.pairs[p].unsent != [] && !s.pairs[p].retryScheduled && e.ev == SendRetry(p)
    ensures Inv(RetryPlanned(s, p, Summarize(Push(events, e))), ph, NOBODY, openD)
  {
    Unfold(s, events, ph, p, openD);
    NoPending(s, events, Retry(p));
    PushAdds(events, e);
    RetryPlannedKeeps(s, ph, p, Summarize(Push(events, e)), openD);
  }

  lemma RetryKeeps(
    s: State, events: seq<Timed>, s': State, events': seq<Timed>, ph: Physics, p: nat, t: real, openD: int)
    requires Holds(s, events, ph, p, openD)
    requires p < |s.pairs| && s.pairs[p].unsent != [] && !s.pairs[p].retryScheduled && s.now <= t
    requires events' == Push(events, Timed(t, SendRetry(p)))
    requires s' == RetryPlanned(s, p, Summarize(events'))
    ensures Holds(s', events', ph, NOBODY, openD)
  {
    var e := Timed(t, SendRetry(p));
    RetryInv(s, events, ph, p, e, openD);
    assert PhysicsOk(ph) && EventsOk(s', events') by {
      Unfold(s, events, ph, p, openD);
      PushStays(s, s', events, e);
    }
  }

  lemma AlreadyWaiting(s: State, events: seq<Timed>, ph: Physics, p: nat, openD: int)
    requires Holds(s, events, ph, p, openD) && p < |s.pairs|
    requires s.pairs[p].unsent != [] && s.pairs[p].retryScheduled
    ensures Holds(s, events, ph, NOBODY, openD)
  {
    Unfold(s, events, ph, p, openD);
    assert PWork(s, p);
  }

  /** Exempting a P from what it owes asks for less. */
  lemma OpenP(s: State, events: seq<Timed>, ph: Physics, p: nat, openD: int)
    requires Holds(s, events, ph, NOBODY, openD)
    ensures Holds(s, events, ph, p, openD)
  {
    Unfold(s, events, ph, NOBODY, openD);
    assert WorkOk(s, ph, p, openD);
  }

  /** The first `m` sequences, each one token longer, fit the cache, and one more would not. */
  ghost predicate PreemptRule(reqs: seq<Req>, running: seq<ReqId>, m: nat, ph: Physics) {
    && m <= |running|
    && (m == 0 || Held(reqs, running[..m]) + m <= ph.dTokens)
    && (m == |running| || Held(reqs, running[..m + 1]) + m + 1 > ph.dTokens)
  }

  /** The running sequences from number `m` on are back at the front of the ready line. */
  function CutBack(pr: Pair, m: nat): Pair
    requires m <= |pr.dRunning|
  {
    pr.(dRunning := pr.dRunning[..m], dReady := pr.dRunning[m..] + pr.dReady)
  }

  lemma CutNothing(pairs: seq<Pair>, d: nat)
    requires d < |pairs|
    ensures pairs == pairs[d := CutBack(pairs[d], |pairs[d].dRunning|)]
  {
    var pr := pairs[d];
    assert pr.dRunning[..|pr.dRunning|] == pr.dRunning && pr.dRunning[|pr.dRunning|..] + pr.dReady == pr.dReady;
  }

  lemma CutOneMore(s: State, pairs: seq<Pair>, d: nat, m: nat)
    requires d < |pairs| && 0 < m <= |pairs[d].dRunning| && s.pairs == pairs[d := CutBack(pairs[d], m)]
    ensures Preempted(s, d).pairs == pairs[d := CutBack(pairs[d], m - 1)]
  {
    var q, ready := pairs[d].dRunning, pairs[d].dReady;
    assert q[..m][..m - 1] == q[..m - 1] && q[..m][m - 1] == q[m - 1];
    assert [q[m - 1]] + (q[m..] + ready) == q[m - 1..] + ready;
  }

  lemma RemoveJoined(reqs: seq<Req>, q: seq<ReqId>, joined: seq<ReqId>)
    requires q != [] && Distinct(q) && StartedOrIn(reqs, q, joined)
    ensures StartedOrIn(reqs, q[..|q| - 1], Remove(joined, q[|q| - 1]))
  {
    var n := |q| - 1;
    RemoveKeeps(joined, q[n]);
    forall x | x in q[..n] ensures x in q && x != q[n] {
      var i :| 0 <= i < n && q[..n][i] == x;
      assert q[i] == x && q[i] != q[n];
    }
  }

  lemma PopKeeps(s: State, s': State, events: seq<Timed>, ph: Physics, d: nat)
    requires Holds(s, events, ph, NOBODY, d) && d < |s.pairs| && s.pairs[d].dRunning != [] && ph.vllm
    requires s' == Preempted(s, d)
    ensures Holds(s', events, ph, NOBODY, d)
  {
    assert Inv(s', ph, NOBODY, d) by {
      Unfold(s, events, ph, NOBODY, d);
      PreemptedKeeps(s, ph, d);
    }
    assert PhysicsOk(ph) && EventsOk(s', events) by {
      Unfold(s, events, ph, NOBODY, d);
      forall e | e in events ensures s'.now <= e.t { assert EventOk(s, e); }
      EventsStay(s, s', events, events);
    }
  }

  ghost predicate AllStarted(reqs: seq<Req>, q: seq<ReqId>) {
    forall x :: x in q ==> x < |reqs| && reqs[x].first.Some?
  }

  lemma StartedJoined(reqs: seq<Req>, running: seq<ReqId>, joined: seq<ReqId>)
    requires AllStarted(reqs, running) && forall i :: 0 <= i < |joined| ==> joined[i] < |reqs|
    ensures StartedOrIn(PullAll(reqs, joined), running + joined, joined)
  {
    forall x | x in running + joined
      ensures x < |reqs| && (PullAll(reqs, joined)[x].first.Some? || x in joined)
    {
      if x in joined { var i :| 0 <= i < |joined| && joined[i] == x; }
    }
  }

  /** `k` waiting sequences joined, then all but the first `m` running ones went back to wait. */
  ghost predicate RecutRule(reqs: seq<Req>, reqs': seq<Req>, pr: Pair, pr': Pair, k: nat, m: nat, ph: Physics) {
    && JoinRule(reqs, pr.dRunning, pr.dReady, k, ph)
    && reqs' == PullAll(reqs, pr.dReady[..k])
    && var running := pr.dRunning + pr.dReady[..k];
    && (if ph.vllm then PreemptRule(reqs', running, m, ph) else m == |running|)
    && pr'.dRunning == running[..m] && pr'.dReady == running[m..] + pr.dReady[k..]
  }

  /** The requests and the pair of a D between its tokens and its re-cut, and the two cuts. */
  datatype Step = Step(reqs: seq<Req>, pr: Pair, k: nat, m: nat)

  /** A decode step: every running sequence gets one token, the complete ones leave, then the line is cut anew. */
  ghost predicate StepRule(reqs: seq<Req>, reqs': seq<Req>, pr: Pair, pr': Pair, step: Step, now: real, ph: Physics) {
    && Emitted(reqs, step.reqs, pr.dRunning, now, ph.firstExtra)
    && step.pr.dRunning == Going(reqs, pr.dRunning, now, ph.firstExtra) && step.pr.dReady == pr.dReady
    && RecutRule(step.reqs, reqs', step.pr, pr', step.k, step.m, ph)
  }

  lemma HeldOne(reqs: seq<Req>, q: seq<ReqId>)
    requires q != []
    ensures Held(reqs, q[..1]) == Context(reqs, q[0])
  {
    assert q[..1] == [q[0]] && [q[0]][1..] == [];
  }

  /** When nothing runs after joining and preempting, the head does not fit an empty D. */
  lemma HeadBlocked(reqs: seq<Req>, reqs': seq<Req>, pr: Pair, pr': Pair, ph: Physics, k: nat, m: nat)
    requires RecutRule(reqs, reqs', pr, pr', k, m, ph) && PhysicsOk(ph) && pr'.dRunning == []
    requires forall i :: 0 <= i < |pr.dReady| ==> pr.dReady[i] < |reqs|
    requires forall i :: 0 <= i < |pr.dRunning| ==> pr.dRunning[i] < |reqs|
    ensures pr'.dReady != [] ==> pr'.dReady[0] < |reqs'| && !FitsEmpty(reqs'[pr'.dReady[0]], ph)
  {
    var running := pr.dRunning + pr.dReady[..k];
    if running != [] {
      HeldOne(reqs', running);
    } else if pr.dReady != [] {
      assert pr.dRunning == [] && k == 0 && pr.dReady[..0] == [];
      assert running[m..] + pr.dReady[k..] == pr.dReady;
      NothingFits(reqs, pr.dReady, ph);
    }
  }

  /** Beside nothing, the head of the ready line does not fit. */
  lemma NothingFits(reqs: seq<Req>, ready: seq<ReqId>, ph: Physics)
    requires ready != [] && ready[0] < |reqs| && JoinRule(reqs, [], ready, 0, ph)
    ensures !FitsEmpty(reqs[ready[0]], ph)
  {
    assert ready[..0] == [];
    TakeOne(reqs, ready, 0, ph);
  }

  lemma StopKeeps(s: State, s': State, events: seq<Timed>, ph: Physics, d: nat)
    requires Holds(s, events, ph, NOBODY, d) && d < |s.pairs| && s.pairs[d].dRunning == []
    requires s.pairs[d].dReady != [] ==> s.pairs[d].dReady[0] < |s.reqs| && !FitsEmpty(s.reqs[s.pairs[d].dReady[0]], ph)
    requires s' == Stopped(s, d)
    ensures Holds(s', events, ph, NOBODY, NOBODY)
  {
    StopInv(s, events, ph, d);
    StopEvents(s, events, ph, d);
  }

  lemma StopInv(s: State, events: seq<Timed>, ph: Physics, d: nat)
    requires Holds(s, events, ph, NOBODY, d) && d < |s.pairs| && s.pairs[d].dRunning == []
    requires s.pairs[d].dReady != [] ==> s.pairs[d].dReady[0] < |s.reqs| && !FitsEmpty(s.reqs[s.pairs[d].dReady[0]], ph)
    ensures PhysicsOk(ph) && Boundary(Stopped(s, d), ph)
  {
    Unfold(s, events, ph, NOBODY, d);
    StoppedKeeps(s, ph, d);
  }

  lemma StopEvents(s: State, events: seq<Timed>, ph: Physics, d: nat)
    requires Holds(s, events, ph, NOBODY, d) && d < |s.pairs|
    ensures EventsOk(Stopped(s, d), events)
  {
    Unfold(s, events, ph, NOBODY, d);
    forall e | e in events ensures s.now <= e.t { assert EventOk(s, e); }
    EventsStay(s, Stopped(s, d), events, events);
  }

  lemma BeginKeeps(
    s: State, events: seq<Timed>, s': State, events': seq<Timed>, ph: Physics, d: nat, joined: seq<ReqId>, t: real)
    requires Holds(s, events, ph, NOBODY, d) && d < |s.pairs| && s.pairs[d].dRunning != []
    requires ph.vllm ==> Held(s.reqs, s.pairs[d].dRunning) + |s.pairs[d].dRunning| <= ph.dTokens
    requires StartedOrIn(s.reqs, s.pairs[d].dRunning, joined) && s.now <= t
    requires events' == Push(events, Timed(t, DEnd(d, joined))) && s' == StepStarted(s, d, Summarize(events'))
    ensures Holds(s', events', ph, NOBODY, NOBODY)
  {
    var e := Timed(t, DEnd(d, joined));
    assert Boundary(s', ph) by {
      Unfold(s, events, ph, NOBODY, d);
      NoPending(s, events, Decode(d));
      PushAdds(events, e);
      StepStartedKeeps(s, ph, d, joined, Summarize(events'));
    }
    assert PhysicsOk(ph) && EventsOk(s', events') by {
      Unfold(s, events, ph, NOBODY, d);
      PushStays(s, s', events, e);
    }
  }

  lemma EmitKnown(s: State, events: seq<Timed>, ph: Physics, d: nat, i: nat)
    requires Holds(s, events, ph, NOBODY, d) && d < |s.pairs| && i < |s.pairs[d].dRunning|
    ensures Emits(s, d, i) && Distinct(s.pairs[d].dRunning)
  {
    ReadyKnown(s, events, ph, d);
    Unfold(s, events, ph, NOBODY, d);
    RunningEmits(s, ph, d, i);
  }

  lemma FirstsBefore(reqs: seq<Req>, q: seq<ReqId>, i: nat)
    requires i <= |q| && AllStarted(reqs, q[..i])
    ensures forall j :: 0 <= j < i ==> q[j] < |reqs| && reqs[q[j]].first.Some?
  {
    forall j | 0 <= j < i ensures q[j] < |reqs| && reqs[q[j]].first.Some? { assert q[..i][j] in q[..i]; }
  }

  lemma EmitInv(s: State, events: seq<Timed>, ph: Physics, d: nat, i: nat)
    requires Holds(s, events, ph, NOBODY, d) && d < |s.pairs| && Emits(s, d, i)
    requires AllStarted(s.reqs, s.pairs[d].dRunning[..i])
    ensures PhysicsOk(ph) && EventsOk(s, events) && Inv(TokenOut(s, ph, d, i), ph, NOBODY, d)
  {
    FirstsBefore(s.reqs, s.pairs[d].dRunning, i);
    Unfold(s, events, ph, NOBODY, d);
    TokenKeeps(s, ph, d, i);
  }

  lemma EmitEvents(s: State, events: seq<Timed>, ph: Physics, d: nat, i: nat)
    requires EventsOk(s, events) && Emits(s, d, i)
    ensures EventsOk(TokenOut(s, ph, d, i), events)
  {
    forall e | e in events ensures s.now <= e.t { assert EventOk(s, e); }
    EventsStay(s, TokenOut(s, ph, d, i), events, events);
  }

  lemma EmitKeeps(s: State, s': State, events: seq<Timed>, ph: Physics, d: nat, i: nat)
    requires Holds(s, events, ph, NOBODY, d) && d < |s.pairs| && Emits(s, d, i)
    requires AllStarted(s.reqs, s.pairs[d].dRunning[..i]) && s' == TokenOut(s, ph, d, i)
    ensures Holds(s', events, ph, NOBODY, d)
  {
    EmitInv(s, events, ph, d, i);
    EmitEvents(s, events, ph, d, i);
  }

  /** Exactly the requests of `q` got a token. */
  ghost predicate Emitted(reqs: seq<Req>, reqs': seq<Req>, q: seq<ReqId>, now: real, extra: real) {
    && |reqs'| == |reqs|
    && (forall x :: 0 <= x < |reqs| && x in q ==> reqs'[x] == Emit(reqs[x], now, extra))
    && (forall x :: 0 <= x < |reqs| && x !in q ==> reqs'[x] == reqs[x])
  }

  /** `r` itself when the token it gets is not its last. */
  function GoesOn(reqs: seq<Req>, r: ReqId, now: real, extra: real): seq<ReqId> {
    if r < |reqs| && Emit(reqs[r], now, extra).done.None? then [r] else []
  }

  /** Those of `q` that have more tokens to come after this one. */
  function Going(reqs: seq<Req>, q: seq<ReqId>, now: real, extra: real): seq<ReqId> {
    if q == [] then [] else
      var n := |q| - 1;
      Going(reqs, q[..n], now, extra) + GoesOn(reqs, q[n], now, extra)
  }

  lemma NextToEmit(
    reqs0: seq<Req>, reqs: seq<Req>, running: seq<ReqId>, n: nat, joined: seq<ReqId>, kept: seq<ReqId>, q: seq<ReqId>,
    now: real, extra: real)
    requires n < |running| && Distinct(running) && StartedOrIn(reqs0, running, joined)
    requires q == kept + running[n..] && Emitted(reqs0, reqs, running[..n], now, extra)
    ensures |kept| < |q| && q[|kept|] == running[n] && q[..|kept|] == kept
    ensures running[n] < |reqs| && running[n] !in running[..n] && reqs[running[n]] == reqs0[running[n]]
    ensures running[n] in joined || reqs[running[n]].first.Some?
  {
    var r := running[n];
    assert r in running;
    forall i | 0 <= i < n ensures running[..n][i] != r { assert running[i] != running[n]; }
  }

  /** The first `n` of `running` got their token; `kept` are those of them that go on. */
  ghost predicate EmitParts(
    reqs0: seq<Req>, reqs: seq<Req>, q: seq<ReqId>, running: seq<ReqId>, n: nat, kept: seq<ReqId>, now: real, extra: real)
  {
    && n <= |running| && q == kept + running[n..] && AllStarted(reqs, kept)
    && Emitted(reqs0, reqs, running[..n], now, extra)
  }

  ghost predicate EmitState(
    reqs0: seq<Req>, reqs: seq<Req>, q: seq<ReqId>, running: seq<ReqId>, n: nat, now: real, extra: real)
  {
    && n <= |running| && EmitParts(reqs0, reqs, q, running, n, Going(reqs0, running[..n], now, extra), now, extra)
    && Onward(reqs0, reqs)
  }

  lemma EmitNone(reqs: seq<Req>, running: seq<ReqId>, now: real, extra: real)
    ensures EmitState(reqs, reqs, running, running, 0, now, extra)
  {}

  lemma EmitDone(reqs0: seq<Req>, reqs: seq<Req>, q: seq<ReqId>, running: seq<ReqId>, now: real, extra: real)
    requires EmitState(reqs0, reqs, q, running, |running|, now, extra)
    ensures q == Going(reqs0, running, now, extra) && AllStarted(reqs, q) && Emitted(reqs0, reqs, running, now, extra)
  {
    assert running[..|running|] == running;
  }

  lemma TokenCut(s: State, ph: Physics, d: nat, i: nat)
    requires Emits(s, d, i)
    ensures var s' := TokenOut(s, ph, d, i); var q := s.pairs[d].dRunning;
      && s'.reqs == s.reqs[q[i] := Emit(s.reqs[q[i]], s.now, ph.firstExtra)]
      && s'.pairs[d].dRunning == (if s'.reqs[q[i]].done.Some? then Without(q, i) else q)
  {}

  lemma KeepEmitted(
    reqs0: seq<Req>, reqs: seq<Req>, reqs': seq<Req>, q: seq<ReqId>, q': seq<ReqId>, kept: seq<ReqId>,
    running: seq<ReqId>, n: nat, now: real, extra: real)
    requires n < |running| && running[n] < |reqs| && running[n] !in running[..n]
    requires kept == Going(reqs0, running[..n], now, extra)
    requires EmitParts(reqs0, reqs, q, running, n, kept, now, extra) && q == kept + running[n..]
    requires reqs' == reqs[running[n] := Emit(reqs[running[n]], now, extra)]
    requires q' == if reqs'[running[n]].done.Some? then Without(q, |kept|) else q
    ensures EmitParts(reqs0, reqs', q', running, n + 1, Going(reqs0, running[..n + 1], now, extra), now, extra)
  {
    GoingMore(reqs0, reqs, running, n, now, extra);
    KeepCut(kept, running, n, reqs'[running[n]].done.Some?, q, q');
    KeepStarted(reqs, kept, running[n], now, extra);
    EmittedMore(reqs0, reqs, running, n, now, extra);
  }

  lemma GoingMore(reqs0: seq<Req>, reqs: seq<Req>, running: seq<ReqId>, n: nat, now: real, extra: real)
    requires n < |running| && running[n] < |reqs| && running[n] !in running[..n]
    requires Emitted(reqs0, reqs, running[..n], now, extra)
    ensures Going(reqs0, running[..n + 1], now, extra) == Going(reqs0, running[..n], now, extra)
      + if Emit(reqs[running[n]], now, extra).done.Some? then [] else [running[n]]
  {
    assert running[..n + 1][..n] == running[..n];
    assert reqs[running[n]] == reqs0[running[n]];
  }

  lemma KeepCut(kept: seq<ReqId>, running: seq<ReqId>, n: nat, done: bool, q: seq<ReqId>, q': seq<ReqId>)
    requires n < |running| && q == kept + running[n..] && q' == if done then Without(q, |kept|) else q
    ensures q' == (kept + if done then [] else [running[n]]) + running[n + 1..]
  {
    CutEmitted(kept, running, n);
  }

  lemma KeepStarted(reqs: seq<Req>, kept: seq<ReqId>, r: ReqId, now: real, extra: real)
    requires r < |reqs| && AllStarted(reqs, kept)
    ensures var reqs' := reqs[r := Emit(reqs[r], now, extra)];
      AllStarted(reqs', kept + if reqs'[r].done.Some? then [] else [r])
  {}

  lemma EmittedMore(reqs0: seq<Req>, reqs: seq<Req>, running: seq<ReqId>, n: nat, now: real, extra: real)
    requires n < |running| && running[n] < |reqs| && running[n] !in running[..n]
    requires Emitted(reqs0, reqs, running[..n], now, extra)
    ensures Emitted(reqs0, reqs[running[n] := Emit(reqs[running[n]], now, extra)], running[..n + 1], now, extra)
  {
    assert running[..n + 1] == running[..n] + [running[n]];
  }

  lemma CutEmitted(kept: seq<ReqId>, running: seq<ReqId>, n: nat)
    requires n < |running|
    ensures Without(kept + running[n..], |kept|) == kept + running[n + 1..]
    ensures kept + running[n..] == (kept + [running[n]]) + running[n + 1..]
  {}

  lemma RetryFields(pairs: seq<Pair>, p: nat)
    requires p < |pairs|
    ensures OnlyPFields(pairs, pairs[p := pairs[p].(retryScheduled := true)])
  {}

  // ---- what the handlers rely on --------------------------------------------------------------

  lemma PopStays(s: State, s': State, events: seq<Timed>)
    requires EventsOk(s, events) && events != [] && SameStatics(s, s')
    requires s'.now == events[0].t && s'.heap == Summarize(events[1..])
    ensures EventsOk(s', events[1..])
  {
    forall e | e in events[1..] ensures s'.now <= e.t && e in events {
      var i :| 0 <= i < |events[1..]| && events[1..][i] == e;
      assert events[i + 1] == e && events[0].t <= events[i + 1].t;
    }
    EventsStay(s, s', events, events[1..]);
  }

  lemma HeadEvent(s: State, events: seq<Timed>)
    requires EventsOk(s, events) && events != []
    ensures EventOk(s, events[0]) && Removed(s.heap, Summarize(events[1..]), events[0].ev)
  {
    assert events[0] in events;
    PopRemoves(events);
  }

  lemma ComingKnown(s: State, events: seq<Timed>, ph: Physics, r: ReqId)
    requires Holds(s, events, ph, NOBODY, NOBODY) && events != [] && events[0].ev == PEnqueue(r)
    ensures r < |s.reqs| && s.reqs[r].pair < |s.pairs|
    ensures Comes(s, events[0].t, r, Summarize(events[1..])) && s.reqs[r].order.None?
  {
    Unfold(s, events, ph, NOBODY, NOBODY);
    HeadEvent(s, events);
    assert s.heap.ids(Enqueue)[0] == r && r in s.heap.ids(Enqueue);
    assert Tags(s.reqs)[r] == TagOf(s.reqs[r]);
  }

  lemma EnqueueKeeps(s: State, events: seq<Timed>, s': State, ph: Physics, r: ReqId)
    requires Holds(s, events, ph, NOBODY, NOBODY) && events != [] && events[0].ev == PEnqueue(r)
    requires r < |s.reqs| && s.reqs[r].pair < |s.pairs|
    requires s' == Enqueued(s, events[0].t, r, Summarize(events[1..]))
    ensures Holds(s', events[1..], ph, s.reqs[r].pair, NOBODY)
    ensures var pr := s'.pairs[s.reqs[r].pair]; pr.unsent != [] ==> pr.retryScheduled
  {
    ComingKnown(s, events, ph, r);
    assert PhysicsOk(ph) && Inv(s', ph, s.reqs[r].pair, NOBODY) by {
      Unfold(s, events, ph, NOBODY, NOBODY);
      EnqueuedKeeps(s, ph, events[0].t, r, Summarize(events[1..]));
    }
    EnqueueEvents(s, events, s', ph, r);
  }

  lemma EnqueueEvents(s: State, events: seq<Timed>, s': State, ph: Physics, r: ReqId)
    requires Holds(s, events, ph, NOBODY, NOBODY) && events != []
    requires r < |s.reqs| && s.reqs[r].pair < |s.pairs|
    requires s' == Enqueued(s, events[0].t, r, Summarize(events[1..]))
    ensures EventsOk(s', events[1..]) && PWork(s, s.reqs[r].pair)
  {
    Unfold(s, events, ph, NOBODY, NOBODY);
    PopStays(s, s', events);
  }

  lemma BatchKnown(s: State, events: seq<Timed>, ph: Physics, p: nat, batch: seq<ReqId>)
    requires Holds(s, events, ph, NOBODY, NOBODY) && events != [] && events[0].ev == PDone(p, batch)
    ensures p < |s.pairs| && forall i :: 0 <= i < |batch| ==> batch[i] < |s.reqs|
    ensures BatchReturns(s, events[0].t, p, batch, Summarize(events[1..]))
  {
    Unfold(s, events, ph, NOBODY, NOBODY);
    HeadEvent(s, events);
    assert Count(events[1..], Batch(p)) == 0 by { assert s.heap.count(Batch(p)) == 1; }
    CountZero(events[1..], Batch(p));
    assert s.heap.ids(Batch(p)) == batch;
    BatchInLine(s, p, batch);
    forall i | 0 <= i < |batch| ensures batch[i] < |s.reqs| { assert batch[i] in batch; }
  }

  lemma ReturnKeeps(s: State, events: seq<Timed>, s': State, ph: Physics, p: nat, batch: seq<ReqId>)
    requires Holds(s, events, ph, NOBODY, NOBODY) && events != [] && events[0].ev == PDone(p, batch) && p < |s.pairs|
    requires s' == BatchDone(s, events[0].t, p, batch, Summarize(events[1..]))
    ensures Holds(s', events[1..], ph, p, NOBODY)
  {
    ReturnInv(s, events, ph, p, batch);
    ReturnEvents(s, events, s', ph, p, batch);
  }

  lemma ReturnInv(s: State, events: seq<Timed>, ph: Physics, p: nat, batch: seq<ReqId>)
    requires Holds(s, events, ph, NOBODY, NOBODY) && events != [] && events[0].ev == PDone(p, batch) && p < |s.pairs|
    ensures PhysicsOk(ph) && Inv(BatchDone(s, events[0].t, p, batch, Summarize(events[1..])), ph, p, NOBODY)
  {
    BatchKnown(s, events, ph, p, batch);
    Unfold(s, events, ph, NOBODY, NOBODY);
    BatchDoneKeeps(s, ph, events[0].t, p, batch, Summarize(events[1..]));
  }

  lemma ReturnEvents(s: State, events: seq<Timed>, s': State, ph: Physics, p: nat, batch: seq<ReqId>)
    requires Holds(s, events, ph, NOBODY, NOBODY) && events != [] && p < |s.pairs|
    requires s' == BatchDone(s, events[0].t, p, batch, Summarize(events[1..]))
    ensures EventsOk(s', events[1..])
  {
    Unfold(s, events, ph, NOBODY, NOBODY);
    PopStays(s, s', events);
  }

  lemma RetryKnown(s: State, events: seq<Timed>, ph: Physics, p: nat)
    requires Holds(s, events, ph, NOBODY, NOBODY) && events != [] && events[0].ev == SendRetry(p)
    ensures p < |s.pairs| && s.now <= events[0].t && Removed(s.heap, Summarize(events[1..]), SendRetry(p))
  {
    Unfold(s, events, ph, NOBODY, NOBODY);
    HeadEvent(s, events);
  }

  lemma FireKeeps(s: State, events: seq<Timed>, s': State, ph: Physics, p: nat)
    requires Holds(s, events, ph, NOBODY, NOBODY) && events != [] && events[0].ev == SendRetry(p) && p < |s.pairs|
    requires s' == RetryFired(s, events[0].t, p, Summarize(events[1..]))
    ensures Holds(s', events[1..], ph, p, NOBODY)
  {
    FireInv(s, events, ph, p);
    FireEvents(s, events, s', ph, p);
  }

  lemma FireInv(s: State, events: seq<Timed>, ph: Physics, p: nat)
    requires Holds(s, events, ph, NOBODY, NOBODY) && events != [] && events[0].ev == SendRetry(p) && p < |s.pairs|
    ensures PhysicsOk(ph) && Inv(RetryFired(s, events[0].t, p, Summarize(events[1..])), ph, p, NOBODY)
  {
    RetryKnown(s, events, ph, p);
    Unfold(s, events, ph, NOBODY, NOBODY);
    RetryFiredKeeps(s, ph, events[0].t, p, Summarize(events[1..]));
  }

  lemma FireEvents(s: State, events: seq<Timed>, s': State, ph: Physics, p: nat)
    requires Holds(s, events, ph, NOBODY, NOBODY) && events != [] && p < |s.pairs|
    requires s' == RetryFired(s, events[0].t, p, Summarize(events[1..]))
    ensures EventsOk(s', events[1..])
  {
    Unfold(s, events, ph, NOBODY, NOBODY);
    PopStays(s, s', events);
  }

  lemma ArrivalKnown(s: State, events: seq<Timed>, ph: Physics, r: ReqId, d: nat)
    requires Holds(s, events, ph, NOBODY, NOBODY) && events != []
    requires events[0].ev.KvArrived? && events[0].ev.r == r && events[0].ev.d == d
    ensures d < |s.pairs| && Arrives(s, events[0].t, r, d, Summarize(events[1..]))
  {
    Unfold(s, events, ph, NOBODY, NOBODY);
    HeadEvent(s, events);
  }

  lemma ArrivalKeeps(s: State, events: seq<Timed>, s': State, ph: Physics, r: ReqId, d: nat)
    requires Holds(s, events, ph, NOBODY, NOBODY) && events != [] && d < |s.pairs|
    requires events[0].ev.KvArrived? && events[0].ev.r == r && events[0].ev.d == d
    requires s' == Arrived(s, events[0].t, r, d, Summarize(events[1..]))
    ensures Holds(s', events[1..], ph, NOBODY, Awakened(s, d))
    ensures !s.pairs[d].dLooping ==> AllStarted(s'.reqs, s'.pairs[d].dRunning)
  {
    ArrivalInv(s, events, ph, r, d);
    ArrivalEvents(s, events, s', ph, r, d);
  }

  lemma ArrivalInv(s: State, events: seq<Timed>, ph: Physics, r: ReqId, d: nat)
    requires Holds(s, events, ph, NOBODY, NOBODY) && events != [] && d < |s.pairs|
    requires events[0].ev.KvArrived? && events[0].ev.r == r && events[0].ev.d == d
    ensures PhysicsOk(ph)
    ensures Inv(Arrived(s, events[0].t, r, d, Summarize(events[1..])), ph, NOBODY, Awakened(s, d))
  {
    ArrivalKnown(s, events, ph, r, d);
    Unfold(s, events, ph, NOBODY, NOBODY);
    ArrivedKeeps(s, ph, events[0].t, r, d, Summarize(events[1..]));
  }

  lemma ArrivalEvents(s: State, events: seq<Timed>, s': State, ph: Physics, r: ReqId, d: nat)
    requires Holds(s, events, ph, NOBODY, NOBODY) && events != [] && d < |s.pairs|
    requires s' == Arrived(s, events[0].t, r, d, Summarize(events[1..]))
    ensures EventsOk(s', events[1..]) && DWork(s, ph, d)
  {
    Unfold(s, events, ph, NOBODY, NOBODY);
    PopStays(s, s', events);
  }

  lemma StepKnown(s: State, events: seq<Timed>, ph: Physics, d: nat)
    requires Holds(s, events, ph, NOBODY, NOBODY) && events != [] && events[0].ev.DEnd? && events[0].ev.d == d
    ensures d < |s.pairs| && s.now <= events[0].t
    ensures Removed(s.heap, Summarize(events[1..]), events[0].ev) && Sel(events[1..], Decode(d)) == []
  {
    Unfold(s, events, ph, NOBODY, NOBODY);
    HeadEvent(s, events);
    assert Count(events[1..], Decode(d)) == 0 by {
      assert s.heap.count(Decode(d)) == Count(events[1..], Decode(d)) + 1;
    }
    CountZero(events[1..], Decode(d));
  }

  lemma EndKeeps(s: State, events: seq<Timed>, s': State, ph: Physics, d: nat, joined: seq<ReqId>)
    requires Holds(s, events, ph, NOBODY, NOBODY) && events != [] && events[0].ev == DEnd(d, joined)
    requires s' == StepEnded(s, events[0].t, Summarize(events[1..]))
    ensures Holds(s', events[1..], ph, NOBODY, d) && d < |s'.pairs|
    ensures StartedOrIn(s'.reqs, s'.pairs[d].dRunning, joined)
  {
    StepKnown(s, events, ph, d);
    assert PhysicsOk(ph) && Inv(s', ph, NOBODY, d) && StartedOrIn(s.reqs, s.pairs[d].dRunning, joined) by {
      Unfold(s, events, ph, NOBODY, NOBODY);
      StepEndedKeeps(s, ph, events[0].t, d, joined, Summarize(events[1..]));
    }
    assert EventsOk(s', events[1..]) by {
      Unfold(s, events, ph, NOBODY, NOBODY);
      PopStays(s, s', events);
    }
  }
}
