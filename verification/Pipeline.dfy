/**
  The state of the simulated prefill/decode pairs and what every event keeps true.

  A request waits for its P, is prefilled in a batch, is sent over its P's link into the
  receive buffer of its D, joins the D's running sequences, may be preempted and join again,
  and leaves when its output is complete. P and D of a request may belong to different pairs.
*/
module Pipeline {
  import opened Options
  import opened EventQueue

  datatype Physics = Physics(
    kvBuffer: real, dTokens: nat, batchTokens: nat, vllm: bool, firstExtra: real, sendRetry: real)

  /** A request. `order` is history: its number among all P enqueues so far. */
  datatype Req = Req(
    prompt: nat, output: nat, kv: real, pair: nat, dPair: nat,
    order: Option<nat>, first: Option<real>, done: Option<real>, emitted: nat, pulled: bool)

  datatype Pair = Pair(
    pQueue: seq<ReqId>, pBusy: bool, unsent: seq<ReqId>, linkFree: real, retryScheduled: bool,
    buffer: real, dReady: seq<ReqId>, dRunning: seq<ReqId>, dLooping: bool,
    atP: map<ReqId, nat>, inflightTokens: int, decoding: int)

  datatype State = State(now: real, enqueued: nat, pairs: seq<Pair>, reqs: seq<Req>, heap: Summary)

  /** No pair is in the middle of a step. */
  const NOBODY := -1

  // ---- the two ends of the pipeline ----------------------------------------------------

  /** Everything enqueued at P `p` and not yet arrived at a D, oldest first. */
  function PSide(s: State, p: nat): seq<ReqId>
    requires p < |s.pairs|
  {
    s.heap.ids(Link(p)) + s.pairs[p].unsent + s.heap.ids(Batch(p)) + s.pairs[p].pQueue
  }

  /** Everything D `d` holds: the running sequences, then those waiting to join. */
  function DSide(s: State, d: nat): seq<ReqId>
    requires d < |s.pairs|
  {
    s.pairs[d].dRunning + s.pairs[d].dReady
  }

  function PSides(s: State): seq<seq<ReqId>> {
    seq(|s.pairs|, p requires 0 <= p < |s.pairs| => PSide(s, p))
  }

  function DSides(s: State): seq<seq<ReqId>> {
    seq(|s.pairs|, d requires 0 <= d < |s.pairs| => DSide(s, d))
  }

  /** What the order of requests depends on. */
  datatype Tag = Tag(pair: nat, dPair: nat, order: Option<nat>)

  function TagOf(r: Req): Tag { Tag(r.pair, r.dPair, r.order) }

  function Tags(reqs: seq<Req>): seq<Tag> {
    seq(|reqs|, i requires 0 <= i < |reqs| => TagOf(reqs[i]))
  }

  function Live(reqs: seq<Req>): seq<bool> {
    seq(|reqs|, i requires 0 <= i < |reqs| => reqs[i].done.None?)
  }

  ghost predicate Known(tags: seq<Tag>, x: ReqId) { x < |tags| && tags[x].order.Some? }

  /** Requests of the same P come in the order in which they were enqueued there. */
  ghost predicate Before(tags: seq<Tag>, x: ReqId, y: ReqId) {
    && Known(tags, x) && Known(tags, y)
    && (tags[x].pair == tags[y].pair ==> tags[x].order.value < tags[y].order.value)
  }

  ghost predicate Ordered(tags: seq<Tag>, q: seq<ReqId>) {
    && (forall x :: x in q ==> Known(tags, x))
    && forall i, j :: 0 <= i < j < |q| ==> Before(tags, q[i], q[j])
  }

  ghost predicate Cross(tags: seq<Tag>, a: seq<ReqId>, b: seq<ReqId>) {
    forall x, y :: x in a && y in b ==> Before(tags, x, y)
  }

  // ---- invariants ------------------------------------------------------------------------

  ghost predicate EventOk(s: State, e: Timed) {
    && s.now <= e.t
    && match e.ev
       case PEnqueue(r) => r < |s.reqs|
       case PDone(p, _) => p < |s.pairs|
       case SendRetry(p) => p < |s.pairs|
       case KvArrived(r, p, d, kv) =>
         && r < |s.reqs| && p == s.reqs[r].pair && d == s.reqs[r].dPair && kv == s.reqs[r].kv
         && p < |s.pairs| && d < |s.pairs| && e.t <= s.pairs[p].linkFree
       case DEnd(d, _) => d < |s.pairs|
  }

  /** The heap is in leaving order and every entry names existing things; links finish in order. */
  ghost predicate EventsOk(s: State, events: seq<Timed>) {
    && s.heap == Summarize(events)
    && Sorted(events)
    && (forall e :: e in events ==> EventOk(s, e))
  }

  ghost predicate ReqsInRange(s: State) {
    forall r :: 0 <= r < |s.reqs| ==>
      s.reqs[r].pair < |s.pairs| && s.reqs[r].dPair < |s.pairs| && s.reqs[r].kv >= 0.0
  }

  /** A busy P, a scheduled retry and a looping D have exactly one pending event, the others none. */
  ghost predicate FlagsOk(s: State, openD: int) {
    && (forall p :: 0 <= p < |s.pairs| ==>
      && s.heap.count(Batch(p)) == (if s.pairs[p].pBusy then 1 else 0)
      && s.heap.count(Retry(p)) == (if s.pairs[p].retryScheduled then 1 else 0))
    && (forall d :: 0 <= d < |s.pairs| ==>
      && s.heap.count(Decode(d)) == (if s.pairs[d].dLooping && d != openD then 1 else 0)
      && (d == openD ==> s.pairs[d].dLooping))
  }

  ghost predicate OfP(tags: seq<Tag>, q: seq<ReqId>, p: nat) {
    forall x :: x in q ==> x < |tags| && tags[x].pair == p
  }

  ghost predicate OfD(tags: seq<Tag>, q: seq<ReqId>, d: nat) {
    forall x :: x in q ==> x < |tags| && tags[x].dPair == d
  }

  /** Both sides are in P-enqueue order, and what a D holds is older than what is still at its P. */
  ghost predicate LinesOk(tags: seq<Tag>, ps: seq<seq<ReqId>>, ds: seq<seq<ReqId>>) {
    && (forall p :: 0 <= p < |ps| ==> Ordered(tags, ps[p]))
    && (forall d :: 0 <= d < |ds| ==> Ordered(tags, ds[d]))
    && (forall p, d :: 0 <= p < |ps| && 0 <= d < |ds| ==> Cross(tags, ds[d], ps[p]))
    && (forall p :: 0 <= p < |ps| ==> OfP(tags, ps[p], p))
    && (forall d :: 0 <= d < |ds| ==> OfD(tags, ds[d], d))
  }

  ghost predicate AllLive(live: seq<bool>, q: seq<ReqId>) {
    forall x :: x in q ==> x < |live| && live[x]
  }

  ghost predicate Distinct(q: seq<ReqId>) { forall i, j :: 0 <= i < j < |q| ==> q[i] != q[j] }

  /** Every request is somewhere: on its way to P, on the P side, on the D side, or served. */
  ghost predicate CoverOk(
    tags: seq<Tag>, live: seq<bool>, ps: seq<seq<ReqId>>, ds: seq<seq<ReqId>>, coming: seq<ReqId>, enqueued: nat)
  {
    && |live| == |tags| && |ps| == |ds|
    && Distinct(coming)
    && (forall x :: x in coming ==> x < |tags| && tags[x].order.None?)
    && (forall p :: 0 <= p < |ps| ==> AllLive(live, ps[p]))
    && (forall d :: 0 <= d < |ds| ==> AllLive(live, ds[d]))
    && (forall x :: 0 <= x < |tags| ==>
      && tags[x].pair < |ps| && tags[x].dPair < |ds|
      && (tags[x].order.None? ==> live[x] && x in coming)
      && (tags[x].order.Some? ==> tags[x].order.value < enqueued)
      && (tags[x].order.Some? && live[x] ==> x in ps[tags[x].pair] || x in ds[tags[x].dPair]))
  }

  /** Prompt tokens of the requests of P `p` that left P and have no first token yet. */
  function Inflight(reqs: seq<Req>, atP: map<ReqId, nat>, p: nat): int {
    if reqs == [] then 0 else
      var x := |reqs| - 1;
      Inflight(reqs[..x], atP, p) + InflightOf(reqs[x], x in atP, p)
  }

  function InflightOf(r: Req, waiting: bool, p: nat): int {
    if r.pair == p && !waiting && r.first.None? then r.prompt else 0
  }

  /** Requests of D `d` with a first token that are not served yet. */
  function Decoding(reqs: seq<Req>, d: nat): int {
    if reqs == [] then 0 else
      var x := |reqs| - 1;
      Decoding(reqs[..x], d) + DecodingOf(reqs[x], d)
  }

  function DecodingOf(r: Req, d: nat): int {
    if r.dPair == d && r.first.Some? && r.done.None? then 1 else 0
  }

  ghost predicate BooksOk(s: State) {
    && (forall p :: 0 <= p < |s.pairs| ==>
      && s.pairs[p].inflightTokens == Inflight(s.reqs, s.pairs[p].atP, p)
      && s.pairs[p].decoding == Decoding(s.reqs, p))
  }

  function AtPs(s: State): seq<map<ReqId, nat>> {
    seq(|s.pairs|, p requires 0 <= p < |s.pairs| => s.pairs[p].atP)
  }

  /** Requests that their P has not returned yet, according to its `atP`. */
  ghost predicate StillAtP(reqs: seq<Req>, atPs: seq<map<ReqId, nat>>, q: seq<ReqId>) {
    forall r :: r in q ==> r < |reqs| && reqs[r].pair < |atPs| && r in atPs[reqs[r].pair]
  }

  ghost predicate LeftP(reqs: seq<Req>, atPs: seq<map<ReqId, nat>>, q: seq<ReqId>) {
    forall r :: r in q ==> r < |reqs| && reqs[r].pair < |atPs| && r !in atPs[reqs[r].pair]
  }

  ghost predicate AtPRecords(reqs: seq<Req>, p: nat, atP: map<ReqId, nat>) {
    forall r :: r in atP ==>
      && r < |reqs| && reqs[r].pair == p && reqs[r].prompt == atP[r]
      && reqs[r].first.None? && reqs[r].done.None?
  }

  /** Pair `p` as seen from its `atP`: queued and in a batch means at P, everything later has left. */
  ghost predicate PairAtP(s: State, atPs: seq<map<ReqId, nat>>, p: nat)
    requires p < |s.pairs|
  {
    && LeftP(s.reqs, atPs, s.heap.ids(Link(p)))
    && LeftP(s.reqs, atPs, s.pairs[p].unsent)
    && StillAtP(s.reqs, atPs, s.heap.ids(Batch(p)))
    && StillAtP(s.reqs, atPs, s.pairs[p].pQueue)
    && AtPRecords(s.reqs, p, s.pairs[p].atP)
    && LeftP(s.reqs, atPs, DSide(s, p))
  }

  /** `atP` of a pair: its requests from dispatch until P returned them. */
  ghost predicate AtPOk(s: State) {
    && StillAtP(s.reqs, AtPs(s), s.heap.ids(Enqueue))
    && forall p :: 0 <= p < |s.pairs| ==> PairAtP(s, AtPs(s), p)
  }

  function BufferKv(reqs: seq<Req>, x: ReqId): real {
    if x < |reqs| && !reqs[x].pulled then reqs[x].kv else 0.0
  }

  /** KV bytes of the waiting requests that still occupy the receive buffer. */
  function Unpulled(reqs: seq<Req>, q: seq<ReqId>): real
  {
    if q == [] then 0.0 else BufferKv(reqs, q[0]) + Unpulled(reqs, q[1..])
  }

  /** A receive buffer holds exactly what was sent to the D and not pulled, and never overflows. */
  ghost predicate BuffersOk(s: State, ph: Physics)
  {
    forall d :: 0 <= d < |s.pairs| ==>
      && s.pairs[d].buffer == s.heap.kv(d) + Unpulled(s.reqs, s.pairs[d].dReady)
      && s.pairs[d].buffer <= ph.kvBuffer
  }

  /** Context tokens of one request: its prompt plus what it generated. */
  function Context(reqs: seq<Req>, x: ReqId): nat {
    if x < |reqs| then reqs[x].prompt + reqs[x].emitted else 0
  }

  /** Tokens one request will need at most. */
  function Claim(reqs: seq<Req>, x: ReqId): nat {
    if x < |reqs| then reqs[x].prompt + reqs[x].output else 0
  }

  /** Context tokens of a list of sequences: prompts plus what they generated. */
  function Held(reqs: seq<Req>, q: seq<ReqId>): nat
  {
    if q == [] then 0 else Context(reqs, q[0]) + Held(reqs, q[1..])
  }

  /** Tokens reserved for a list of sequences: prompts plus whole outputs. */
  function Reserved(reqs: seq<Req>, q: seq<ReqId>): nat
  {
    if q == [] then 0 else Claim(reqs, q[0]) + Reserved(reqs, q[1..])
  }

  ghost predicate CapOk(s: State, ph: Physics, openD: int)
  {
    forall d :: 0 <= d < |s.pairs| ==>
      && (!ph.vllm ==> Reserved(s.reqs, s.pairs[d].dRunning) <= ph.dTokens)
      && (ph.vllm && d != openD && s.pairs[d].dRunning != [] ==>
        Held(s.reqs, s.pairs[d].dRunning) + |s.pairs[d].dRunning| <= ph.dTokens)
  }

  function Max(a: int, b: int): int { if a < b then b else a }

  /** A request's own token record. */
  ghost predicate ReqOk(r: Req, latest: real) {
    && (r.first.Some? <==> r.emitted >= 1)
    && (r.first.Some? ==> r.first.value <= latest && r.order.Some?)
    && (r.done.None? ==> r.emitted == 0 || r.emitted < r.output)
    && (r.done.Some? ==> r.emitted == Max(1, r.output) && r.first.Some? && r.first.value <= r.done.value)
  }

  ghost predicate Earlier(a: Req, b: Req) {
    && a.pair == b.pair && a.dPair == b.dPair
    && a.order.Some? && b.order.Some? && a.order.value < b.order.value
  }

  /** Requests without any token whose KV is not in a D's cache. */
  ghost predicate Fresh(reqs: seq<Req>, q: seq<ReqId>) {
    forall x :: x in q ==> x < |reqs| && reqs[x].first.None? && !reqs[x].pulled
  }

  ghost predicate AllPulled(reqs: seq<Req>, q: seq<ReqId>) {
    forall x :: x in q ==> x < |reqs| && reqs[x].pulled
  }

  ghost predicate Exist(reqs: seq<Req>, q: seq<ReqId>) {
    forall x :: x in q ==> x < |reqs|
  }

  /** Along a D's line, those that have a first token come before those that have none. */
  ghost predicate FirstsLead(reqs: seq<Req>, q: seq<ReqId>) {
    forall i, j :: 0 <= i < j < |q| && q[i] < |reqs| && q[j] < |reqs| && reqs[q[j]].first.Some? ==>
      reqs[q[i]].first.Some?
  }

  /** Requests of one P and one D get their first tokens in P-enqueue order. */
  ghost predicate FirstsInOrder(reqs: seq<Req>) {
    forall x, y :: 0 <= x < |reqs| && 0 <= y < |reqs| && Earlier(reqs[x], reqs[y]) && reqs[y].first.Some? ==>
      reqs[x].first.Some? && reqs[x].first.value <= reqs[y].first.value
  }

  ghost predicate ReqsOk(reqs: seq<Req>, latest: real) {
    forall x :: 0 <= x < |reqs| ==> ReqOk(reqs[x], latest)
  }

  ghost predicate TokensOk(s: State, ph: Physics) {
    && ReqsOk(s.reqs, s.now + ph.firstExtra)
    && FirstsInOrder(s.reqs)
    && Fresh(s.reqs, s.heap.ids(Enqueue))
    && (forall p :: 0 <= p < |s.pairs| ==> Fresh(s.reqs, PSide(s, p)))
    && (forall d :: 0 <= d < |s.pairs| ==>
      && AllPulled(s.reqs, s.pairs[d].dRunning)
      && Exist(s.reqs, s.pairs[d].dReady)
      && FirstsLead(s.reqs, DSide(s, d)))
  }

  ghost predicate StartedOrIn(reqs: seq<Req>, running: seq<ReqId>, joined: seq<ReqId>) {
    forall x :: x in running ==> x < |reqs| && (reqs[x].first.Some? || x in joined)
  }

  /** Every running sequence without a first token joined in the step that is under way. */
  ghost predicate JoinedOk(s: State, openD: int) {
    forall d :: 0 <= d < |s.pairs| && d != openD ==>
      StartedOrIn(s.reqs, s.pairs[d].dRunning, s.heap.ids(Decode(d)))
  }

  /** D takes `r` when nothing runs on it. */
  predicate FitsEmpty(r: Req, ph: Physics) {
    if ph.vllm then 100 * (r.prompt + r.emitted) <= 99 * ph.dTokens else r.prompt + r.output <= ph.dTokens
  }

  /** No wakeup is lost: whoever has work and does not work waits for something that will come. */
  ghost predicate PWork(s: State, p: nat)
    requires p < |s.pairs|
  {
    && (!s.pairs[p].pBusy && s.pairs[p].pQueue != [] ==> s.pairs[p].unsent != [])
    && (s.pairs[p].unsent != [] ==> s.pairs[p].retryScheduled)
  }

  ghost predicate DWork(s: State, ph: Physics, d: nat)
    requires d < |s.pairs|
  {
    && (s.pairs[d].dLooping <==> s.pairs[d].dRunning != [])
    && (!s.pairs[d].dLooping && s.pairs[d].dReady != [] ==>
      s.pairs[d].dReady[0] < |s.reqs| && !FitsEmpty(s.reqs[s.pairs[d].dReady[0]], ph))
  }

  ghost predicate WorkOk(s: State, ph: Physics, openP: int, openD: int) {
    && (forall p :: 0 <= p < |s.pairs| && p != openP ==> PWork(s, p))
    && (forall d :: 0 <= d < |s.pairs| && d != openD ==> DWork(s, ph, d))
  }

  /**
    The invariant, given the pending events as a summary. P `openP` may have undone sends or starts, D `openD` is between two decode
    steps; at an event boundary both are NOBODY.
  */
  ghost predicate Inv(s: State, ph: Physics, openP: int, openD: int) {
    && ReqsInRange(s)
    && FlagsOk(s, openD)
    && LinesOk(Tags(s.reqs), PSides(s), DSides(s))
    && CoverOk(Tags(s.reqs), Live(s.reqs), PSides(s), DSides(s), s.heap.ids(Enqueue), s.enqueued)
    && BooksOk(s)
    && AtPOk(s)
    && BuffersOk(s, ph)
    && CapOk(s, ph, openD)
    && TokensOk(s, ph)
    && JoinedOk(s, openD)
    && WorkOk(s, ph, openP, openD)
  }

  ghost predicate Boundary(s: State, ph: Physics) { Inv(s, ph, NOBODY, NOBODY) }

  ghost predicate PhysicsOk(ph: Physics) {
    ph.kvBuffer >= 0.0 && ph.dTokens >= 1 && ph.firstExtra >= 0.0 && ph.sendRetry >= 0.0
  }
}
