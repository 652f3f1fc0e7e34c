/**
  The router's reservations: every admitted request is counted at its P's group and at its
  D's group, by its stage, until it is finished.
*/
module Ledger {
  import opened Options
  import Prefills = PrefillTables
  import Sorting
  import opened Sealing

  datatype Stage = Prefill | Transfer | Decode | Done

  /** The counters of one group. */
  datatype Totals = Totals(
    nAtP: int, pendingMs: real, nAwait: int, tAwait: int, inflightBytes: real, nDecoding: int, nInflight: int)

  const ZERO := Totals(0, 0.0, 0, 0, 0.0, 0, 0)

  function Plus(a: Totals, b: Totals): Totals {
    Totals(
      a.nAtP + b.nAtP, a.pendingMs + b.pendingMs, a.nAwait + b.nAwait, a.tAwait + b.tAwait,
      a.inflightBytes + b.inflightBytes, a.nDecoding + b.nDecoding, a.nInflight + b.nInflight)
  }

  function Take(a: Totals, b: Totals): Totals {
    Totals(
      a.nAtP - b.nAtP, a.pendingMs - b.pendingMs, a.nAwait - b.nAwait, a.tAwait - b.tAwait,
      a.inflightBytes - b.inflightBytes, a.nDecoding - b.nDecoding, a.nInflight - b.nInflight)
  }

  class Group {
    var nAtP: int
    var pendingMs: real
    var nAwait: int
    var tAwait: int
    var inflightBytes: real
    var nDecoding: int
    var nInflight: int

    constructor ()
      ensures Counters() == ZERO
    {
      nAtP, pendingMs, nAwait, tAwait, inflightBytes, nDecoding, nInflight := 0, 0.0, 0, 0, 0.0, 0, 0;
    }

    function Counters(): Totals
      reads this
    {
      Totals(nAtP, pendingMs, nAwait, tAwait, inflightBytes, nDecoding, nInflight)
    }
  }

  /** What the ledger knows of one request: its P's group, its D's group, its size and its stage. */
  datatype Entry = Entry(p: Group, d: Group, tokens: nat, sOwn: real, started: bool, stage: Stage)

  class Ticket {
    const id: nat
    const group: Group
    const decodeGroup: Group?
    const promptTokens: nat
    const sOwnMs: real
    var firstTokenAt: Option<real>
    var finished: bool
    var stage: Stage

    constructor (id: nat, group: Group, decodeGroup: Group?, promptTokens: nat, sOwnMs: real)
      ensures this.id == id && this.group == group && this.decodeGroup == decodeGroup
      ensures this.promptTokens == promptTokens && this.sOwnMs == sOwnMs
      ensures firstTokenAt.None? && !finished && stage == Prefill
    {
      this.id, this.group, this.decodeGroup, this.promptTokens, this.sOwnMs := id, group, decodeGroup, promptTokens, sOwnMs;
      firstTokenAt, finished, stage := None, false, Prefill;
    }

    /** The group whose D serves this request. */
    function DGroup(): Group {
      if decodeGroup == null then group else decodeGroup
    }

    ghost function View(): Entry
      reads this
    {
      Entry(group, DGroup(), promptTokens, sOwnMs, firstTokenAt.Some?, stage)
    }

    /** Only a finished request is done; only a started one decodes. */
    ghost predicate Sound()
      reads this
    {
      && (finished <==> stage == Done)
      && (stage == Decode ==> firstTokenAt.Some?)
      && (firstTokenAt.Some? ==> stage == Decode || stage == Done)
      && (decodeGroup != null ==> decodeGroup != group)
    }
  }

  // ---- what the counters should be -----------------------------------------------------------

  function KvBytes(tokens: nat, perToken: real): real { tokens as real * perToken }

  /** What one request adds to the counters of group `g`. */
  ghost function Share(e: Entry, g: Group, perToken: real): Totals {
    var atP := e.p == g && e.stage == Prefill;
    var awaits := e.d == g && !e.started && e.stage != Done;
    Totals(
      if atP then 1 else 0,
      if atP then e.sOwn else 0.0,
      if awaits then 1 else 0,
      if awaits then e.tokens else 0,
      if e.d == g && e.stage == Transfer then KvBytes(e.tokens, perToken) else 0.0,
      if e.d == g && e.stage == Decode then 1 else 0,
      if (e.p == g || e.d == g) && e.stage != Done then 1 else 0)
  }

  function SumOf(shares: seq<Totals>): Totals {
    if shares == [] then ZERO else Plus(SumOf(shares[..|shares| - 1]), shares[|shares| - 1])
  }

  ghost function Shares(entries: seq<Entry>, g: Group, perToken: real): seq<Totals> {
    seq(|entries|, i requires 0 <= i < |entries| => Share(entries[i], g, perToken))
  }

  /** What the counters of `g` should be. */
  ghost function Sum(entries: seq<Entry>, g: Group, perToken: real): Totals {
    SumOf(Shares(entries, g, perToken))
  }

  lemma {:induction false} SumOfUpdate(shares: seq<Totals>, i: nat, t: Totals)
    requires i < |shares|
    ensures SumOf(shares[i := t]) == Plus(Take(SumOf(shares), shares[i]), t)
  {
    var k := |shares| - 1;
    if i == k {
      assert shares[i := t][..k] == shares[..k];
    } else {
      SumOfUpdate(shares[..k], i, t);
      assert shares[i := t][..k] == shares[..k][i := t];
    }
  }

  ghost predicate CostsOk(entries: seq<Entry>) {
    forall i :: 0 <= i < |entries| ==> entries[i].sOwn >= 0.0
  }

  /** Changing one entry moves exactly its share. */
  lemma SumUpdate(entries: seq<Entry>, i: nat, e: Entry, g: Group, perToken: real)
    requires i < |entries|
    ensures Sum(entries[i := e], g, perToken) ==
      Plus(Take(Sum(entries, g, perToken), Share(entries[i], g, perToken)), Share(e, g, perToken))
  {
    assert Shares(entries[i := e], g, perToken) == Shares(entries, g, perToken)[i := Share(e, g, perToken)];
    SumOfUpdate(Shares(entries, g, perToken), i, Share(e, g, perToken));
  }

  lemma SumAppend(entries: seq<Entry>, e: Entry, g: Group, perToken: real)
    ensures Sum(entries + [e], g, perToken) == Plus(Sum(entries, g, perToken), Share(e, g, perToken))
  {
    var shares := Shares(entries + [e], g, perToken);
    assert shares[..|entries|] == Shares(entries, g, perToken);
  }

  lemma {:induction false} SumOfPositive(shares: seq<Totals>)
    ensures (forall i :: 0 <= i < |shares| ==> shares[i].inflightBytes >= 0.0) ==> SumOf(shares).inflightBytes >= 0.0
    ensures (forall i :: 0 <= i < |shares| ==> shares[i].pendingMs >= 0.0) ==> SumOf(shares).pendingMs >= 0.0
  {
    if shares != [] { SumOfPositive(shares[..|shares| - 1]); }
  }

  lemma SumPositive(entries: seq<Entry>, g: Group, perToken: real)
    requires perToken >= 0.0
    ensures Sum(entries, g, perToken).inflightBytes >= 0.0
    ensures CostsOk(entries) ==> Sum(entries, g, perToken).pendingMs >= 0.0
  {
    forall i | 0 <= i < |entries| ensures Share(entries[i], g, perToken).inflightBytes >= 0.0 {
      KvPositive(entries[i].tokens, perToken);
    }
    SumOfPositive(Shares(entries, g, perToken));
  }

  lemma KvPositive(tokens: nat, perToken: real)
    requires perToken >= 0.0
    ensures KvBytes(tokens, perToken) >= 0.0
  {}

  lemma {:induction false} SumOfZero(shares: seq<Totals>)
    requires shares == seq(|shares|, i => ZERO)
    ensures SumOf(shares) == ZERO
  {
    if shares != [] { SumOfZero(shares[..|shares| - 1]); }
  }

  /** When every request is finished nothing is reserved. */
  lemma NothingLeft(entries: seq<Entry>, g: Group, perToken: real)
    requires forall i :: 0 <= i < |entries| ==> entries[i].stage == Done
    ensures Sum(entries, g, perToken) == ZERO
  {
    var shares := Shares(entries, g, perToken);
    assert shares == seq(|shares|, i => ZERO);
    SumOfZero(shares);
  }

  /** The counters are the sums; the pending P work is never below its sum, and above it once the clamp has cut. */
  ghost predicate Agree(counters: Totals, sums: Totals, cut: bool) {
    && counters.(pendingMs := 0.0) == sums.(pendingMs := 0.0)
    && counters.pendingMs >= sums.pendingMs
    && (counters.pendingMs == sums.pendingMs <==> !cut)
  }

  function Floor0(x: real): real { if x < 0.0 then 0.0 else x }

  /** One more request: the counters stay what they should be, wherever they are touched. */
  lemma Issued(c: Totals, sum: Totals, cut: bool, e: Entry, g: Group, perToken: real)
    requires Agree(c, sum, cut)
    ensures Agree(Plus(c, Share(e, g, perToken)), Plus(sum, Share(e, g, perToken)), cut)
  {}

  lemma Untouched(c: Totals, e: Entry, g: Group, perToken: real)
    requires g != e.p && g != e.d
    ensures Plus(c, Share(e, g, perToken)) == c
  {}

  class Router {
    const kvBytesPerToken: real
    const bestEffort: bool
    ghost const groups: set<Group>
    ghost var issued: seq<Ticket>   // history: every ticket, in the order of admission
    ghost var entries: seq<Entry>   // what each of them reserves now
    ghost var clipped: set<Group>   // history: the groups whose pending work was cut at 0
    var nextId: nat
    var live: map<nat, Ticket>

    constructor (ghost groups: set<Group>, kvBytesPerToken: real, bestEffort: bool)
      requires kvBytesPerToken >= 0.0 && forall g :: g in groups ==> g.Counters() == ZERO
      ensures Valid() && issued == [] && clipped == {} && this.groups == groups
    {
      this.groups, this.kvBytesPerToken, this.bestEffort := groups, kvBytesPerToken, bestEffort;
      issued, entries, clipped, nextId, live := [], [], {}, 1, map[];
    }

    ghost predicate Tickets()
      reads this`issued, this`entries, issued
    {
      && |entries| == |issued|
      && (forall i :: 0 <= i < |issued| ==> issued[i].View() == entries[i] && issued[i].Sound())
      && (forall i :: 0 <= i < |issued| ==> entries[i].p in groups && entries[i].d in groups)
    }

    /** Ids are never reused. */
    ghost predicate Numbered()
      reads this`issued, this`nextId
    {
      && (forall i :: 0 <= i < |issued| ==> issued[i].id < nextId)
      && (forall i, j :: 0 <= i < j < |issued| ==> issued[i].id != issued[j].id)
    }

    /** In best effort the unfinished tickets can be looked up by their id, and no others. */
    ghost predicate Live()
      reads this`issued, this`entries, this`live
    {
      && |entries| == |issued|
      && (forall i :: 0 <= i < |issued| ==> (issued[i].id in live <==> bestEffort && entries[i].stage != Done))
      && (forall id :: id in live ==> live[id] in issued && live[id].id == id)
    }

    /** The list of tickets, looked into only with `Look`. */
    ghost predicate Listed()
      reads this`issued, this`entries, this`nextId, this`live, issued
    {
      forall n {:trigger Asked(n)} :: Asked(n) ==> Tickets() && Numbered() && Live()
    }

    lemma Look()
      requires Listed()
      ensures Tickets() && Numbered() && Live()
    {
      assert Asked(0);
    }

    /** The counters of all groups. */
    ghost function Books(): map<Group, Totals>
      reads groups
    {
      map g | g in groups :: g.Counters()
    }

    ghost predicate Valid()
      reads this, issued, groups
    {
      && kvBytesPerToken >= 0.0 && |entries| == |issued| && Listed()
      && Balanced(Books(), entries, clipped, kvBytesPerToken)
    }

    method Reserve(p: Group, d: Group, tokens: nat, sOwn: real)
      modifies p, d
      ensures var e := Entry(p, d, tokens, sOwn, false, Prefill);
        && p.Counters() == Plus(old(p.Counters()), Share(e, p, kvBytesPerToken))
        && d.Counters() == Plus(old(d.Counters()), Share(e, d, kvBytesPerToken))
    {
      p.nAtP := p.nAtP + 1;
      p.pendingMs := p.pendingMs + sOwn;
      d.nAwait := d.nAwait + 1;
      d.tAwait := d.tAwait + tokens;
      p.nInflight := p.nInflight + 1;
      if d != p { d.nInflight := d.nInflight + 1; }
    }

    method Enlist(t: Ticket)
      requires Listed()
      requires t.id == nextId && t.Sound() && t.stage == Prefill && t.group in groups && t.DGroup() in groups
      modifies this
      ensures Listed()
      ensures issued == old(issued) + [t] && entries == old(entries) + [t.View()] && clipped == old(clipped)
    {
      Look();
      nextId := nextId + 1;
      issued, entries := issued + [t], entries + [t.View()];
      if bestEffort { live := live[t.id := t]; }
    }

    /** Reserves P of one group and D of the same or another one. */
    method Issue(p: Group, d: Group, tokens: nat, sOwn: real) returns (t: Ticket)
      requires Valid() && p in groups && d in groups
      modifies this, p, d
      ensures Valid() && fresh(t) && issued == old(issued) + [t] && clipped == old(clipped)
      ensures entries == old(entries) + [Entry(p, d, tokens, sOwn, false, Prefill)]
      ensures Books() == IssuedBooks(old(Books()), Entry(p, d, tokens, sOwn, false, Prefill), kvBytesPerToken)
      ensures t.group == p && t.DGroup() == d
    {
      ghost var books, before := Books(), entries;
      t := new Ticket(nextId, p, if d == p then null else d, tokens, sOwn);
      Reserve(p, d, tokens, sOwn);
      Enlist(t);
      forall g | g in groups ensures g.Counters() == Plus(old(g.Counters()), Share(t.View(), g, kvBytesPerToken)) {
        if g != p && g != d { Untouched(old(g.Counters()), t.View(), g, kvBytesPerToken); }
      }
      assert Books() == IssuedBooks(books, t.View(), kvBytesPerToken);
      BooksIssued(books, before, clipped, t.View(), kvBytesPerToken);
    }

    /** Takes the ticket's share of its stage off the counters. */
    method LeaveStage(t: Ticket)
      modifies t.group, t.DGroup()
      ensures t.group.Counters() == Left(old(t.group.Counters()), t.View(), t.group, kvBytesPerToken)
      ensures t.DGroup().Counters() == Left(old(t.DGroup().Counters()), t.View(), t.DGroup(), kvBytesPerToken)
    {
      match t.stage
      case Prefill =>
        t.group.nAtP := t.group.nAtP - 1;
        t.group.pendingMs := Floor0(t.group.pendingMs - t.sOwnMs);
      case Transfer =>
        var d := t.DGroup();
        d.inflightBytes := Floor0(d.inflightBytes - KvBytes(t.promptTokens, kvBytesPerToken));
      case Decode =>
        t.DGroup().nDecoding := t.DGroup().nDecoding - 1;
      case Done =>
    }

    /** All tickets but number `i` are as the list says. */
    ghost predicate RestOk(rest: set<Ticket>, i: nat)
      reads this`issued, this`entries, this`nextId, this`live, rest
    {
      forall n {:trigger Asked(n)} :: Asked(n) ==>
        && i < |issued| && Numbered() && Live()
        && forall j :: 0 <= j < |issued| && j != i ==>
          && issued[j] in rest && issued[j].View() == entries[j] && issued[j].Sound()
          && entries[j].p in groups && entries[j].d in groups
    }

    ghost function Others(t: Ticket): set<Ticket>
      reads this`issued
    {
      set x | x in issued && x != t
    }

    lemma OthersOk(t: Ticket, i: nat)
      requires Listed() && i < |issued| && issued[i] == t
      ensures RestOk(Others(t), i) && |entries| == |issued|
      ensures t.View() == entries[i] && t.Sound() && t.group in groups && t.DGroup() in groups
    {
      Look();
      Different(i);
    }

    lemma Different(i: nat)
      requires Numbered() && i < |issued|
      ensures forall j :: 0 <= j < |issued| && j != i ==> issued[j].id != issued[i].id
    {
      forall j | 0 <= j < |issued| && j != i ensures issued[j].id != issued[i].id {
        if j < i { assert issued[j].id != issued[i].id; } else { assert issued[i].id != issued[j].id; }
      }
    }

    /** A finished ticket is no longer found by its id. */
    method Unlist(t: Ticket, ghost i: nat)
      requires |entries| == |issued| && i < |issued| && issued[i] == t && entries[i].stage == t.stage
      requires forall j :: 0 <= j < |issued| && j != i ==> issued[j].id != t.id
      requires forall j :: 0 <= j < |issued| && j != i ==> (issued[j].id in live <==> bestEffort && entries[j].stage != Done)
      requires t.stage != Done ==> (t.id in live <==> bestEffort)
      requires forall id :: id in live ==> live[id] in issued && live[id].id == id
      modifies this`live
      ensures Live() && (t.stage == Done ==> t.id !in live)
    {
      if t.stage == Done { live := live - {t.id}; }
    }

    /** The list tells what ticket `i` is now. */
    ghost method Retell(t: Ticket, i: nat, rest: set<Ticket>)
      requires i < |issued| == |entries| && issued[i] == t && RestOk(rest, i)
      requires t.Sound() && t.group in groups && t.DGroup() in groups
      modifies this`entries
      ensures entries == old(entries)[i := t.View()] && Tickets()
    {
      assert Asked(0);
      entries := entries[i := t.View()];
    }

    /** Ticket `i` was changed, and nothing else in the list. */
    method Rewrite(t: Ticket, ghost i: nat, ghost rest: set<Ticket>)
      requires i < |issued| == |entries| && issued[i] == t
      requires t.Sound() && t.group in groups && t.DGroup() in groups
      requires RestOk(rest, i) && (t.stage == Done || entries[i].stage != Done)
      modifies this`entries, this`live
      ensures Listed() && entries == old(entries)[i := t.View()]
      ensures t.stage == Done ==> t.id !in live
    {
      assert Asked(0);
      Different(i);
      Retell(t, i, rest);
      Unlist(t, i);
    }

    /** Ticket `i` changed, and the counters with it: the list follows. */
    method Follow(t: Ticket, ghost i: nat, ghost rest: set<Ticket>, ghost cuts: set<Group>)
      requires i < |issued| == |entries| && issued[i] == t
      requires t.Sound() && t.group in groups && t.DGroup() in groups
      requires RestOk(rest, i) && (t.stage == Done || entries[i].stage != Done) && kvBytesPerToken >= 0.0
      requires Balanced(Books(), entries[i := t.View()], clipped + cuts, kvBytesPerToken)
      modifies this`entries, this`live, this`clipped
      ensures Valid() && entries == old(entries)[i := t.View()] && clipped == old(clipped) + cuts
      ensures t.stage == Done ==> t.id !in live
    {
      Rewrite(t, i, rest);
      clipped := clipped + cuts;
    }

    /** The groups went on by one step of request `i`: their counters fit its new entry. */
    lemma Rebooked(books: map<Group, Totals>, i: nat, step: Step)
      requires books.Keys == groups && i < |entries| && CanStep(entries[i], step) && entries[i].p in groups
      requires forall g :: g in groups ==> g.Counters() == AfterStep(books[g], entries[i], step, g, kvBytesPerToken)
      requires Balanced(books, entries, clipped, kvBytesPerToken) && kvBytesPerToken >= 0.0
      ensures Books() == SteppedBooks(books, entries[i], step, kvBytesPerToken)
      ensures Balanced(
        Books(), entries[i := Stepped(entries[i], step)], clipped + Cuts(books, entries[i]), kvBytesPerToken)
    {
      assert Books() == SteppedBooks(books, entries[i], step, kvBytesPerToken);
      BooksStepped(books, entries, clipped, i, step, kvBytesPerToken);
    }

    method Return(t: Ticket)
      requires t.Sound() && t.stage == Prefill
      modifies t, t.group, t.DGroup()
      ensures t.Sound() && t.View() == Stepped(old(t.View()), Returns)
      ensures forall g :: g in groups ==>
        g.Counters() == AfterStep(old(g.Counters()), old(t.View()), Returns, g, kvBytesPerToken)
    {
      LeaveStage(t);
      t.stage := Transfer;
      t.DGroup().inflightBytes := t.DGroup().inflightBytes + KvBytes(t.promptTokens, kvBytesPerToken);
      forall g | g in groups && g != t.group && g != t.DGroup()
        ensures g.Counters() == AfterPrefill(old(g.Counters()), old(t.View()), g, kvBytesPerToken)
      {
        Elsewhere(old(g.Counters()), old(t.View()), g, kvBytesPerToken);
      }
    }

    method MoveOn(t: Ticket, ghost i: nat)
      requires Valid() && i < |issued| && issued[i] == t && t.stage == Prefill
      modifies this, t, t.group, t.DGroup()
      ensures Valid() && issued == old(issued) && entries == old(entries)[i := Stepped(old(entries)[i], Returns)]
      ensures Books() == SteppedBooks(old(Books()), old(entries)[i], Returns, kvBytesPerToken)
      ensures clipped == old(clipped) + Cuts(old(Books()), old(entries)[i])
    {
      OthersOk(t, i);
      ghost var rest, books := Others(t), Books();
      Return(t);
      assert RestOk(rest, i);
      Rebooked(books, i, Returns);
      Follow(t, i, rest, Cuts(books, entries[i]));
    }

    /** P returned the request; late or repeated reports change nothing. */
    method PrefillDone(t: Ticket, ghost i: nat)
      requires Valid() && i < |issued| && issued[i] == t
      modifies this, t, t.group, t.DGroup()
      ensures Valid() && issued == old(issued)
      ensures Gone(old(Books()), old(entries), old(clipped), i, Returns)
    {
      OthersOk(t, i);
      if !t.finished && t.stage == Prefill { MoveOn(t, i); }
    }

    /** The step was taken if it could be, and nothing changed otherwise. */
    ghost predicate Gone(books: map<Group, Totals>, before: seq<Entry>, cut: set<Group>, i: nat, step: Step)
      requires i < |before|
      reads this, groups
    {
      if CanStep(before[i], step) then
        && entries == before[i := Stepped(before[i], step)] && clipped == cut + Cuts(books, before[i])
        && Books() == SteppedBooks(books, before[i], step, kvBytesPerToken)
      else entries == before && clipped == cut && Books() == books
    }

    method Start(t: Ticket, now: real)
      requires t.Sound() && t.firstTokenAt.None? && t.stage != Done
      modifies t, t.group, t.DGroup()
      ensures t.Sound() && t.View() == Stepped(old(t.View()), Starts) && t.firstTokenAt == Some(now)
      ensures forall g :: g in groups ==>
        g.Counters() == AfterStep(old(g.Counters()), old(t.View()), Starts, g, kvBytesPerToken)
    {
      t.firstTokenAt := Some(now);
      t.DGroup().nAwait := t.DGroup().nAwait - 1;
      t.DGroup().tAwait := t.DGroup().tAwait - t.promptTokens;
      LeaveStage(t);
      t.stage := Decode;
      t.DGroup().nDecoding := t.DGroup().nDecoding + 1;
      forall g | g in groups && g != t.group && g != t.DGroup()
        ensures g.Counters() == AfterFirst(old(g.Counters()), old(t.View()), g, kvBytesPerToken)
      {
        Elsewhere(old(g.Counters()), old(t.View()), g, kvBytesPerToken);
      }
    }

    method Begin(t: Ticket, ghost i: nat, now: real)
      requires Valid() && i < |issued| && issued[i] == t && t.firstTokenAt.None? && !t.finished
      modifies this, t, t.group, t.DGroup()
      ensures Valid() && issued == old(issued) && t.firstTokenAt == Some(now)
      ensures CanStep(old(entries)[i], Starts) && entries == old(entries)[i := Stepped(old(entries)[i], Starts)]
      ensures Books() == SteppedBooks(old(Books()), old(entries)[i], Starts, kvBytesPerToken)
      ensures clipped == old(clipped) + Cuts(old(Books()), old(entries)[i])
    {
      OthersOk(t, i);
      ghost var rest, books := Others(t), Books();
      Start(t, now);
      assert RestOk(rest, i);
      Rebooked(books, i, Starts);
      Follow(t, i, rest, Cuts(books, entries[i]));
    }

    /** The first token, also when it comes before P's own report; repeats change nothing. */
    method FirstToken(t: Ticket, ghost i: nat, now: real)
      requires Valid() && i < |issued| && issued[i] == t
      modifies this, t, t.group, t.DGroup()
      ensures Valid() && issued == old(issued)
      ensures Gone(old(Books()), old(entries), old(clipped), i, Starts)
      ensures CanStep(old(entries)[i], Starts) ==> t.firstTokenAt == Some(now)
    {
      OthersOk(t, i);
      if t.firstTokenAt.None? && !t.finished { Begin(t, i, now); }
    }

    method End(t: Ticket)
      requires t.Sound() && t.stage != Done
      modifies t, t.group, t.DGroup()
      ensures t.Sound() && t.View() == Stepped(old(t.View()), Ends) && t.finished
      ensures forall g :: g in groups ==>
        g.Counters() == AfterStep(old(g.Counters()), old(t.View()), Ends, g, kvBytesPerToken)
    {
      if t.firstTokenAt.None? {
        t.DGroup().nAwait := t.DGroup().nAwait - 1;
        t.DGroup().tAwait := t.DGroup().tAwait - t.promptTokens;
      }
      LeaveStage(t);
      t.stage := Done;
      t.group.nInflight := t.group.nInflight - 1;
      if t.decodeGroup != null { t.decodeGroup.nInflight := t.decodeGroup.nInflight - 1; }
      t.finished := true;
      forall g | g in groups && g != t.group && g != t.DGroup()
        ensures g.Counters() == AfterFinish(old(g.Counters()), old(t.View()), g, kvBytesPerToken)
      {
        Elsewhere(old(g.Counters()), old(t.View()), g, kvBytesPerToken);
      }
    }

    method Close(t: Ticket, ghost i: nat)
      requires Valid() && i < |issued| && issued[i] == t && !t.finished
      modifies this, t, t.group, t.DGroup()
      ensures Valid() && issued == old(issued) && t.id !in live && t.finished
      ensures CanStep(old(entries)[i], Ends) && entries == old(entries)[i := Stepped(old(entries)[i], Ends)]
      ensures Books() == SteppedBooks(old(Books()), old(entries)[i], Ends, kvBytesPerToken)
      ensures clipped == old(clipped) + Cuts(old(Books()), old(entries)[i])
    {
      OthersOk(t, i);
      ghost var rest, books := Others(t), Books();
      End(t);
      assert RestOk(rest, i);
      Rebooked(books, i, Ends);
      Follow(t, i, rest, Cuts(books, entries[i]));
    }

    /** The request ends, wherever it is; a second end changes nothing. */
    method Finish(t: Ticket, ghost i: nat)
      requires Valid() && i < |issued| && issued[i] == t
      modifies this, t, t.group, t.DGroup()
      ensures Valid() && issued == old(issued) && t.finished
      ensures Gone(old(Books()), old(entries), old(clipped), i, Ends)
      ensures CanStep(old(entries)[i], Ends) ==> t.id !in live
    {
      OthersOk(t, i);
      if !t.finished { Close(t, i); }
    }

    /** After every request finished nothing is reserved anywhere, except pending work where the clamp has cut. */
    lemma AllReleased()
      requires Valid() && forall i :: 0 <= i < |issued| ==> issued[i].finished
      ensures forall g :: g in groups ==> (g.Counters() == ZERO <==> g !in clipped)
      ensures forall g :: g in groups ==> g.Counters() == ZERO.(pendingMs := g.pendingMs)
      ensures CostsOk(entries) ==> clipped == {}
      ensures live == map[]
    {
      Look();
      forall i | 0 <= i < |entries| ensures entries[i].stage == Done {
        assert issued[i].View() == entries[i] && issued[i].Sound();
      }
      BooksReleased(Books(), entries, clipped, kvBytesPerToken);
      forall g | g in groups
        ensures (g.Counters() == ZERO <==> g !in clipped) && g.Counters() == ZERO.(pendingMs := g.pendingMs)
      {
        assert Books()[g] == g.Counters();
      }
      assert forall i :: 0 <= i < |issued| ==> issued[i].id !in live;
      assert live.Keys == {};
    }
  }

  // ---- the counters of one group after a step, clamps included ---------------------------------

  ghost function Left(c: Totals, e: Entry, g: Group, perToken: real): Totals {
    match e.stage
    case Prefill => if e.p == g then c.(nAtP := c.nAtP - 1, pendingMs := Floor0(c.pendingMs - e.sOwn)) else c
    case Transfer =>
      if e.d == g then c.(inflightBytes := Floor0(c.inflightBytes - KvBytes(e.tokens, perToken))) else c
    case Decode => if e.d == g then c.(nDecoding := c.nDecoding - 1) else c
    case Done => c
  }

  ghost function AfterPrefill(c: Totals, e: Entry, g: Group, perToken: real): Totals {
    var l := Left(c, e, g, perToken);
    if e.d == g then l.(inflightBytes := l.inflightBytes + KvBytes(e.tokens, perToken)) else l
  }

  ghost function NotAwaited(c: Totals, e: Entry, g: Group): Totals {
    if e.d == g && !e.started then c.(nAwait := c.nAwait - 1, tAwait := c.tAwait - e.tokens) else c
  }

  ghost function AfterFirst(c: Totals, e: Entry, g: Group, perToken: real): Totals {
    var l := Left(NotAwaited(c, e, g), e, g, perToken);
    if e.d == g then l.(nDecoding := l.nDecoding + 1) else l
  }

  ghost function AfterFinish(c: Totals, e: Entry, g: Group, perToken: real): Totals {
    var l := Left(NotAwaited(c, e, g), e, g, perToken);
    if e.p == g || e.d == g then l.(nInflight := l.nInflight - 1) else l
  }

  /** How a request goes on: its P returns it, it gets its first token, it ends. */
  datatype Step = Returns | Starts | Ends

  /** Early and late reports are taken, repeated ones are not. */
  predicate CanStep(e: Entry, step: Step) {
    match step
    case Returns => e.stage == Prefill
    case Starts => !e.started && (e.stage == Prefill || e.stage == Transfer)
    case Ends => e.stage != Done
  }

  function Stepped(e: Entry, step: Step): Entry {
    match step
    case Returns => e.(stage := Transfer)
    case Starts => e.(started := true, stage := Decode)
    case Ends => e.(stage := Done)
  }

  ghost function AfterStep(c: Totals, e: Entry, step: Step, g: Group, perToken: real): Totals {
    match step
    case Returns => AfterPrefill(c, e, g, perToken)
    case Starts => AfterFirst(c, e, g, perToken)
    case Ends => AfterFinish(c, e, g, perToken)
  }

  ghost function SteppedBooks(books: map<Group, Totals>, e: Entry, step: Step, perToken: real): map<Group, Totals> {
    map g | g in books :: AfterStep(books[g], e, step, g, perToken)
  }

  ghost function IssuedBooks(books: map<Group, Totals>, e: Entry, perToken: real): map<Group, Totals> {
    map g | g in books :: Plus(books[g], Share(e, g, perToken))
  }

  /** A group that has neither the P nor the D of the request is not touched. */
  lemma Elsewhere(c: Totals, e: Entry, g: Group, perToken: real)
    requires g != e.p && g != e.d
    ensures AfterPrefill(c, e, g, perToken) == c
    ensures AfterFirst(c, e, g, perToken) == c && AfterFinish(c, e, g, perToken) == c
  {}

  /** What one request reserves is part of the sum, so taking it off never goes below 0. */
  lemma Covers(entries: seq<Entry>, i: nat, g: Group, perToken: real)
    requires i < |entries| && perToken >= 0.0
    ensures Sum(entries, g, perToken).inflightBytes >= Share(entries[i], g, perToken).inflightBytes
    ensures CostsOk(entries) ==> Sum(entries, g, perToken).pendingMs >= Share(entries[i], g, perToken).pendingMs
  {
    var done := entries[i].(stage := Done);
    SumUpdate(entries, i, done, g, perToken);
    SumPositive(entries[i := done], g, perToken);
    if CostsOk(entries) { assert CostsOk(entries[i := done]); }
  }

  /** The clamp at 0 cuts: `e` leaves the prefill stage and takes more off than its group's pending work. */
  ghost predicate CutAt(c: Totals, e: Entry, g: Group) { e.stage == Prefill && e.p == g && c.pendingMs < e.sOwn }

  ghost function Cuts(books: map<Group, Totals>, e: Entry): set<Group> {
    if e.p in books && CutAt(books[e.p], e, e.p) then {e.p} else {}
  }

  /** All counters are the sums, except pending work that was cut; without a negative cost nothing was. */
  ghost predicate BooksOk(books: map<Group, Totals>, entries: seq<Entry>, clipped: set<Group>, perToken: real) {
    && (CostsOk(entries) ==> clipped == {})
    && forall g :: g in books ==> Agree(books[g], Sum(entries, g, perToken), g in clipped)
  }

  ghost predicate Balanced(books: map<Group, Totals>, entries: seq<Entry>, clipped: set<Group>, perToken: real) {
    forall n {:trigger Asked(n)} :: Asked(n) ==> BooksOk(books, entries, clipped, perToken)
  }

  lemma BooksIssued(books: map<Group, Totals>, entries: seq<Entry>, clipped: set<Group>, e: Entry, perToken: real)
    requires Balanced(books, entries, clipped, perToken)
    ensures Balanced(IssuedBooks(books, e, perToken), entries + [e], clipped, perToken)
  {
    assert Asked(0);
    if CostsOk(entries + [e]) {
      forall i | 0 <= i < |entries| ensures entries[i].sOwn >= 0.0 { assert (entries + [e])[i] == entries[i]; }
    }
    forall g | g in books
      ensures Agree(IssuedBooks(books, e, perToken)[g], Sum(entries + [e], g, perToken), g in clipped)
    {
      SumAppend(entries, e, g, perToken);
      Issued(books[g], Sum(entries, g, perToken), g in clipped, e, g, perToken);
    }
  }

  lemma BooksStepped(
    books: map<Group, Totals>, entries: seq<Entry>, clipped: set<Group>, i: nat, step: Step, perToken: real)
    requires Balanced(books, entries, clipped, perToken) && perToken >= 0.0
    requires i < |entries| && CanStep(entries[i], step) && entries[i].p in books
    ensures Balanced(
      SteppedBooks(books, entries[i], step, perToken), entries[i := Stepped(entries[i], step)],
      clipped + Cuts(books, entries[i]), perToken)
  {
    assert Asked(0);
    var e := entries[i];
    var after := entries[i := Stepped(e, step)];
    if CostsOk(after) {
      assert forall j :: 0 <= j < |entries| ==> entries[j].sOwn == after[j].sOwn;
      Covers(entries, i, e.p, perToken);
    }
    forall g | g in books
      ensures Agree(
        SteppedBooks(books, e, step, perToken)[g], Sum(after, g, perToken), g in clipped + Cuts(books, e))
    {
      AfterStepAgrees(books[g], entries, i, step, g, perToken, g in clipped);
    }
  }

  lemma BooksReleased(books: map<Group, Totals>, entries: seq<Entry>, clipped: set<Group>, perToken: real)
    requires Balanced(books, entries, clipped, perToken) && forall i :: 0 <= i < |entries| ==> entries[i].stage == Done
    ensures forall g :: g in books ==> (books[g] == ZERO <==> g !in clipped)
    ensures forall g :: g in books ==> books[g] == ZERO.(pendingMs := books[g].pendingMs)
    ensures CostsOk(entries) ==> clipped == {}
  {
    assert Asked(0);
    forall g | g in books
      ensures (books[g] == ZERO <==> g !in clipped) && books[g] == ZERO.(pendingMs := books[g].pendingMs)
    {
      NothingLeft(entries, g, perToken);
      assert Agree(books[g], Sum(entries, g, perToken), g in clipped);
    }
  }

  /** The counters after a step are again the sums over the tickets, with one more cut when the clamp cuts. */
  lemma AfterStepAgrees(
    c: Totals, entries: seq<Entry>, i: nat, step: Step, g: Group, perToken: real, cut: bool)
    requires i < |entries| && perToken >= 0.0 && CanStep(entries[i], step) && Agree(c, Sum(entries, g, perToken), cut)
    ensures Agree(
      AfterStep(c, entries[i], step, g, perToken), Sum(entries[i := Stepped(entries[i], step)], g, perToken),
      cut || CutAt(c, entries[i], g))
  {
    Covers(entries, i, g, perToken);
    SumUpdate(entries, i, Stepped(entries[i], step), g, perToken);
  }

  /** What the pending work has more than its sum. */
  ghost function Drift(c: Totals, entries: seq<Entry>, g: Group, perToken: real): real {
    c.pendingMs - Sum(entries, g, perToken).pendingMs
  }

  /**
    A step keeps the pending work in balance exactly when it covers the cost of a request that leaves P,
    the clamp's own guard; what is cut otherwise is never taken back.
  */
  lemma ClampExactly(c: Totals, entries: seq<Entry>, i: nat, step: Step, g: Group, perToken: real)
    requires i < |entries| && CanStep(entries[i], step)
    ensures var e := entries[i];
      var drift := Drift(c, entries, g, perToken);
      var drift' := Drift(AfterStep(c, e, step, g, perToken), entries[i := Stepped(e, step)], g, perToken);
      && drift' == drift + (if e.stage == Prefill && e.p == g && c.pendingMs < e.sOwn then e.sOwn - c.pendingMs else 0.0)
      && drift' >= drift
      && (drift' == drift <==> (e.stage == Prefill && e.p == g ==> c.pendingMs >= e.sOwn))
  {
    SumUpdate(entries, i, Stepped(entries[i], step), g, perToken);
  }

  // ---- a cost below 0 --------------------------------------------------------------------------

  /** Two measured lengths of which the longer was faster: the last segment falls. */
  const FALLING: seq<Prefills.Point> := [Prefills.Point(1, 10.0), Prefills.Point(2, 5.0)]

  /** What a prompt of 6 tokens and one of 1 token cost by this table. */
  method FallingCosts() returns (long: real, short: real)
    ensures Sorting.Ascending(Prefills.Xs(FALLING))
    ensures long == Prefills.Cost(FALLING, 6) == -15.0 && short == Prefills.Cost(FALLING, 1) == 10.0
  {
    assert Prefills.Xs(FALLING) == [1, 2];
    long, short := Prefills.Cost(FALLING, 6), Prefills.Cost(FALLING, 1);
    assert Prefills.TailSlope(FALLING) == -5.0 && Prefills.Tokens(FALLING, 6) == 4.0;
    Prefills.CostBeyond(FALLING, 6);
  }

  ghost predicate TwoTickets(router: Router, g: Group, long: Ticket, short: Ticket, stage: Stage)
    reads router, router.issued, router.groups
  {
    && router.Valid() && router.issued == [long, short] && router.groups == {g}
    && long.group == g && long.DGroup() == g && short.group == g && short.DGroup() == g
    && router.entries ==
      [Entry(g, g, 6, -15.0, false, stage), Entry(g, g, 1, 10.0, false, stage)]
  }

  method NewLedger() returns (router: Router, g: Group)
    ensures fresh(router) && fresh(g) && router.Valid() && router.groups == {g}
    ensures router.issued == [] && router.entries == [] && router.clipped == {} && g.pendingMs == 0.0
  {
    g := new Group();
    assert g.Counters().pendingMs == 0.0;
    router := new Router({g}, 1.0, true);
  }

  method OneIssued(cost: real) returns (router: Router, g: Group, long: Ticket)
    ensures fresh(router) && fresh(g) && fresh(long) && router.Valid() && router.groups == {g}
    ensures router.issued == [long] && router.entries == [Entry(g, g, 6, cost, false, Prefill)]
    ensures long.group == g && long.DGroup() == g && g.pendingMs == cost && router.clipped == {}
  {
    router, g := NewLedger();
    long := router.Issue(g, g, 6, cost);
    assert router.Books()[g] == g.Counters();
  }

  method TwoIssued(longCost: real, shortCost: real) returns (router: Router, g: Group, long: Ticket, short: Ticket)
    requires longCost == -15.0 && shortCost == 10.0
    ensures fresh(router) && fresh(g) && fresh(long) && fresh(short) && long != short
    ensures TwoTickets(router, g, long, short, Prefill) && g.pendingMs == -5.0 && router.clipped == {}
  {
    router, g, long := OneIssued(longCost);
    short := router.Issue(g, g, 1, shortCost);
    assert router.Books()[g] == g.Counters();
  }

  /** The short one returns first: 10 ms are taken off -5, and the clamp leaves 0. */
  method TwoReturned(router: Router, g: Group, long: Ticket, short: Ticket)
    requires TwoTickets(router, g, long, short, Prefill) && long != short && g.pendingMs == -5.0
    modifies router, g, long, short
    ensures TwoTickets(router, g, long, short, Transfer) && g.pendingMs == 15.0 && router.clipped == old(router.clipped) + {g}
  {
    assert router.Books()[g] == g.Counters();
    router.PrefillDone(short, 1);
    assert g.pendingMs == 0.0 by { assert router.Books()[g] == g.Counters(); }
    router.PrefillDone(long, 0);
    assert g.pendingMs == 15.0 by { assert router.Books()[g] == g.Counters(); }
  }

  /** A long and a short prompt, served to the end: 15 ms of work stay pending at a group that has none. */
  method NegativeCostDrifts() returns (router: Router, g: Group, long: Ticket, short: Ticket)
    ensures fresh(router) && router.Valid() && router.issued == [long, short] && router.groups == {g}
    ensures long.finished && short.finished && g.pendingMs == 15.0 && router.clipped == {g}
  {
    var longCost, shortCost := FallingCosts();
    router, g, long, short := TwoIssued(longCost, shortCost);
    TwoReturned(router, g, long, short);
    TwoFinished(router, g, long, short);
  }

  method TwoFinished(router: Router, g: Group, long: Ticket, short: Ticket)
    requires TwoTickets(router, g, long, short, Transfer) && long != short && g.pendingMs == 15.0
    modifies router, g, long, short
    ensures router.Valid() && router.issued == old(router.issued) && long.finished && short.finished
    ensures g.pendingMs == 15.0 && router.clipped == old(router.clipped)
  {
    router.Finish(short, 1);
    assert g.pendingMs == 15.0 by { assert router.Books()[g] == g.Counters(); }
    router.Finish(long, 0);
    assert g.pendingMs == 15.0 by { assert router.Books()[g] == g.Counters(); }
  }
}
