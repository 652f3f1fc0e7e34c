/**
  Clock changes of a P/D group, and which request outcomes may enter the risk table.

  A change locks P and D, waits for both, and settles. The router sees the group's effective
  point; every change takes a new epoch when it begins and another one when it settles.
*/
module ClockProtocol {
  import opened Groups
  import opened Options
  import opened RiskTable
  import opened Tallies

  datatype Tier = Park | L | H | MaxTier

  datatype Lock = Pending | Ended(ok: bool)

  /** The two GPUs of a group. */
  datatype Side = P | D

  function Mhz(point: ClockPoint, side: Side): nat {
    if side.P? then point.prefillMhz else point.decodeMhz
  }

  function Moved(point: ClockPoint, side: Side, mhz: nat): ClockPoint {
    if side.P? then point.(prefillMhz := mhz) else point.(decodeMhz := mhz)
  }

  /** A `set_tier` call that waits for its locks. */
  datatype Change = Change(tier: Tier, target: ClockPoint, was: Option<ClockPoint>, p: Lock, d: Lock)

  function LockOf(c: Change, side: Side): Lock { if side.P? then c.p else c.d }

  function WithLock(c: Change, side: Side, lock: Lock): Change {
    if side.P? then c.(p := lock) else c.(d := lock)
  }

  /** When to lock again, and how long was waited for it. */
  datatype Backoff = Backoff(at: real, delay: real)

  /** What the router may assume while `c` is in flight. */
  function Meanwhile(c: Change): Option<ClockPoint> {
    if c.tier == Park || c.was.None? then None else Some(Slower(c.was.value, c.target))
  }

  /** What the router may assume once `c` has settled, `now` being what it could assume before. */
  function Settled(c: Change, ok: bool, now: Option<ClockPoint>): Option<ClockPoint> {
    if c.tier == Park then now
    else if ok then Some(c.target)
    else if c.was.Some? then Some(Slower(c.was.value, c.target)) else now
  }

  function NextDelay(retry: Option<Backoff>, period: real, tDown: real): real {
    var delay := 2.0 * (if retry.Some? then retry.value.delay else period / 2.0);
    if delay < tDown then delay else tDown
  }

  /** Repeated failures double the wait, up to the limit. */
  lemma BackoffDoubles(retry: Option<Backoff>, period: real, tDown: real)
    requires period > 0.0 && tDown > 0.0 && (retry.Some? ==> 0.0 < retry.value.delay <= tDown)
    ensures 0.0 < NextDelay(retry, period, tDown) <= tDown
    ensures retry.Some? ==> retry.value.delay <= NextDelay(retry, period, tDown)
    ensures retry.None? && period <= tDown ==> NextDelay(retry, period, tDown) == period
  {}

  /** The point assumed is nowhere above the actual clocks. */
  ghost predicate Safe(effective: Option<ClockPoint>, actual: ClockPoint) {
    effective.Some? ==> Below(effective.value, actual)
  }

  // ---- what the changes in flight can still do ------------------------------------------------

  /** A group: what it is meant to be, what the router assumes, where the hardware is, what is in flight. */
  datatype State = State(tier: Tier, effective: Option<ClockPoint>, actual: ClockPoint, changes: map<nat, Change>)

  /**
    What happens to a change in flight. A lock that is "ok" has reached the target; one that failed
    may have reached it all the same.
  */
  datatype Move = LockEnds(call: nat, side: Side, ok: bool, moved: bool) | Settles(call: nat)

  predicate Enabled(s: State, m: Move) {
    && m.call in s.changes
    && match m
       case LockEnds(call, side, _, _) => LockOf(s.changes[call], side) == Pending
       case Settles(call) => s.changes[call].p.Ended? && s.changes[call].d.Ended?
  }

  function Next(s: State, m: Move): State
    requires Enabled(s, m)
  {
    var c := s.changes[m.call];
    match m
    case LockEnds(call, side, ok, moved) =>
      s.(
        changes := s.changes[call := WithLock(c, side, Ended(ok))],
        actual := if ok || moved then Moved(s.actual, side, Mhz(c.target, side)) else s.actual)
    case Settles(call) =>
      s.(
        changes := s.changes - {call},
        effective := if s.tier == c.tier then Settled(c, c.p.ok && c.d.ok, s.effective) else s.effective)
  }

  function Begun(s: State, call: nat, tier: Tier, target: ClockPoint): State {
    var c := Change(tier, target, s.effective, Pending, Pending);
    s.(tier := tier, changes := s.changes[call := c], effective := Meanwhile(c))
  }

  /** One thing after the other; what cannot happen is passed over. */
  function After(s: State, moves: seq<Move>): State
    decreases |moves|
  {
    if moves == [] then s
    else After(if Enabled(s, moves[0]) then Next(s, moves[0]) else s, moves[1..])
  }

  /** Whatever the changes in flight do, in whatever order, the router never assumes too much. */
  ghost predicate AlwaysSafe(s: State) {
    forall moves: seq<Move> :: Safe(After(s, moves).effective, After(s, moves).actual)
  }

  /** No lock in flight takes this side below `mhz`. */
  ghost predicate Lasts(s: State, side: Side, mhz: nat) {
    forall i :: i in s.changes && LockOf(s.changes[i], side) == Pending ==> mhz <= Mhz(s.changes[i].target, side)
  }

  /** This side is at `mhz` or above and stays there. */
  ghost predicate Firm(s: State, side: Side, mhz: nat) { mhz <= Mhz(s.actual, side) && Lasts(s, side, mhz) }

  ghost predicate FirmPoint(s: State, point: ClockPoint) {
    Firm(s, P, point.prefillMhz) && Firm(s, D, point.decodeMhz)
  }

  predicate CanFail(c: Change) { c.p != Ended(true) || c.d != Ended(true) }

  predicate CanHold(c: Change) { c.p != Ended(false) && c.d != Ended(false) }

  /** Should `c` hold, this side is at its target and stays there. */
  ghost predicate Reached(s: State, c: Change, side: Side) {
    if LockOf(c, side) == Pending then Lasts(s, side, Mhz(c.target, side)) else Firm(s, side, Mhz(c.target, side))
  }

  /** Whatever `c` will let the router assume is true then and stays true. */
  ghost predicate Ready(s: State, c: Change) {
    && (CanFail(c) && c.was.Some? ==> FirmPoint(s, Slower(c.was.value, c.target)))
    && (CanHold(c) ==> Reached(s, c, P) && Reached(s, c, D))
  }

  /** The point assumed now is firm, and so is every point that a change of the current tier can settle with. */
  ghost predicate Trusted(s: State) {
    && (s.effective.Some? ==> FirmPoint(s, s.effective.value))
    && (s.tier != Park ==> forall i :: i in s.changes && s.changes[i].tier == s.tier ==> Ready(s, s.changes[i]))
  }

  lemma LockKeeps(s: State, m: Move)
    requires Trusted(s) && Enabled(s, m) && m.LockEnds?
    ensures Trusted(Next(s, m))
  {
    var s' := Next(s, m);
    forall side, mhz | Firm(s, side, mhz) ensures Firm(s', side, mhz) { FirmStays(s, m, side, mhz); }
    if s.tier != Park {
      forall i | i in s'.changes && s'.changes[i].tier == s.tier ensures Ready(s', s'.changes[i]) {
        assert Ready(s, s.changes[i]);
        ReachedStays(s, m, i, P);
        ReachedStays(s, m, i, D);
      }
    }
  }

  lemma FirmStays(s: State, m: Move, side: Side, mhz: nat)
    requires Enabled(s, m) && Firm(s, side, mhz)
    ensures Firm(Next(s, m), side, mhz)
  {
    var s' := Next(s, m);
    forall i | i in s'.changes && LockOf(s'.changes[i], side) == Pending
      ensures mhz <= Mhz(s'.changes[i].target, side)
    {
      assert LockOf(s.changes[i], side) == Pending;
    }
  }

  lemma ReachedStays(s: State, m: Move, i: nat, side: Side)
    requires Enabled(s, m) && m.LockEnds? && i in s.changes
    requires CanHold(Next(s, m).changes[i]) && CanHold(s.changes[i]) ==> Reached(s, s.changes[i], side)
    ensures CanHold(Next(s, m).changes[i]) ==> Reached(Next(s, m), Next(s, m).changes[i], side)
  {
    var s' := Next(s, m);
    var c := s.changes[i];
    if CanHold(s'.changes[i]) {
      forall k | k in s'.changes && LockOf(s'.changes[k], side) == Pending
        ensures Mhz(c.target, side) <= Mhz(s'.changes[k].target, side)
      {
        assert LockOf(s.changes[k], side) == Pending;
      }
    }
  }

  lemma SettleKeeps(s: State, m: Move)
    requires Trusted(s) && Enabled(s, m) && m.Settles?
    ensures Trusted(Next(s, m))
  {
    var s' := Next(s, m);
    forall side, mhz | Firm(s, side, mhz) ensures Firm(s', side, mhz) { FirmStays(s, m, side, mhz); }
    var c := s.changes[m.call];
    if s.tier != Park {
      assert s.tier == c.tier ==> Ready(s, c);
      forall i | i in s'.changes && s'.changes[i].tier == s.tier ensures Ready(s', s'.changes[i]) {
        assert Ready(s, s.changes[i]);
        LastsStays(s, m, P, s.changes[i].target.prefillMhz);
        LastsStays(s, m, D, s.changes[i].target.decodeMhz);
      }
    }
  }

  lemma LastsStays(s: State, m: Move, side: Side, mhz: nat)
    requires Enabled(s, m) && m.Settles?
    ensures Lasts(s, side, mhz) ==> Lasts(Next(s, m), side, mhz)
  {}

  lemma {:induction false} TrustedStays(s: State, moves: seq<Move>)
    requires Trusted(s)
    ensures Trusted(After(s, moves))
    decreases |moves|
  {
    if moves != [] {
      var m := moves[0];
      if Enabled(s, m) {
        if m.LockEnds? { LockKeeps(s, m); } else { SettleKeeps(s, m); }
        TrustedStays(Next(s, m), moves[1..]);
      } else {
        TrustedStays(s, moves[1..]);
      }
    }
  }

  lemma FirstMove(s: State, m: Move, rest: seq<Move>)
    requires Enabled(s, m)
    ensures After(s, [m] + rest) == After(Next(s, m), rest)
  {
    assert ([m] + rest)[1..] == rest;
  }

  /** A point that is not firm is too high now, or after one more lock. */
  lemma NotFirm(s: State, side: Side) returns (moves: seq<Move>)
    requires s.effective.Some? && !Firm(s, side, Mhz(s.effective.value, side))
    ensures !Safe(After(s, moves).effective, After(s, moves).actual)
  {
    if Mhz(s.effective.value, side) > Mhz(s.actual, side) {
      moves := [];
    } else {
      var i :| i in s.changes && LockOf(s.changes[i], side) == Pending
        && Mhz(s.effective.value, side) > Mhz(s.changes[i].target, side);
      var m := LockEnds(i, side, true, true);
      moves := [m] + [];
      FirstMove(s, m, []);
    }
  }

  function Waiting(c: Change): nat { (if c.p == Pending then 1 else 0) + (if c.d == Pending then 1 else 0) }

  /** A change whose failure is not safe can fail. */
  lemma {:induction false} FailBetrays(s: State, i: nat, side: Side) returns (moves: seq<Move>)
    requires i in s.changes && s.changes[i].tier == s.tier != Park && CanFail(s.changes[i]) && s.changes[i].was.Some?
    requires !Firm(s, side, Mhz(Slower(s.changes[i].was.value, s.changes[i].target), side))
    ensures !Safe(After(s, moves).effective, After(s, moves).actual)
    decreases Waiting(s.changes[i])
  {
    var c := s.changes[i];
    var m := if c.p == Pending then LockEnds(i, P, false, false)
      else if c.d == Pending then LockEnds(i, D, false, false) else Settles(i);
    var point := Slower(c.was.value, c.target);
    StillNotFirm(s, m, side, Mhz(point, side));
    var rest;
    if m.Settles? {
      assert Next(s, m).effective == Some(point);
      rest := NotFirm(Next(s, m), side);
    } else {
      rest := FailBetrays(Next(s, m), i, side);
    }
    moves := [m] + rest;
    FirstMove(s, m, rest);
  }

  /** What is not firm stays so while a change moves that does not touch it. */
  lemma StillNotFirm(s: State, m: Move, side: Side, mhz: nat)
    requires Enabled(s, m) && !Firm(s, side, mhz)
    requires m.LockEnds? ==> !m.ok && !m.moved && mhz <= Mhz(s.changes[m.call].target, side)
    ensures !Firm(Next(s, m), side, mhz)
  {
    var s' := Next(s, m);
    if mhz <= Mhz(s.actual, side) {
      var j :| j in s.changes && LockOf(s.changes[j], side) == Pending && mhz > Mhz(s.changes[j].target, side);
      assert j != m.call && s'.changes[j] == s.changes[j];
    }
  }

  /** A change whose success is not safe can succeed. */
  lemma {:induction false} HoldBetrays(s: State, i: nat, side: Side) returns (moves: seq<Move>)
    requires i in s.changes && s.changes[i].tier == s.tier != Park && CanHold(s.changes[i])
    requires !Reached(s, s.changes[i], side)
    ensures !Safe(After(s, moves).effective, After(s, moves).actual)
    decreases Waiting(s.changes[i])
  {
    var c := s.changes[i];
    var m := if c.p == Pending then LockEnds(i, P, true, true)
      else if c.d == Pending then LockEnds(i, D, true, true) else Settles(i);
    var rest;
    if m.Settles? {
      StillNotFirm(s, m, side, Mhz(c.target, side));
      assert Next(s, m).effective == Some(c.target);
      rest := NotFirm(Next(s, m), side);
    } else {
      StillNotReached(s, m, side);
      rest := HoldBetrays(Next(s, m), i, side);
    }
    moves := [m] + rest;
    FirstMove(s, m, rest);
  }

  lemma StillNotReached(s: State, m: Move, side: Side)
    requires Enabled(s, m) && m.LockEnds? && m.ok && !Reached(s, s.changes[m.call], side)
    ensures !Reached(Next(s, m), Next(s, m).changes[m.call], side)
  {
    var s', c := Next(s, m), s.changes[m.call];
    if LockOf(c, side) == Pending || Mhz(c.target, side) <= Mhz(s.actual, side) {
      var j :| j in s.changes && LockOf(s.changes[j], side) == Pending
        && Mhz(c.target, side) > Mhz(s.changes[j].target, side);
      assert j != m.call && s'.changes[j] == s.changes[j];
    }
  }

  /** The exact condition: every order of the locks and settlements in flight is safe when the state can be trusted, and only then. */
  lemma TrustedExactly(s: State)
    ensures AlwaysSafe(s) <==> Trusted(s)
  {
    if Trusted(s) {
      forall moves: seq<Move> ensures Safe(After(s, moves).effective, After(s, moves).actual) { TrustedStays(s, moves); }
    } else {
      var moves := Betrayal(s);
      assert !Safe(After(s, moves).effective, After(s, moves).actual);
    }
  }

  lemma Betrayal(s: State) returns (moves: seq<Move>)
    requires !Trusted(s)
    ensures !Safe(After(s, moves).effective, After(s, moves).actual)
  {
    if s.effective.Some? && !FirmPoint(s, s.effective.value) {
      moves := NotFirm(s, if Firm(s, P, s.effective.value.prefillMhz) then D else P);
    } else {
      var i :| i in s.changes && s.changes[i].tier == s.tier && !Ready(s, s.changes[i]);
      var c := s.changes[i];
      if CanFail(c) && c.was.Some? && !FirmPoint(s, Slower(c.was.value, c.target)) {
        moves := FailBetrays(s, i, if Firm(s, P, Slower(c.was.value, c.target).prefillMhz) then D else P);
      } else {
        moves := HoldBetrays(s, i, if Reached(s, c, P) then D else P);
      }
    }
  }

  // ---- when a change may begin ------------------------------------------------------------------

  /** A lone change is safe when the point it shows is. */
  lemma LoneBegin(s: State, call: nat, tier: Tier, target: ClockPoint)
    requires s.changes == map[]
    ensures var s' := Begun(s, call, tier, target); Trusted(s') <==> Safe(s'.effective, s'.actual)
    ensures Safe(s.effective, s.actual) ==> Trusted(Begun(s, call, tier, target))
  {
    var s' := Begun(s, call, tier, target);
    assert forall i :: i in s'.changes <==> i == call;
  }

  /** No lock in flight may go below the target of the new change. */
  ghost predicate Covered(s: State, target: ClockPoint) {
    Lasts(s, P, target.prefillMhz) && Lasts(s, D, target.decodeMhz)
  }

  /** While changes to other tiers are in flight, another one may begin exactly when none of their locks goes below its target. */
  lemma OverlapExactly(s: State, call: nat, tier: Tier, target: ClockPoint)
    requires Trusted(s) && call !in s.changes && tier != Park
    requires forall i :: i in s.changes ==> s.changes[i].tier != tier
    ensures AlwaysSafe(Begun(s, call, tier, target)) <==> Covered(s, target)
  {
    var s' := Begun(s, call, tier, target);
    TrustedExactly(s');
    BegunLasts(s, call, tier, target);
    forall i | i in s'.changes && s'.changes[i].tier == s'.tier ensures i == call {}
    assert Ready(s', s'.changes[call]) <==> Covered(s, target);
  }

  lemma BegunLasts(s: State, call: nat, tier: Tier, target: ClockPoint)
    requires call !in s.changes
    ensures forall side, mhz: nat {:trigger Lasts(Begun(s, call, tier, target), side, mhz)} ::
      Lasts(Begun(s, call, tier, target), side, mhz) <==> Lasts(s, side, mhz) && mhz <= Mhz(target, side)
  {
    var s' := Begun(s, call, tier, target);
    forall side, mhz: nat ensures Lasts(s', side, mhz) <==> Lasts(s, side, mhz) && mhz <= Mhz(target, side) {
      assert s'.changes[call].target == target && LockOf(s'.changes[call], side) == Pending;
      forall i | i in s.changes ensures s'.changes[i] == s.changes[i] {}
    }
  }

  /** For one change in flight to `t0`, none of its locks ended: exactly when the new target is nowhere above `t0`. */
  lemma SecondExactly(s: State, first: nat, call: nat, tier: Tier, target: ClockPoint)
    requires Trusted(s) && s.changes.Keys == {first} && first != call
    requires s.changes[first].p == Pending && s.changes[first].d == Pending
    requires tier != Park && tier != s.changes[first].tier
    ensures AlwaysSafe(Begun(s, call, tier, target)) <==> Below(target, s.changes[first].target)
  {
    assert forall i :: i in s.changes <==> i == first;
    OverlapExactly(s, call, tier, target);
  }

  /** A second change to the same tier, as a retry is: exactly when its target is the same. */
  lemma RetryExactly(s: State, first: nat, call: nat, target: ClockPoint)
    requires Trusted(s) && s.changes.Keys == {first} && first != call
    requires s.changes[first].p == Pending && s.changes[first].d == Pending
    requires s.tier == s.changes[first].tier != Park
    ensures AlwaysSafe(Begun(s, call, s.tier, target)) <==> target == s.changes[first].target
  {
    var s' := Begun(s, call, s.tier, target);
    TrustedExactly(s');
    BegunLasts(s, call, s.tier, target);
    assert forall i :: i in s'.changes <==> i == first || i == call;
    assert s'.changes[first] == s.changes[first] && Ready(s, s.changes[first]);
    if Trusted(s') {
      assert Ready(s', s'.changes[first]) && Ready(s', s'.changes[call]);
    }
  }

  /** Parking may begin at any time: the router is shown no point. */
  lemma ParkBegins(s: State, call: nat, target: ClockPoint)
    ensures AlwaysSafe(Begun(s, call, Park, target))
  {
    TrustedExactly(Begun(s, call, Park, target));
  }

  /** A group, and the effective point under each of its epochs so far. */
  datatype Clocks = Clocks(state: State, log: seq<Option<ClockPoint>>)

  class ClockGroup {
    var tier: Tier
    var effective: Option<ClockPoint>
    var epoch: nat
    var retry: Option<Backoff>
    var changes: map<nat, Change>           // by call
    ghost var actual: ClockPoint            // where the hardware is
    ghost var log: seq<Option<ClockPoint>>  // history: the effective point under every epoch

    ghost function View(): State
      reads this
    {
      State(tier, effective, actual, changes)
    }

    ghost function Past(): Clocks
      reads this
    {
      Clocks(View(), log)
    }

    /** Every epoch has its one effective point. */
    ghost predicate Valid()
      reads this
    {
      |log| == epoch + 1 && log[epoch] == effective
    }

    constructor (actual: ClockPoint)
      ensures Valid() && View() == State(Park, None, actual, map[]) && Trusted(View()) && log == [None] && retry.None?
    {
      tier, effective, epoch, retry, changes := Park, None, 0, None, map[];
      this.actual, log := actual, [None];
    }

    method Begin(call: nat, tier: Tier, target: ClockPoint)
      requires Valid() && call !in changes
      modifies this
      ensures Valid() && View() == Begun(old(View()), call, tier, target)
      ensures epoch == old(epoch) + 1 && log == old(log) + [effective] && retry == old(retry)
    {
      this.tier := tier;
      epoch := epoch + 1;
      changes := changes[call := Change(tier, target, effective, Pending, Pending)];
      effective := Meanwhile(changes[call]);
      log := log + [effective];
    }

    /** A lock ends: "ok" means the target, anything else the target or the clock it had. */
    method Locked(call: nat, side: Side, ok: bool, ghost moved: bool)
      requires Valid() && call in changes && LockOf(changes[call], side) == Pending
      modifies this`changes, this`actual
      ensures Valid() && View() == Next(old(View()), LockEnds(call, side, ok, moved))
      ensures old(Trusted(View())) ==> Trusted(View())
    {
      ghost var before := View();
      if Trusted(before) { LockKeeps(before, LockEnds(call, side, ok, moved)); }
      changes := changes[call := WithLock(changes[call], side, Ended(ok))];
      if ok || moved { actual := Moved(actual, side, Mhz(changes[call].target, side)); }
    }

    /** Both locks ended. A call that another one has overtaken changes nothing but the epoch. */
    method Settle(call: nat, now: real, period: real, tDown: real)
      requires Valid() && call in changes && changes[call].p.Ended? && changes[call].d.Ended?
      modifies this
      ensures Valid() && View() == Next(old(View()), Settles(call))
      ensures old(Trusted(View())) ==> Trusted(View())
      ensures epoch == old(epoch) + 1 && log == old(log) + [effective]
      ensures var c := old(changes)[call];
        retry == if old(tier) != c.tier then old(retry) else if c.p.ok && c.d.ok then None else
          Some(Backoff(now + NextDelay(old(retry), period, tDown), NextDelay(old(retry), period, tDown)))
    {
      ghost var before := View();
      if Trusted(before) { SettleKeeps(before, Settles(call)); }
      var c := changes[call];
      var ok := c.p.ok && c.d.ok;
      if tier == c.tier {
        if ok {
          retry := None;
        } else {
          var delay := NextDelay(retry, period, tDown);
          retry := Some(Backoff(now + delay, delay));
        }
      }
      if c.tier != Park && tier == c.tier {
        if ok {
          effective := Some(c.target);
        } else if c.was.Some? {
          effective := Some(Slower(c.was.value, c.target));
        }
      }
      epoch := epoch + 1;
      log := log + [effective];
      changes := changes - {call};
    }
  }

  /** Both locks of a change hold, in either order. */
  method BothHold(g: ClockGroup, call: nat, first: Side)
    requires g.Valid() && call in g.changes && g.changes[call].p == Pending && g.changes[call].d == Pending
    modifies g`changes, g`actual
    ensures g.Valid() && g.actual == old(g.changes)[call].target
    ensures g.changes == old(g.changes)[call := old(g.changes)[call].(p := Ended(true), d := Ended(true))]
  {
    g.Locked(call, first, true, true);
    g.Locked(call, if first.P? then D else P, true, true);
  }

  /**
    Two overlapping changes whose locks land in the wrong order: the router ends above the hardware
    exactly when the second target is somewhere above the first.
  */
  method OverlapUnsafe(first: Tier, t0: ClockPoint, second: Tier, t1: ClockPoint) returns (g: ClockGroup)
    requires second != Park && first != second
    ensures fresh(g) && g.Valid() && g.changes == map[] && g.effective == Some(t1) && g.actual == t0
    ensures Safe(g.effective, g.actual) <==> Below(t1, t0)
  {
    g := new ClockGroup(t0);
    g.Begin(0, first, t0);
    g.Begin(1, second, t1);
    BothHold(g, 1, P);
    BothHold(g, 0, P);
    g.Settle(0, 0.0, 1.0, 30.0);
    g.Settle(1, 0.0, 1.0, 30.0);
  }

  /** Whatever happened before: a lone change whose locks both hold can be trusted again. */
  method LoneChange(g: ClockGroup, call: nat, tier: Tier, target: ClockPoint, first: Side, now: real, period: real, tDown: real)
    requires g.Valid() && g.changes == map[] && tier != Park
    modifies g
    ensures g.Valid() && g.View() == State(tier, Some(target), target, map[]) && Trusted(g.View()) && g.retry.None?
  {
    g.Begin(call, tier, target);
    BothHold(g, call, first);
    g.Settle(call, now, period, tDown);
  }

  // ---- clean samples -------------------------------------------------------------------------

  /** What the router remembers of an admission. */
  class Ticket {
    const p: ClockGroup
    const d: ClockGroup
    const cell: Cell
    const promptExact: bool
    const clockEpoch: nat
    const decodeEpoch: nat
    var finished: bool
    ghost const logP: seq<Option<ClockPoint>>  // the P group's history at admission
    ghost const logD: seq<Option<ClockPoint>>

    constructor (p: ClockGroup, d: ClockGroup, cell: Cell, promptExact: bool)
      ensures this.p == p && this.d == d && this.cell == cell && this.promptExact == promptExact
      ensures clockEpoch == p.epoch && decodeEpoch == d.epoch && logP == p.log && logD == d.log && !finished
    {
      this.p, this.d, this.cell, this.promptExact, finished := p, d, cell, promptExact, false;
      clockEpoch, decodeEpoch := p.epoch, d.epoch;
      logP, logD := p.log, d.log;
    }

    /** The groups only went on since the admission, whose clocks are the cell's. */
    ghost predicate Valid()
      reads this, p, d
    {
      && p.Valid() && d.Valid()
      && |logP| == clockEpoch + 1 && |logD| == decodeEpoch + 1 && logP <= p.log && logD <= d.log
      && logP[clockEpoch].Some? && logD[decodeEpoch].Some?
      && cell.clock == ClockPoint(logP[clockEpoch].value.prefillMhz, logD[decodeEpoch].value.decodeMhz)
    }

    /** No change of either group began or settled since the admission. */
    ghost predicate Undisturbed()
      reads this, p, d
    {
      p.log == logP && d.log == logD
    }
  }

  /** Admission on the P of one group and the D of the same or another one. */
  method Admit(p: ClockGroup, d: ClockGroup, b: Buckets, nAwait: nat, tokens: nat, busy: bool, exact: bool)
    returns (t: Ticket)
    requires p.Valid() && d.Valid() && p.effective.Some? && d.effective.Some?
    ensures fresh(t) && t.Valid() && t.p == p && t.d == d && t.promptExact == exact && !t.finished
    ensures t.logP == p.log && t.logD == d.log
    ensures t.cell == CellFor(
      b, ClockPoint(p.effective.value.prefillMhz, d.effective.value.decodeMhz), nAwait, tokens, busy)
  {
    var clock := if p == d then p.effective.value
      else ClockPoint(p.effective.value.prefillMhz, d.effective.value.decodeMhz);
    t := new Ticket(p, d, CellFor(b, clock, nAwait, tokens, busy), exact);
  }

  datatype Skip = Repeated | RequestFailed | TtftUnknown | PromptEstimated | ClockChanged

  /** Equal epochs mean that nothing happened in between. */
  lemma EpochsTell(before: seq<Option<ClockPoint>>, after: seq<Option<ClockPoint>>, epoch: nat, epoch': nat)
    requires before <= after && |before| == epoch + 1 && |after| == epoch' + 1
    ensures epoch == epoch' <==> before == after
  {
    if epoch == epoch' { assert after[..|before|] == after; }
  }

  /**
    The end of a request. Its outcome enters the table only when it was served, its TTFT and prompt
    length are known, and both groups kept the clocks of its cell from admission to now. Only the
    first end counts.
  */
  method Finish(t: Ticket, ok: bool, violated: Option<bool>, table: RiskTable) returns (skip: Option<Skip>)
    requires t.Valid() && table.Valid()
    modifies t`finished, table`cells
    ensures table.Valid() && t.finished
    ensures skip.None? <==> !old(t.finished) && ok && violated.Some? && t.promptExact && t.Undisturbed()
    ensures skip.None? ==>
      && t.p.effective.Some? && t.p.effective.value.prefillMhz == t.cell.clock.prefillMhz
      && t.d.effective.Some? && t.d.effective.value.decodeMhz == t.cell.clock.decodeMhz
    ensures table.cells ==
      if skip.None? then old(table.cells)[t.cell := Counted(Stats(old(table.View()), t.cell), violated.value)]
      else old(table.cells)
  {
    EpochsTell(t.logP, t.p.log, t.clockEpoch, t.p.epoch);
    EpochsTell(t.logD, t.d.log, t.decodeEpoch, t.d.epoch);
    if t.finished { return Some(Repeated); }
    t.finished := true;
    skip := None;
    if !ok {
      skip := Some(RequestFailed);
    } else if violated.None? {
      skip := Some(TtftUnknown);
    } else if !t.promptExact {
      skip := Some(PromptEstimated);
    } else if t.p.epoch != t.clockEpoch || t.d.epoch != t.decodeEpoch {
      skip := Some(ClockChanged);
    }
    if skip.None? { table.Record(t.cell, violated.value); }
  }

  // ---- runs --------------------------------------------------------------------------------------

  datatype Command =
    | Start(g: nat, call: nat, tier: Tier, target: ClockPoint)
    | Lock(g: nat, call: nat, side: Side, ok: bool, moved: bool)
    | Settlement(g: nat, call: nat, now: real)
    | Admission(p: nat, d: nat, nAwait: nat, tokens: nat, busy: bool, exact: bool)
    | End(ticket: nat, ok: bool, violated: Option<bool>)

  /** A ticket: its groups by number, and their histories when it was admitted. */
  datatype Admitted = Admitted(
    p: nat, d: nat, cell: Cell, exact: bool, logP: seq<Option<ClockPoint>>, logD: seq<Option<ClockPoint>>,
    finished: bool)

  /** A request that ended, and the histories of its groups then. */
  datatype Outcome = Outcome(
    ticket: nat, t: Admitted, ok: bool, violated: Option<bool>, logP: seq<Option<ClockPoint>>,
    logD: seq<Option<ClockPoint>>)

  datatype World = World(
    groups: seq<Clocks>, tickets: seq<Admitted>, outcomes: seq<Outcome>, cells: map<Cell, Tally>)

  /** Served and known in full, with no change of either group's clocks since the admission. */
  ghost predicate Clean(o: Outcome) {
    o.ok && o.violated.Some? && o.t.exact && o.logP == o.t.logP && o.logD == o.t.logD
  }

  function StatsOf(cells: map<Cell, Tally>, c: Cell): Tally { if c in cells then cells[c] else Tally(0, 0) }

  ghost function Entered(cells: map<Cell, Tally>, o: Outcome): map<Cell, Tally> {
    if Clean(o) then cells[o.t.cell := Counted(StatsOf(cells, o.t.cell), o.violated.value)] else cells
  }

  /** What a command does to the clocks of its group, if it can. */
  function Turned(g: Clocks, c: Command): Clocks {
    match c
    case Start(_, call, tier, target) =>
      if call in g.state.changes then g else
        var s := Begun(g.state, call, tier, target);
        Clocks(s, g.log + [s.effective])
    case Lock(_, call, side, ok, moved) =>
      var m := LockEnds(call, side, ok, moved);
      if Enabled(g.state, m) then Clocks(Next(g.state, m), g.log) else g
    case Settlement(_, call, _) =>
      var m := Settles(call);
      if Enabled(g.state, m) then
        var s := Next(g.state, m);
        Clocks(s, g.log + [s.effective])
      else g
    case Admission(_, _, _, _, _, _) => g
    case End(_, _, _) => g
  }

  predicate CanAdmit(groups: seq<Clocks>, p: nat, d: nat) {
    p < |groups| && d < |groups| && groups[p].state.effective.Some? && groups[d].state.effective.Some?
  }

  predicate CanEnd(tickets: seq<Admitted>, i: nat) { i < |tickets| && !tickets[i].finished }

  function NewTicket(groups: seq<Clocks>, b: Buckets, c: Command): Admitted
    requires c.Admission? && CanAdmit(groups, c.p, c.d)
  {
    var clock := ClockPoint(
      groups[c.p].state.effective.value.prefillMhz, groups[c.d].state.effective.value.decodeMhz);
    Admitted(
      c.p, c.d, CellFor(b, clock, c.nAwait, c.tokens, c.busy), c.exact, groups[c.p].log, groups[c.d].log, false)
  }

  function Ending(w: World, c: Command): Outcome
    requires c.End? && CanEnd(w.tickets, c.ticket)
    requires w.tickets[c.ticket].p < |w.groups| && w.tickets[c.ticket].d < |w.groups|
  {
    var t := w.tickets[c.ticket];
    Outcome(c.ticket, t, c.ok, c.violated, w.groups[t.p].log, w.groups[t.d].log)
  }

  /** The clocks now are the last of the history; every ticket's history is the start of its groups'. */
  ghost predicate Sound(w: World) {
    && (forall i :: 0 <= i < |w.groups| ==> ClocksSound(w.groups[i]))
    && (forall i :: 0 <= i < |w.tickets| ==> TicketSound(w.groups, w.tickets[i]))
  }

  predicate ClocksSound(g: Clocks) { |g.log| > 0 && g.log[|g.log| - 1] == g.state.effective }

  /** The last clocks of the two histories are those of the cell. */
  predicate AtClocks(cell: Cell, logP: seq<Option<ClockPoint>>, logD: seq<Option<ClockPoint>>) {
    && logP != [] && logD != [] && logP[|logP| - 1].Some? && logD[|logD| - 1].Some?
    && cell.clock == ClockPoint(logP[|logP| - 1].value.prefillMhz, logD[|logD| - 1].value.decodeMhz)
  }

  predicate TicketSound(groups: seq<Clocks>, t: Admitted) {
    && t.p < |groups| && t.d < |groups| && t.logP <= groups[t.p].log && t.logD <= groups[t.d].log
    && AtClocks(t.cell, t.logP, t.logD)
  }

  /** One command; what cannot happen changes nothing. */
  ghost function Done(w: World, b: Buckets, c: Command): (w': World)
    requires Sound(w)
    ensures Sound(w') && |w'.groups| == |w.groups|
  {
    match c
    case Admission(p, d, _, _, _, _) =>
      if CanAdmit(w.groups, p, d) then w.(tickets := w.tickets + [NewTicket(w.groups, b, c)]) else w
    case End(i, _, _) =>
      if CanEnd(w.tickets, i) then
        assert TicketSound(w.groups, w.tickets[i]);
        var o := Ending(w, c);
        var tickets := w.tickets[i := o.t.(finished := true)];
        World(w.groups, tickets, w.outcomes + [o], Entered(w.cells, o))
      else w
    case _ =>
      if c.g < |w.groups| then
        TurnKeeps(w, c);
        w.(groups := w.groups[c.g := Turned(w.groups[c.g], c)])
      else w
  }

  lemma TurnKeeps(w: World, c: Command)
    requires Sound(w) && !c.Admission? && !c.End? && c.g < |w.groups|
    ensures Sound(w.(groups := w.groups[c.g := Turned(w.groups[c.g], c)]))
  {
    var groups := w.groups[c.g := Turned(w.groups[c.g], c)];
    assert ClocksSound(w.groups[c.g]);
    forall i | 0 <= i < |w.tickets| ensures TicketSound(groups, w.tickets[i]) {
      assert TicketSound(w.groups, w.tickets[i]);
    }
    forall i | 0 <= i < |groups| ensures ClocksSound(groups[i]) { assert ClocksSound(w.groups[i]); }
  }

  ghost function Played(w: World, b: Buckets, script: seq<Command>): (w': World)
    requires Sound(w)
    ensures Sound(w') && |w'.groups| == |w.groups|
  {
    if script == [] then w else Done(Played(w, b, script[..|script| - 1]), b, script[|script| - 1])
  }

  /** The table once the clean outcomes, and no others, have been counted. */
  ghost function Filled(cells: map<Cell, Tally>, outcomes: seq<Outcome>): map<Cell, Tally> {
    if outcomes == [] then cells else Entered(Filled(cells, outcomes[..|outcomes| - 1]), outcomes[|outcomes| - 1])
  }

  /** The finished tickets are those that ended, each once; the clean ones among them at the clocks of their cells. */
  ghost predicate Kept(tickets: seq<Admitted>, outcomes: seq<Outcome>) {
    && (forall j :: 0 <= j < |outcomes| ==> Over(tickets, outcomes[j]))
    && (forall j, k :: 0 <= j < k < |outcomes| ==> outcomes[j].ticket != outcomes[k].ticket)
    && (forall i :: 0 <= i < |tickets| && tickets[i].finished ==>
      exists j :: 0 <= j < |outcomes| && outcomes[j].ticket == i)
  }

  ghost predicate Over(tickets: seq<Admitted>, o: Outcome) {
    && o.ticket < |tickets| && tickets[o.ticket] == o.t.(finished := true)
    && (Clean(o) ==> AtClocks(o.t.cell, o.logP, o.logD))
  }

  lemma EndKeeps(tickets: seq<Admitted>, outcomes: seq<Outcome>, o: Outcome)
    requires Kept(tickets, outcomes)
    requires CanEnd(tickets, o.ticket) && tickets[o.ticket] == o.t && (Clean(o) ==> AtClocks(o.t.cell, o.logP, o.logD))
    ensures Kept(tickets[o.ticket := o.t.(finished := true)], outcomes + [o])
  {
    var tickets', outcomes' := tickets[o.ticket := o.t.(finished := true)], outcomes + [o];
    forall j | 0 <= j < |outcomes| ensures outcomes[j].ticket != o.ticket { assert Over(tickets, outcomes[j]); }
    forall i | 0 <= i < |tickets'| && tickets'[i].finished
      ensures exists j :: 0 <= j < |outcomes'| && outcomes'[j].ticket == i
    {
      if i == o.ticket {
        assert outcomes'[|outcomes|].ticket == i;
      } else {
        var j :| 0 <= j < |outcomes| && outcomes[j].ticket == i;
        assert outcomes'[j].ticket == i;
      }
    }
    forall j | 0 <= j < |outcomes'| ensures Over(tickets', outcomes'[j]) {
      if j < |outcomes| { assert Over(tickets, outcomes[j]); }
    }
  }

  lemma DoneKeeps(w: World, b: Buckets, c: Command)
    requires Sound(w) && Kept(w.tickets, w.outcomes)
    ensures Kept(Done(w, b, c).tickets, Done(w, b, c).outcomes)
  {
    if c.End? && CanEnd(w.tickets, c.ticket) {
      assert TicketSound(w.groups, w.tickets[c.ticket]);
      EndKeeps(w.tickets, w.outcomes, Ending(w, c));
    } else if c.Admission? && CanAdmit(w.groups, c.p, c.d) {
      AdmitKeeps(w.tickets, w.outcomes, NewTicket(w.groups, b, c));
    }
  }

  lemma AdmitKeeps(tickets: seq<Admitted>, outcomes: seq<Outcome>, t: Admitted)
    requires Kept(tickets, outcomes) && !t.finished
    ensures Kept(tickets + [t], outcomes)
  {
    forall j | 0 <= j < |outcomes| ensures Over(tickets + [t], outcomes[j]) { assert Over(tickets, outcomes[j]); }
  }

  lemma DoneFills(cells: map<Cell, Tally>, w: World, b: Buckets, c: Command)
    requires Sound(w) && w.cells == Filled(cells, w.outcomes)
    ensures Done(w, b, c).cells == Filled(cells, Done(w, b, c).outcomes)
  {
    if c.End? && CanEnd(w.tickets, c.ticket) {
      assert TicketSound(w.groups, w.tickets[c.ticket]);
      assert (w.outcomes + [Ending(w, c)])[..|w.outcomes|] == w.outcomes;
    }
  }

  /**
    Any groups and any interleaving of changes, admissions and ends, overlapping or not: the risk
    table gets exactly the clean outcomes, each ticket at most one, each at the clocks of its cell.
  */
  lemma {:induction false} CleanRuns(w: World, b: Buckets, script: seq<Command>)
    requires Sound(w) && w.tickets == [] && w.outcomes == []
    ensures var w' := Played(w, b, script);
      Kept(w'.tickets, w'.outcomes) && w'.cells == Filled(w.cells, w'.outcomes)
  {
    if script != [] {
      var before := Played(w, b, script[..|script| - 1]);
      CleanRuns(w, b, script[..|script| - 1]);
      DoneKeeps(before, b, script[|script| - 1]);
      DoneFills(w.cells, before, b, script[|script| - 1]);
    }
  }

  method Turn(g: ClockGroup, c: Command, period: real, tDown: real)
    requires g.Valid()
    modifies g
    ensures g.Valid() && g.Past() == Turned(old(g.Past()), c)
  {
    match c
    case Start(_, call, tier, target) =>
      if call !in g.changes { g.Begin(call, tier, target); }
    case Lock(_, call, side, ok, moved) =>
      if call in g.changes && LockOf(g.changes[call], side) == Pending { g.Locked(call, side, ok, moved); }
    case Settlement(_, call, now) =>
      if call in g.changes && g.changes[call].p.Ended? && g.changes[call].d.Ended? {
        g.Settle(call, now, period, tDown);
      }
    case Admission(_, _, _, _, _, _) =>
    case End(_, _, _) =>
  }

  /** The groups are as listed. */
  ghost predicate Show(groups: seq<ClockGroup>, past: seq<Clocks>)
    reads groups
  {
    && |groups| == |past| && (forall i, j :: 0 <= i < j < |groups| ==> groups[i] != groups[j])
    && (forall i :: 0 <= i < |groups| ==> groups[i].Valid() && groups[i].Past() == past[i])
  }

  ghost predicate Matches(t: Ticket, groups: seq<ClockGroup>, a: Admitted)
    reads t`finished
  {
    && a.p < |groups| && a.d < |groups| && t.p == groups[a.p] && t.d == groups[a.d]
    && t.cell == a.cell && t.promptExact == a.exact && t.finished == a.finished
    && t.logP == a.logP && t.logD == a.logD && |t.logP| == t.clockEpoch + 1 && |t.logD| == t.decodeEpoch + 1
  }

  /** The tickets are as listed. */
  ghost predicate Hold(tickets: seq<Ticket>, groups: seq<ClockGroup>, list: seq<Admitted>)
    reads tickets
  {
    && |tickets| == |list| && (forall i, j :: 0 <= i < j < |tickets| ==> tickets[i] != tickets[j])
    && (forall i :: 0 <= i < |tickets| ==> Matches(tickets[i], groups, list[i]))
  }

  method TurnOne(
    groups: seq<ClockGroup>, ghost tickets: seq<Ticket>, b: Buckets, ghost w: World, c: Command, period: real,
    tDown: real)
    requires Sound(w) && Show(groups, w.groups) && Hold(tickets, groups, w.tickets) && !c.Admission? && !c.End?
    modifies groups
    ensures Show(groups, Done(w, b, c).groups) && Hold(tickets, groups, Done(w, b, c).tickets)
    ensures Done(w, b, c).cells == w.cells
  {
    if c.g < |groups| { Turn(groups[c.g], c, period, tDown); }
  }

  method NextTicket(
    groups: seq<ClockGroup>, ghost past: seq<Clocks>, tickets: seq<Ticket>, ghost list: seq<Admitted>, b: Buckets,
    c: Command) returns (more: seq<Ticket>)
    requires Show(groups, past) && Hold(tickets, groups, list) && c.Admission? && CanAdmit(past, c.p, c.d)
    ensures Hold(more, groups, list + [NewTicket(past, b, c)]) && forall t :: t in more ==> t in tickets || fresh(t)
  {
    assert groups[c.p].Past() == past[c.p] && groups[c.d].Past() == past[c.d];
    var t := Admit(groups[c.p], groups[c.d], b, c.nAwait, c.tokens, c.busy, c.exact);
    assert Matches(t, groups, NewTicket(past, b, c));
    more := tickets + [t];
  }

  method AdmitOne(groups: seq<ClockGroup>, tickets: seq<Ticket>, b: Buckets, ghost w: World, c: Command)
    returns (more: seq<Ticket>)
    requires Sound(w) && Show(groups, w.groups) && Hold(tickets, groups, w.tickets) && c.Admission?
    ensures Show(groups, Done(w, b, c).groups) && Hold(more, groups, Done(w, b, c).tickets)
    ensures Done(w, b, c).cells == w.cells && forall t :: t in more ==> t in tickets || fresh(t)
  {
    more := tickets;
    if c.p < |groups| && c.d < |groups| {
      assert groups[c.p].Past() == w.groups[c.p] && groups[c.d].Past() == w.groups[c.d];
      if groups[c.p].effective.Some? && groups[c.d].effective.Some? {
        more := NextTicket(groups, w.groups, tickets, w.tickets, b, c);
      }
    }
  }

  /** A listed ticket fits its groups as they are now. */
  lemma TicketFits(t: Ticket, groups: seq<ClockGroup>, past: seq<Clocks>, a: Admitted)
    requires Show(groups, past) && Matches(t, groups, a) && TicketSound(past, a)
    ensures t.Valid() && (t.Undisturbed() <==> past[a.p].log == a.logP && past[a.d].log == a.logD)
  {
    assert t.p.Past() == past[a.p] && t.d.Past() == past[a.d];
  }

  method FinishOne(
    t: Ticket, ghost groups: seq<ClockGroup>, ghost past: seq<Clocks>, ghost a: Admitted, c: Command, table: RiskTable)
    requires Show(groups, past) && Matches(t, groups, a) && TicketSound(past, a) && c.End? && table.Valid()
    modifies t`finished, table`cells
    ensures Matches(t, groups, a.(finished := true)) && table.Valid()
    ensures table.cells == if a.finished then old(table.cells)
      else Entered(old(table.cells), Outcome(c.ticket, a, c.ok, c.violated, past[a.p].log, past[a.d].log))
  {
    TicketFits(t, groups, past, a);
    var skip := Finish(t, c.ok, c.violated, table);
  }

  method FinishListed(
    ghost groups: seq<ClockGroup>, ghost past: seq<Clocks>, tickets: seq<Ticket>, ghost list: seq<Admitted>, c: Command,
    table: RiskTable)
    requires Show(groups, past) && Hold(tickets, groups, list) && c.End? && c.ticket < |tickets| && table.Valid()
    requires TicketSound(past, list[c.ticket])
    modifies tickets, table`cells
    ensures var a := list[c.ticket];
      && Hold(tickets, groups, list[c.ticket := a.(finished := true)]) && table.Valid()
      && table.cells == if a.finished then old(table.cells)
        else Entered(old(table.cells), Outcome(c.ticket, a, c.ok, c.violated, past[a.p].log, past[a.d].log))
  {
    assert Matches(tickets[c.ticket], groups, list[c.ticket]);
    FinishOne(tickets[c.ticket], groups, past, list[c.ticket], c, table);
  }

  lemma DoneEnd(w: World, b: Buckets, c: Command)
    requires Sound(w) && c.End? && c.ticket < |w.tickets|
    ensures var a := w.tickets[c.ticket];
      && TicketSound(w.groups, a)
      && Done(w, b, c).groups == w.groups && Done(w, b, c).tickets == w.tickets[c.ticket := a.(finished := true)]
      && Done(w, b, c).cells == if a.finished then w.cells
        else Entered(w.cells, Outcome(c.ticket, a, c.ok, c.violated, w.groups[a.p].log, w.groups[a.d].log))
  {
    assert TicketSound(w.groups, w.tickets[c.ticket]);
    if w.tickets[c.ticket].finished {
      assert w.tickets[c.ticket].(finished := true) == w.tickets[c.ticket];
    }
  }

  method EndOne(groups: seq<ClockGroup>, tickets: seq<Ticket>, table: RiskTable, ghost w: World, c: Command)
    requires Sound(w) && Show(groups, w.groups) && Hold(tickets, groups, w.tickets) && c.End?
    requires table.Valid() && table.cells == w.cells
    modifies tickets, table`cells
    ensures Show(groups, Done(w, table.buckets, c).groups) && Hold(tickets, groups, Done(w, table.buckets, c).tickets)
    ensures table.Valid() && table.cells == Done(w, table.buckets, c).cells
  {
    if c.ticket < |tickets| {
      DoneEnd(w, table.buckets, c);
      FinishListed(groups, w.groups, tickets, w.tickets, c, table);
    }
  }

  method DoOne(
    groups: seq<ClockGroup>, tickets: seq<Ticket>, table: RiskTable, ghost w: World, c: Command, period: real,
    tDown: real) returns (more: seq<Ticket>)
    requires Sound(w) && Show(groups, w.groups) && Hold(tickets, groups, w.tickets)
    requires table.Valid() && table.cells == w.cells
    modifies groups, tickets, table`cells
    ensures var w' := Done(w, table.buckets, c);
      Show(groups, w'.groups) && Hold(more, groups, w'.tickets) && table.Valid() && table.cells == w'.cells
    ensures forall t :: t in more ==> t in tickets || fresh(t)
  {
    more := tickets;
    if c.Admission? {
      more := AdmitOne(groups, tickets, table.buckets, w, c);
    } else if c.End? {
      EndOne(groups, tickets, table, w, c);
    } else {
      TurnOne(groups, tickets, table.buckets, w, c, period, tDown);
    }
  }

  function Parked(actual: ClockPoint): Clocks { Clocks(State(Park, None, actual, map[]), [None]) }

  function AllParked(points: seq<ClockPoint>): seq<Clocks> {
    seq(|points|, i requires 0 <= i < |points| => Parked(points[i]))
  }

  ghost function Initial(points: seq<ClockPoint>, cells: map<Cell, Tally>): (w: World)
    ensures Sound(w)
  {
    World(AllParked(points), [], [], cells)
  }

  method NewGroups(points: seq<ClockPoint>) returns (groups: seq<ClockGroup>)
    ensures fresh(groups) && Show(groups, AllParked(points))
  {
    groups := [];
    for i := 0 to |points|
      invariant fresh(groups) && Show(groups, AllParked(points)[..i])
    {
      var g := new ClockGroup(points[i]);
      assert g.Past() == AllParked(points)[i];
      groups := groups + [g];
    }
  }

  lemma PlayedMore(w: World, b: Buckets, script: seq<Command>, k: nat)
    requires Sound(w) && k < |script|
    ensures Played(w, b, script[..k + 1]) == Done(Played(w, b, script[..k]), b, script[k])
  {
    assert script[..k + 1][..k] == script[..k];
  }

  /**
    New groups serve a script: groups, tickets and table go as `Played` says, and the table gets exactly
    the clean outcomes.
  */
  method Serve(points: seq<ClockPoint>, table: RiskTable, period: real, tDown: real, script: seq<Command>)
    returns (groups: seq<ClockGroup>, tickets: seq<Ticket>, ghost w: World)
    requires table.Valid()
    modifies table`cells
    ensures w == Played(Initial(points, old(table.cells)), table.buckets, script)
    ensures Show(groups, w.groups) && Hold(tickets, groups, w.tickets) && table.Valid() && table.cells == w.cells
    ensures Kept(w.tickets, w.outcomes) && table.cells == Filled(old(table.cells), w.outcomes)
  {
    groups := NewGroups(points);
    ghost var start := Initial(points, table.cells);
    tickets, w := [], start;
    for k := 0 to |script|
      invariant fresh(groups) && fresh(tickets)
      invariant Sound(w) && w == Played(start, table.buckets, script[..k])
      invariant Show(groups, w.groups) && Hold(tickets, groups, w.tickets)
      invariant table.Valid() && table.cells == w.cells
    {
      tickets := DoOne(groups, tickets, table, w, script[k], period, tDown);
      w := Done(w, table.buckets, script[k]);
      PlayedMore(start, table.buckets, script, k);
    }
    assert script[..|script|] == script;
    CleanRuns(start, table.buckets, script);
  }
}
