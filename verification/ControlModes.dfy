/** The controller's modes under best effort: what each of them rests on, over all runs of ticks. */
module ControlModes {
  import opened Options
  import opened Sealing
  import opened Sorting

  datatype Mode = Energy | Warning | Confirming | Expanding | FullEffort

  datatype Settings = Settings(
    periodS: real, tDownS: real, confirmS: real, confirmWindowS: real, confirmFraction: real,
    graceS: real, fullEffortMinS: real, exitRateFraction: real, baselineRouting: bool, redirect: bool,
    feedbackWindowS: real)

  ghost predicate SettingsOk(s: Settings) {
    && s.periodS > 0.0 && s.tDownS >= 0.0 && s.confirmWindowS > 0.0 && 0.0 < s.confirmFraction <= 1.0
    && s.fullEffortMinS >= 0.0
  }

  /** A group, by its number. */
  type Name = int

  /** Recent production latency: under pressure, severely so, and which groups show it as their own. */
  datatype Feedback = Feedback(pressure: bool, severe: bool, pressured: set<Name>)

  /** What else a tick finds: signals, exhausted Ds, the offered rate, and the state of the groups. */
  datatype Surroundings = Surroundings(
    riskSignals: nat, exhausted: bool, rate: real, groups: set<Name>, routable: set<Name>, allServing: bool,
    exploring: bool, coldBusy: bool, modelWarning: bool)

  /** One tick as it was. */
  datatype Tick = Tick(now: real, pressure: bool, severe: bool, exhausted: bool)

  /** At least `d` seconds since `at`; for ever, when it never happened. */
  predicate Elapsed(now: real, at: Option<real>, d: real) { at.None? || now - at.value >= d }

  function Later(a: Option<real>, b: Option<real>): Option<real> {
    if a.None? then b else if b.None? then a else if a.value < b.value then b else a
  }

  // ---- evidence in the history ----------------------------------------------------------------

  /** Every tick from number `k` on was under pressure. */
  ghost predicate PressedFrom(h: seq<Tick>, k: nat) { forall j :: k <= j < |h| ==> h[j].pressure }

  ghost predicate SevereFrom(h: seq<Tick>, k: nat) { forall j :: k <= j < |h| ==> h[j].severe }

  /** Pressure at every tick since time `t`. */
  ghost predicate PressedSince(h: seq<Tick>, t: real) { exists k: nat :: k < |h| && h[k].now == t && PressedFrom(h, k) }

  ghost predicate SevereSince(h: seq<Tick>, t: real) { exists k: nat :: k < |h| && h[k].now == t && SevereFrom(h, k) }

  function CountPressed(h: seq<Tick>): nat {
    if h == [] then 0 else CountPressed(h[..|h| - 1]) + if h[|h| - 1].pressure then 1 else 0
  }

  /** The ticks of the confirmation window are those from number `k` on. */
  ghost predicate IsWindow(h: seq<Tick>, k: nat, now: real, s: Settings) {
    && k <= |h| && (forall j :: 0 <= j < k ==> h[j].now < now - s.confirmWindowS)
    && (forall j :: k <= j < |h| ==> h[j].now >= now - s.confirmWindowS)
  }

  /** Time only goes on. */
  ghost predicate Timely(h: seq<Tick>) { forall i, j :: 0 <= i < j < |h| ==> h[i].now <= h[j].now }

  ghost predicate After(h: seq<Tick>, now: real) { forall j :: 0 <= j < |h| ==> h[j].now <= now }

  predicate Mostly(ticks: seq<Tick>, s: Settings)
    requires s.periodS > 0.0
  {
    var enough := (0.5 * s.confirmWindowS / s.periodS).Floor;
    && |ticks| >= 3 && |ticks| >= enough
    && CountPressed(ticks) as real >= s.confirmFraction * |ticks| as real
  }

  /** Production is confirmed to be under pressure: at every tick for long enough, or at most of the window. */
  ghost predicate Confirmed(h: seq<Tick>, now: real, s: Settings)
    requires s.periodS > 0.0
  {
    || (exists t: real :: PressedSince(h, t) && now - t >= s.confirmS)
    || Majority(h, now, s)
  }

  ghost predicate Emergency(h: seq<Tick>, now: real, s: Settings) {
    exists t: real :: SevereSince(h, t) && now - t >= s.confirmS
  }

  /** Most ticks of the confirmation window were under pressure. */
  ghost predicate Majority(h: seq<Tick>, now: real, s: Settings)
    requires s.periodS > 0.0
  {
    exists k: nat :: IsWindow(h, k, now, s) && Mostly(h[k..], s)
  }

  /** What full effort may be entered on. */
  ghost predicate Evidence(h: seq<Tick>, now: real, s: Settings)
    requires s.periodS > 0.0
  {
    h != [] && (h[|h| - 1].exhausted || Emergency(h, now, s) || Confirmed(h, now, s))
  }

  /** No tick under pressure or with exhausted Ds in the last `tDownS` seconds. */
  ghost predicate Quiet(h: seq<Tick>, now: real, s: Settings) {
    forall j :: 0 <= j < |h| && (h[j].pressure || h[j].exhausted) ==> now - h[j].now >= s.tDownS
  }

  ghost predicate NeverPressed(h: seq<Tick>) { forall j :: 0 <= j < |h| ==> !h[j].pressure && !h[j].exhausted }

  lemma {:induction false} NothingCounted(h: seq<Tick>)
    requires forall j :: 0 <= j < |h| ==> !h[j].pressure
    ensures CountPressed(h) == 0
  {
    if h != [] { NothingCounted(h[..|h| - 1]); }
  }

  lemma NeverMostly(h: seq<Tick>, k: nat, s: Settings)
    requires NeverPressed(h) && k <= |h| && SettingsOk(s)
    ensures !Mostly(h[k..], s)
  {
    NothingCounted(h[k..]);
    if |h[k..]| >= 3 { Scaled(s.confirmFraction, |h[k..]| as real); }
  }

  lemma Scaled(a: real, b: real)
    requires a > 0.0 && b > 0.0
    ensures a * b > 0.0
  {}

  /** Without any pressure and exhaustion there is no evidence, whatever the predictions say. */
  lemma NoEvidence(h: seq<Tick>, now: real, s: Settings)
    requires SettingsOk(s) && NeverPressed(h) && forall j :: 0 <= j < |h| ==> (h[j].severe ==> h[j].pressure)
    ensures !Evidence(h, now, s)
  {
    forall t: real ensures !PressedSince(h, t) && !SevereSince(h, t) {}
    forall k: nat | k <= |h| ensures !Mostly(h[k..], s) { NeverMostly(h, k, s); }
  }

  lemma EvidencePressed(h: seq<Tick>, now: real, s: Settings)
    requires SettingsOk(s) && Evidence(h, now, s) && forall j :: 0 <= j < |h| ==> (h[j].severe ==> h[j].pressure)
    ensures !NeverPressed(h)
  {
    if NeverPressed(h) { NoEvidence(h, now, s); }
  }

  lemma PressedMore(h: seq<Tick>, t: real, tick: Tick)
    requires PressedSince(h, t) && tick.pressure
    ensures PressedSince(h + [tick], t)
  {
    var k: nat :| k < |h| && h[k].now == t && PressedFrom(h, k);
    assert (h + [tick])[k].now == t && PressedFrom(h + [tick], k);
  }

  lemma PressedNow(h: seq<Tick>, tick: Tick)
    requires tick.pressure
    ensures PressedSince(h + [tick], tick.now)
  {
    assert (h + [tick])[|h|].now == tick.now && PressedFrom(h + [tick], |h|);
  }

  lemma SevereMore(h: seq<Tick>, t: real, tick: Tick)
    requires SevereSince(h, t) && tick.severe
    ensures SevereSince(h + [tick], t)
  {
    var k: nat :| k < |h| && h[k].now == t && SevereFrom(h, k);
    assert (h + [tick])[k].now == t && SevereFrom(h + [tick], k);
  }

  lemma SevereNow(h: seq<Tick>, tick: Tick)
    requires tick.severe
    ensures SevereSince(h + [tick], tick.now)
  {
    assert (h + [tick])[|h|].now == tick.now && SevereFrom(h + [tick], |h|);
  }

  /** What the fields say of past ticks is what they were. */
  ghost predicate Remembered(
    h: seq<Tick>, confirmSince: Option<real>, severeSince: Option<real>, pressureAt: Option<real>)
  {
    && Timely(h)
    && (confirmSince.Some? ==> PressedSince(h, confirmSince.value))
    && (severeSince.Some? ==> SevereSince(h, severeSince.value))
    && (forall j :: 0 <= j < |h| ==> (h[j].severe ==> h[j].pressure))
    && (forall j :: 0 <= j < |h| && (h[j].pressure || h[j].exhausted) ==>
      pressureAt.Some? && h[j].now <= pressureAt.value)
  }

  lemma RememberMore(
    h: seq<Tick>, confirmSince: Option<real>, severeSince: Option<real>, pressureAt: Option<real>, tick: Tick)
    requires Remembered(h, confirmSince, severeSince, pressureAt) && After(h, tick.now) && (tick.severe ==> tick.pressure)
    ensures var confirm', severe' := Unbroken(confirmSince, tick.pressure, tick.now), Unbroken(severeSince, tick.severe, tick.now);
      var pressure' := if tick.pressure || tick.exhausted then Some(tick.now) else pressureAt;
      Remembered(h + [tick], confirm', severe', pressure')
  {
    if tick.pressure {
      if confirmSince.None? { PressedNow(h, tick); } else { PressedMore(h, confirmSince.value, tick); }
    }
    if tick.severe {
      if severeSince.None? { SevereNow(h, tick); } else { SevereMore(h, severeSince.value, tick); }
    }
  }

  /** After tick number `k` and all later ones: in full effort. */
  ghost predicate FullFrom(full: seq<bool>, k: nat) { forall j :: k <= j < |full| ==> full[j] }

  /** In full effort after every tick since one that was not later than `since`. */
  ghost predicate Lasted(h: seq<Tick>, full: seq<bool>, since: real) {
    exists k: nat :: k < |h| && h[k].now <= since && FullFrom(full, k)
  }

  /** In full effort after every tick for at least its minimum time. */
  ghost predicate FullFor(h: seq<Tick>, full: seq<bool>, now: real, s: Settings) {
    exists k: nat :: k < |h| && now - h[k].now >= s.fullEffortMinS && FullFrom(full, k)
  }

  lemma SinceLasted(h: seq<Tick>, full: seq<bool>, since: real, now: real, s: Settings)
    requires Lasted(h, full, since)
    ensures now - since >= s.fullEffortMinS ==> FullFor(h, full, now, s)
  {
    var k: nat :| k < |h| && h[k].now <= since && FullFrom(full, k);
    if now - since >= s.fullEffortMinS { assert now - h[k].now >= s.fullEffortMinS && FullFrom(full, k); }
  }

  /** One more tick in full effort: entered with it, or before. */
  lemma LastedOn(h: seq<Tick>, full: seq<bool>, h': seq<Tick>, stayed: bool, since: real, later: real)
    requires |full| == |h| && |h'| == |h| + 1 && h' == h + [h'[|h|]] && h'[|h|].now <= later
    requires if stayed then Lasted(h, full, since) else since == later
    ensures Lasted(h', full + [true], since)
  {
    if stayed {
      var k: nat :| k < |h| && h[k].now <= since && FullFrom(full, k);
      assert h'[k].now <= since && FullFrom(full + [true], k);
    } else {
      assert h'[|h|].now <= since && FullFrom(full + [true], |h|);
    }
  }

  lemma CooledMore(cooled: map<Name, real>, hot: set<Name>, g: Name, until: real)
    requires g !in hot
    ensures Cooled(cooled, hot, until)[g := Until(Cooled(cooled, hot, until), g, true, until)] == Cooled(cooled, hot + {g}, until)
  {}

  lemma OneWindow(h: seq<Tick>, a: nat, b: nat, now: real, s: Settings)
    requires IsWindow(h, a, now, s) && IsWindow(h, b, now, s)
    ensures a == b
  {
    assert a < |h| ==> h[a].now >= now - s.confirmWindowS;
    assert b < |h| ==> h[b].now >= now - s.confirmWindowS;
  }

  // ---- what a tick makes of the memory ----------------------------------------------------------

  /** What the controller remembers between ticks. */
  datatype Memory = Memory(
    mode: Mode, fullEffort: bool, warningAt: Option<real>, pressureAt: Option<real>,
    confirmSince: Option<real>, severeSince: Option<real>, expandedAt: Option<real>, redirectedAt: Option<real>,
    fullEffortSince: Option<real>, fullEffortRate: real, cooled: map<Name, real>)

  /** Since when a condition holds without a break. */
  function Unbroken(since: Option<real>, on: bool, now: real): Option<real> {
    if !on then None else if since.None? then Some(now) else since
  }

  /** A condition held for as long as a confirmation takes. */
  predicate Lasting(since: Option<real>, now: real, s: Settings) { since.Some? && now - since.value >= s.confirmS }

  function Noted(m: Memory, tick: Tick, warned: bool): Memory {
    m.(
      mode := Observed(m.mode, tick.pressure, warned),
      warningAt := if warned then Some(tick.now) else m.warningAt,
      pressureAt := if tick.pressure || tick.exhausted then Some(tick.now) else m.pressureAt,
      confirmSince := Unbroken(m.confirmSince, tick.pressure, tick.now),
      severeSince := Unbroken(m.severeSince, tick.severe, tick.now))
  }

  function AtFull(m: Memory, rate: real, later: real): Memory {
    var e := m.(mode := FullEffort, redirectedAt := None);
    if m.fullEffort then e else e.(fullEffort := true, fullEffortSince := Some(later), fullEffortRate := rate)
  }

  function Hot(f: Feedback, sur: Surroundings): set<Name> { f.pressured * sur.groups }

  /** The groups in `hot` take no more requests until then; a longer cooling stays. */
  function Cooled(cooled: map<Name, real>, hot: set<Name>, until: real): map<Name, real> {
    map g | g in cooled.Keys + hot :: Until(cooled, g, g in hot, until)
  }

  function Until(cooled: map<Name, real>, g: Name, isHot: bool, until: real): real {
    if g in cooled && (!isHot || cooled[g] > until) then cooled[g] else until
  }

  /** Some routable group is not cooled. */
  predicate HasRoom(cooled: map<Name, real>, routable: set<Name>, now: real) {
    exists g :: g in routable && (g in cooled ==> cooled[g] <= now)
  }

  /** The pressured groups are cooled, when there are any. */
  function Cooling(m: Memory, s: Settings, now: real, f: Feedback, sur: Surroundings): Memory {
    if s.redirect && Hot(f, sur) != {}
    then m.(cooled := Cooled(m.cooled, Hot(f, sur), now + s.feedbackWindowS)) else m
  }

  /** Some group shows the pressure as its own, and after its cooling another one has room. */
  predicate CanRedirect(m: Memory, s: Settings, now: real, f: Feedback, sur: Surroundings) {
    s.redirect && Hot(f, sur) != {} && HasRoom(Cooling(m, s, now, f, sur).cooled, sur.routable, now)
  }

  /** The pressure is answered by a redirect, or by full effort when that is not possible. */
  function Answered(m: Memory, s: Settings, now: real, later: real, f: Feedback, sur: Surroundings): Memory {
    var c := Cooling(m, s, now, f, sur);
    if CanRedirect(m, s, now, f, sur) then Redirected(c, later) else AtFull(c, sur.rate, later)
  }

  function Redirected(m: Memory, later: real): Memory {
    m.(mode := Expanding, expandedAt := Some(later), redirectedAt := Some(later), confirmSince := None)
  }

  /** The last reason to stay out of energy mode. */
  function QuietAfter(m: Memory): Option<real> {
    if m.mode == Warning || m.mode == Confirming then Later(m.pressureAt, m.warningAt) else m.pressureAt
  }

  function Recovered(m: Memory, s: Settings, now: real, f: Feedback): Memory {
    if !f.pressure && Elapsed(now, QuietAfter(m), s.tDownS)
    then m.(mode := Energy, expandedAt := None, redirectedAt := None) else m
  }

  function Responded(
    m: Memory, s: Settings, now: real, later: real, f: Feedback, sur: Surroundings, confirmed: bool): Memory
  {
    if m.mode == Expanding then
      if !Elapsed(now, m.expandedAt, s.graceS) then m
      else if !confirmed then Recovered(m, s, now, f)
      else if m.redirectedAt.Some? then Answered(m, s, now, later, f, sur)
      else AtFull(m, sur.rate, later)
    else if !confirmed then Recovered(m, s, now, f)
    else if !sur.allServing then m.(mode := Expanding, expandedAt := Some(later), confirmSince := None)
    else Answered(m, s, now, later, f, sur)
  }

  predicate CanLeave(m: Memory, s: Settings, now: real, f: Feedback, sur: Surroundings) {
    && !f.pressure && Elapsed(now, m.pressureAt, s.tDownS) && Elapsed(now, m.fullEffortSince, s.fullEffortMinS)
    && sur.rate <= s.exitRateFraction * m.fullEffortRate && !sur.exploring && !sur.coldBusy
  }

  function Released(m: Memory): Memory {
    m.(mode := Energy, fullEffort := false, expandedAt := None, redirectedAt := None)
  }

  /** The memory after a tick, `h` being the history up to and with it. */
  ghost function Ticked(
    m: Memory, h: seq<Tick>, s: Settings, now: real, later: real, f: Feedback, sur: Surroundings, warned: bool): Memory
    requires s.periodS > 0.0
  {
    var n := Noted(m, Tick(now, f.pressure, f.severe, sur.exhausted), warned);
    Acted(
      n, s, now, later, f, sur, Lasting(n.confirmSince, now, s) || Majority(h, now, s), Lasting(n.severeSince, now, s))
  }

  function Acted(
    n: Memory, s: Settings, now: real, later: real, f: Feedback, sur: Surroundings, confirmed: bool, emergency: bool)
    : Memory
  {
    if n.fullEffort then
      var e := AtFull(n, sur.rate, later);
      if CanLeave(e, s, now, f, sur) then Released(e) else e
    else if emergency || sur.exhausted then AtFull(n, sur.rate, later)
    else Responded(n, s, now, later, f, sur, confirmed)
  }

  class Router {
    var fullEffort: bool
    var baselineMode: bool
    var controlMode: Mode
    var cooled: map<Name, real>

    constructor ()
      ensures !fullEffort && !baselineMode && controlMode == Energy && cooled == map[]
    {
      fullEffort, baselineMode, controlMode, cooled := false, false, Energy, map[];
    }

    /** The group has no room until then. */
    method Cool(group: Name, until: real)
      modifies this`cooled
      ensures cooled == old(cooled)[group := Until(old(cooled), group, true, until)]
    {
      cooled := cooled[group := if group in cooled && cooled[group] > until then cooled[group] else until];
    }
  }

  class Controller {
    const s: Settings
    const router: Router
    var mode: Mode
    var fullEffort: bool
    var warningSeen: nat
    var warningAt: Option<real>
    var pressureAt: Option<real>
    var confirmSince: Option<real>
    var severeSince: Option<real>
    var expandedAt: Option<real>
    var redirectedAt: Option<real>
    var pressureTicks: seq<Tick>
    var fullEffortSince: Option<real>
    var fullEffortRate: real
    ghost var history: seq<Tick>  // every tick so far
    ghost var start: nat          // the first one still in the confirmation window
    ghost var full: seq<bool>     // after each of them: in full effort

    /** Mode, flags and router agree. */
    ghost predicate ModesAgree()
      reads this`mode, this`fullEffort, this`expandedAt, this`redirectedAt, this`fullEffortSince
      reads router`fullEffort, router`controlMode, router`baselineMode
    {
      && (mode == FullEffort <==> fullEffort) && router.fullEffort == fullEffort && router.controlMode == mode
      && router.baselineMode == (fullEffort && s.baselineRouting)
      && (mode == Expanding ==> expandedAt.Some?)
      && (redirectedAt.Some? ==> mode == Expanding)
      && (fullEffort ==> fullEffortSince.Some?)
    }

    function Memo(): Memory
      reads this, router
    {
      Memory(
        mode, fullEffort, warningAt, pressureAt, confirmSince, severeSince, expandedAt, redirectedAt, fullEffortSince,
        fullEffortRate, router.cooled)
    }

    /** The ticks kept are exactly those of the confirmation window of the last tick. */
    ghost predicate Window()
      reads this`history, this`start, this`pressureTicks
    {
      && start <= |history| && pressureTicks == history[start..]
      && (history != [] ==> IsWindow(history, start, history[|history| - 1].now, s))
    }

    /** The memory of past ticks, looked into only with `Look`. */
    ghost predicate Remembers()
      reads this`history, this`start, this`pressureTicks, this`confirmSince, this`severeSince, this`pressureAt
    {
      forall n {:trigger Asked(n)} :: Asked(n) ==> Remembered(history, confirmSince, severeSince, pressureAt) && Window()
    }

    lemma Look()
      requires Remembers()
      ensures Remembered(history, confirmSince, severeSince, pressureAt) && Window()
    {
      assert Asked(0);
    }

    /** Latency that never showed pressure never leaves the first two modes. */
    ghost predicate Calm()
      reads this`history, this`mode
    {
      NeverPressed(history) ==> mode == Energy || mode == Warning
    }

    /** Since when the controller is in full effort is true of the history. */
    ghost predicate Kept()
      reads this`history, this`full, this`fullEffort, this`fullEffortSince
    {
      && |full| == |history|
      && (fullEffort ==> fullEffortSince.Some? && Lasted(history, full, fullEffortSince.value))
    }

    ghost predicate Valid()
      reads this, router
    {
      SettingsOk(s) && ModesAgree() && Remembers() && Calm()
    }

    constructor (s: Settings, router: Router)
      requires SettingsOk(s) && !router.fullEffort && !router.baselineMode && router.controlMode == Energy
      ensures Valid() && Kept() && history == [] && this.s == s && this.router == router
    {
      this.s, this.router := s, router;
      mode, fullEffort, warningSeen, fullEffortRate := Energy, false, 0, 0.0;
      warningAt, pressureAt, confirmSince, severeSince := None, None, None, None;
      expandedAt, redirectedAt, fullEffortSince := None, None, None;
      pressureTicks, history, start, full := [], [], 0, [];
    }

    method SetMode(m: Mode)
      modifies this`mode, router`controlMode
      ensures mode == m && (old(router.controlMode) == old(mode) ==> router.controlMode == m)
    {
      if mode != m {
        mode, router.controlMode := m, m;
      }
    }

    /** The tick joins the confirmation window, and ticks older than that leave it. */
    method Slide(tick: Tick)
      requires Window() && Timely(history) && After(history, tick.now) && s.confirmWindowS > 0.0
      modifies this`pressureTicks, this`history, this`start
      ensures Window() && history == old(history) + [tick]
    {
      history := history + [tick];
      pressureTicks := pressureTicks + [tick];
      assert history[start..] == old(history)[start..] + [tick];
      while pressureTicks != [] && pressureTicks[0].now < tick.now - s.confirmWindowS
        invariant history == old(history) + [tick] && start <= |history| && pressureTicks == history[start..]
        invariant forall j :: 0 <= j < start ==> history[j].now < tick.now - s.confirmWindowS
        decreases |pressureTicks|
      {
        pressureTicks := pressureTicks[1..];
        start := start + 1;
      }
      WindowTail(old(history), tick, start, s);
    }

    /** The mode after this tick's signals: predictions only warn, production pressure confirms. */
    method NoteSignals(now: real, pressure: bool, signals: nat)
      requires ModesAgree()
      modifies this`mode, this`warningSeen, this`warningAt, router`controlMode
      ensures ModesAgree() && mode == Observed(old(mode), pressure, signals != old(warningSeen)) && warningSeen == signals
      ensures warningAt == if signals != old(warningSeen) then Some(now) else old(warningAt)
    {
      var warning := signals != warningSeen;
      warningSeen := signals;
      if warning {
        warningAt := Some(now);
        if mode == Energy { SetMode(Warning); }
      }
      if pressure && (mode == Energy || mode == Warning) { SetMode(Confirming); }
    }

    method NoteLatency(tick: Tick)
      modifies this`pressureAt, this`confirmSince, this`severeSince
      ensures confirmSince == Unbroken(old(confirmSince), tick.pressure, tick.now)
      ensures severeSince == Unbroken(old(severeSince), tick.severe, tick.now)
      ensures pressureAt == if tick.pressure || tick.exhausted then Some(tick.now) else old(pressureAt)
    {
      if tick.pressure {
        pressureAt := Some(tick.now);
        if confirmSince.None? { confirmSince := Some(tick.now); }
      } else {
        confirmSince := None;
      }
      if tick.severe {
        if severeSince.None? { severeSince := Some(tick.now); }
      } else {
        severeSince := None;
      }
      if tick.exhausted { pressureAt := Some(tick.now); }
    }

    /** What the ticks so far confirm. */
    method Judge(now: real) returns (confirmed: bool, emergency: bool)
      requires SettingsOk(s) && Remembers() && history != [] && history[|history| - 1].now == now
      ensures confirmed <==> Lasting(confirmSince, now, s) || Majority(history, now, s)
      ensures emergency <==> Lasting(severeSince, now, s)
      ensures confirmed ==> Confirmed(history, now, s)
      ensures emergency ==> Emergency(history, now, s)
    {
      Look();
      forall k: nat | IsWindow(history, k, now, s) ensures k == start { OneWindow(history, k, start, now, s); }
      confirmed := (confirmSince.Some? && now - confirmSince.value >= s.confirmS) || Mostly(pressureTicks, s);
      emergency := severeSince.Some? && now - severeSince.value >= s.confirmS;
    }

    /** What a tick learns, and what it confirms. */
    method Observe(now: real, f: Feedback, sur: Surroundings) returns (confirmed: bool, emergency: bool)
      requires Valid() && After(history, now) && (f.severe ==> f.pressure)
      modifies this, router`controlMode
      ensures Valid() && history == old(history) + [Tick(now, f.pressure, f.severe, sur.exhausted)]
      ensures Memo() == Noted(
        old(Memo()), Tick(now, f.pressure, f.severe, sur.exhausted), sur.riskSignals != old(warningSeen))
      ensures warningSeen == sur.riskSignals && full == old(full)
      ensures confirmed <==> Lasting(confirmSince, now, s) || Majority(history, now, s)
      ensures emergency <==> Lasting(severeSince, now, s)
      ensures confirmed ==> Confirmed(history, now, s)
      ensures emergency ==> Emergency(history, now, s)
    {
      Learn(now, f, sur);
      confirmed, emergency := Judge(now);
    }

    method Learn(now: real, f: Feedback, sur: Surroundings)
      requires Valid() && After(history, now) && (f.severe ==> f.pressure)
      modifies this, router`controlMode
      ensures Valid() && history == old(history) + [Tick(now, f.pressure, f.severe, sur.exhausted)]
      ensures Memo() == Noted(
        old(Memo()), Tick(now, f.pressure, f.severe, sur.exhausted), sur.riskSignals != old(warningSeen))
      ensures warningSeen == sur.riskSignals && full == old(full)
    {
      var tick := Tick(now, f.pressure, f.severe, sur.exhausted);
      Remember(tick);
      StillCalm(old(history), tick);
      NoteSignals(now, f.pressure, sur.riskSignals);
    }

    method Remember(tick: Tick)
      requires SettingsOk(s) && Remembers() && After(history, tick.now) && (tick.severe ==> tick.pressure)
      modifies this`pressureAt, this`confirmSince, this`severeSince, this`pressureTicks, this`history, this`start
      ensures Remembers() && history == old(history) + [tick]
      ensures confirmSince == Unbroken(old(confirmSince), tick.pressure, tick.now)
      ensures severeSince == Unbroken(old(severeSince), tick.severe, tick.now)
      ensures pressureAt == if tick.pressure || tick.exhausted then Some(tick.now) else old(pressureAt)
    {
      Look();
      RememberMore(history, confirmSince, severeSince, pressureAt, tick);
      NoteLatency(tick);
      Slide(tick);
    }

    /** The router is told of every pressured group. */
    method CoolAll(hot: set<Name>, until: real)
      modifies router`cooled
      ensures router.cooled == Cooled(old(router.cooled), hot, until)
    {
      var rest := hot;
      assert old(router.cooled) == Cooled(old(router.cooled), hot - rest, until);
      while rest != {}
        invariant rest <= hot && router.cooled == Cooled(old(router.cooled), hot - rest, until)
        decreases |rest|
      {
        var g := Pick(rest);
        CooledMore(old(router.cooled), hot - rest, g, until);
        assert hot - (rest - {g}) == (hot - rest) + {g};
        router.Cool(g, until);
        rest := rest - {g};
      }
      assert hot - {} == hot;
    }

    /** Cools the pressured groups and keeps serving while some other group has room. */
    method Redirect(now: real, f: Feedback, sur: Surroundings, later: real) returns (done: bool)
      requires Valid() && !fullEffort && !NeverPressed(history)
      modifies this`mode, this`expandedAt, this`redirectedAt, this`confirmSince, router`controlMode, router`cooled
      ensures Valid() && done == CanRedirect(old(Memo()), s, now, f, sur)
      ensures Memo() == var c := Cooling(old(Memo()), s, now, f, sur); if done then Redirected(c, later) else c
    {
      if !s.redirect || Hot(f, sur) == {} { return false; }
      CoolAll(Hot(f, sur), now + s.feedbackWindowS);
      if !HasRoom(router.cooled, sur.routable, now) { return false; }
      Spread(later);
      done := true;
    }

    method Spread(later: real)
      requires Valid() && !fullEffort && !NeverPressed(history)
      modifies this`mode, this`expandedAt, this`redirectedAt, this`confirmSince, router`controlMode
      ensures Valid() && Memo() == Redirected(old(Memo()), later)
    {
      SetMode(Expanding);
      expandedAt, redirectedAt, confirmSince := Some(later), Some(later), None;
    }

    /** All groups to the highest clocks; on entry the router is told, and the offered rate is remembered. */
    method EnterFullEffort(sur: Surroundings, later: real)
      requires Valid() && !NeverPressed(history)
      modifies this`mode, this`redirectedAt, this`fullEffort, this`fullEffortSince, this`fullEffortRate
      modifies router`controlMode, router`fullEffort, router`baselineMode
      ensures Valid() && Memo() == AtFull(old(Memo()), sur.rate, later)
    {
      SetMode(FullEffort);
      redirectedAt := None;
      if !fullEffort { Engage(sur.rate, later); }
    }

    method Engage(rate: real, later: real)
      modifies this`fullEffort, this`fullEffortSince, this`fullEffortRate, router`fullEffort, router`baselineMode
      ensures fullEffort && router.fullEffort && router.baselineMode == s.baselineRouting
      ensures fullEffortSince == Some(later) && fullEffortRate == rate
    {
      fullEffort, router.fullEffort := true, true;
      router.baselineMode := s.baselineRouting;
      fullEffortSince, fullEffortRate := Some(later), rate;
    }

    /** Full effort ends only when production has been quiet, long enough, and the load is gone. */
    method MayLeave(now: real, f: Feedback, sur: Surroundings) returns (leave: bool)
      requires Valid() && fullEffort && history != [] && history[|history| - 1].pressure == f.pressure
      ensures leave == CanLeave(Memo(), s, now, f, sur)
      ensures leave ==> Quiet(history, now, s)
    {
      Look();
      leave :=
        && !f.pressure && Elapsed(now, pressureAt, s.tDownS) && Elapsed(now, fullEffortSince, s.fullEffortMinS)
        && sur.rate <= s.exitRateFraction * fullEffortRate && !sur.exploring && !sur.coldBusy;
    }

    method LeaveFullEffort()
      requires Valid() && fullEffort
      modifies this`mode, this`fullEffort, this`expandedAt, this`redirectedAt
      modifies router`controlMode, router`fullEffort, router`baselineMode
      ensures Valid() && Memo() == Released(old(Memo())) && !router.baselineMode
    {
      fullEffort, router.fullEffort := false, false;
      router.baselineMode := false;
      expandedAt, redirectedAt := None, None;
      SetMode(Energy);
    }

    method Control(now: real, later: real, f: Feedback, sur: Surroundings)
      requires Valid() && After(history, now) && now <= later && (f.severe ==> f.pressure)
      modifies this, router
      ensures full == old(full)
      ensures Valid() && history == old(history) + [Tick(now, f.pressure, f.severe, sur.exhausted)]
      ensures warningSeen == sur.riskSignals
      ensures Memo() == Ticked(old(Memo()), history, s, now, later, f, sur, sur.riskSignals != old(warningSeen))
      ensures fullEffort && !old(fullEffort) ==> Evidence(history, now, s) && fullEffortSince == Some(later)
      ensures mode == Expanding && old(mode) != Expanding ==> Confirmed(history, now, s)
      ensures !fullEffort && old(fullEffort) ==>
        && Quiet(history, now, s) && now - old(fullEffortSince).value >= s.fullEffortMinS
        && sur.rate <= s.exitRateFraction * old(fullEffortRate) && mode == Energy
      ensures fullEffort && old(mode) == Expanding && !sur.exhausted && !Emergency(history, now, s) ==>
        now - old(expandedAt).value >= s.graceS
    {
      var confirmed, emergency := Observe(now, f, sur);
      assert history[|history| - 1] == Tick(now, f.pressure, f.severe, sur.exhausted);
      Act(now, later, f, sur, confirmed, emergency);
    }

    /** In full effort: stay or leave. Else: full effort at once in an emergency, or what the pressure asks for. */
    method Act(now: real, later: real, f: Feedback, sur: Surroundings, confirmed: bool, emergency: bool)
      requires Valid() && history != [] && history[|history| - 1] == Tick(now, f.pressure, f.severe, sur.exhausted)
      requires (confirmed ==> Confirmed(history, now, s)) && (emergency ==> Emergency(history, now, s))
      modifies this, router
      ensures Valid() && history == old(history) && full == old(full) && warningSeen == old(warningSeen)
      ensures Memo() == Acted(old(Memo()), s, now, later, f, sur, confirmed, emergency)
      ensures fullEffort && !old(fullEffort) ==> Evidence(history, now, s) && fullEffortSince == Some(later)
      ensures !fullEffort && old(fullEffort) ==> Quiet(history, now, s)
      ensures mode == Expanding && old(mode) != Expanding ==> Confirmed(history, now, s)
    {
      if fullEffort {
        Remain(now, later, f, sur);
      } else if emergency || sur.exhausted {
        Look();
        EvidencePressed(history, now, s);
        EnterFullEffort(sur, later);
      } else {
        Respond(now, later, f, sur, confirmed);
      }
    }

    method Remain(now: real, later: real, f: Feedback, sur: Surroundings)
      requires Valid() && fullEffort && history != [] && history[|history| - 1].pressure == f.pressure
      modifies this`mode, this`redirectedAt, this`expandedAt, this`fullEffort, this`fullEffortSince, this`fullEffortRate
      modifies router`controlMode, router`fullEffort, router`baselineMode
      ensures Valid()
      ensures var e := AtFull(old(Memo()), sur.rate, later);
        Memo() == if CanLeave(e, s, now, f, sur) then Released(e) else e
      ensures !fullEffort ==> Quiet(history, now, s)
    {
      EnterFullEffort(sur, later);
      var leave := MayLeave(now, f, sur);
      if leave { LeaveFullEffort(); }
    }

    /** One tick of the feedback control. `later` is the clock once its lock changes are through. */
    method FeedbackControl(now: real, later: real, f: Feedback, sur: Surroundings)
      requires Valid() && Kept() && After(history, now) && now <= later && (f.severe ==> f.pressure)
      modifies this, router
      ensures Valid() && Kept() && history == old(history) + [Tick(now, f.pressure, f.severe, sur.exhausted)]
      ensures full == old(full) + [fullEffort]
      ensures warningSeen == sur.riskSignals
      ensures Memo() == Ticked(old(Memo()), history, s, now, later, f, sur, sur.riskSignals != old(warningSeen))
      ensures fullEffort && !old(fullEffort) ==> Evidence(history, now, s)
      ensures mode == Expanding && old(mode) != Expanding ==> Confirmed(history, now, s)
      ensures !fullEffort && old(fullEffort) ==>
        Quiet(history, now, s) && FullFor(old(history), old(full), now, s) && mode == Energy
      ensures fullEffort && old(mode) == Expanding && !sur.exhausted && !Emergency(history, now, s) ==>
        now - old(expandedAt).value >= s.graceS
    {
      ghost var h, was, stayed := history, full, fullEffort;
      if stayed { SinceLasted(h, was, fullEffortSince.value, now, s); }
      Control(now, later, f, sur);
      full := full + [fullEffort];
      if fullEffort {
        LastedOn(h, was, history, stayed, if stayed then old(fullEffortSince).value else later, later);
      }
    }

    /** A redirect, or full effort where none is possible. */
    method Answer(now: real, f: Feedback, sur: Surroundings, later: real)
      requires Valid() && !fullEffort && !NeverPressed(history)
      modifies this`mode, this`expandedAt, this`redirectedAt, this`confirmSince
      modifies this`fullEffort, this`fullEffortSince, this`fullEffortRate, router
      ensures Valid() && Memo() == Answered(old(Memo()), s, now, later, f, sur)
    {
      var done := Redirect(now, f, sur, later);
      if !done { EnterFullEffort(sur, later); }
    }

    method Expand(later: real)
      requires Valid() && !fullEffort && mode != Expanding && !NeverPressed(history)
      modifies this`mode, this`expandedAt, this`confirmSince, router`controlMode
      ensures Valid() && Memo() == old(Memo()).(mode := Expanding, expandedAt := Some(later), confirmSince := None)
    {
      SetMode(Expanding);
      expandedAt, confirmSince := Some(later), None;
    }

    /** Confirmed pressure: more capacity or a redirect first, full effort when that was not enough. */
    method Respond(now: real, later: real, f: Feedback, sur: Surroundings, confirmed: bool)
      requires Valid() && !fullEffort && history != [] && (confirmed ==> Confirmed(history, now, s))
      modifies this`mode, this`expandedAt, this`redirectedAt, this`confirmSince
      modifies this`fullEffort, this`fullEffortSince, this`fullEffortRate, router
      ensures Valid()
      ensures Memo() == Responded(old(Memo()), s, now, later, f, sur, confirmed)
      ensures fullEffort ==> Confirmed(history, now, s) && fullEffortSince == Some(later)
      ensures fullEffort && old(mode) == Expanding ==> now - old(expandedAt).value >= s.graceS
      ensures mode == Expanding && old(mode) != Expanding ==> Confirmed(history, now, s)
    {
      if confirmed {
        Look();
        EvidencePressed(history, now, s);
      }
      if mode == Expanding {
        if now - expandedAt.value < s.graceS { return; }
        if confirmed {
          if redirectedAt.Some? { Answer(now, f, sur, later); } else { EnterFullEffort(sur, later); }
          return;
        }
      } else if confirmed {
        if sur.allServing {
          Answer(now, f, sur, later);
          return;
        }
        Expand(later);
        return;
      }
      Recover(now, f);
    }

    /** Back to energy once it has been quiet for long enough. */
    method Recover(now: real, f: Feedback)
      requires Valid() && !fullEffort
      modifies this`mode, this`expandedAt, this`redirectedAt, router`controlMode
      ensures Valid() && Memo() == Recovered(old(Memo()), s, now, f)
    {
      var quietAfter := if mode == Warning || mode == Confirming then Later(pressureAt, warningAt) else pressureAt;
      if !f.pressure && Elapsed(now, quietAfter, s.tDownS) {
        expandedAt, redirectedAt := None, None;
        SetMode(Energy);
      }
    }

    /** A whole control step: the feedback first, then the planner unless resources were changed. */
    method Step(now: real, later: real, f: Feedback, sur: Surroundings)
      requires Valid() && Kept() && After(history, now) && now <= later && (f.severe ==> f.pressure)
      modifies this, router
      ensures Valid() && Kept() && history == old(history) + [Tick(now, f.pressure, f.severe, sur.exhausted)]
      ensures warningSeen == sur.riskSignals
      ensures Memo() == Planned(
        Ticked(old(Memo()), history, s, now, later, f, sur, sur.riskSignals != old(warningSeen)), later, sur.modelWarning)
      ensures fullEffort && !old(fullEffort) ==> Evidence(history, now, s)
      ensures mode == Expanding && old(mode) != Expanding ==> Confirmed(history, now, s)
      ensures !fullEffort && old(fullEffort) ==>
        Quiet(history, now, s) && FullFor(old(history), old(full), now, s)
    {
      FeedbackControl(now, later, f, sur);
      if mode == Energy || mode == Warning || mode == Confirming { Plan(later, sur.modelWarning); }
    }

    /** The planner's model may only raise a warning. */
    method Plan(now: real, modelWarning: bool)
      requires Valid()
      modifies this`mode, this`warningAt, router`controlMode
      ensures Valid() && Memo() == Planned(old(Memo()), now, modelWarning)
    {
      if modelWarning && mode == Energy {
        warningAt := Some(now);
        SetMode(Warning);
      }
    }
  }

  lemma WindowTail(h: seq<Tick>, tick: Tick, start: nat, s: Settings)
    requires Timely(h) && After(h, tick.now) && start <= |h| + 1
    requires forall j :: 0 <= j < start ==> (h + [tick])[j].now < tick.now - s.confirmWindowS
    requires start < |h| + 1 ==> (h + [tick])[start].now >= tick.now - s.confirmWindowS
    ensures IsWindow(h + [tick], start, tick.now, s)
  {
    forall j | start <= j < |h + [tick]| ensures (h + [tick])[j].now >= tick.now - s.confirmWindowS {
      if j < |h| && start < j { assert h[start].now <= h[j].now; }
    }
  }

  lemma StillCalm(h: seq<Tick>, tick: Tick)
    ensures NeverPressed(h + [tick]) ==> NeverPressed(h) && !tick.pressure && !tick.exhausted
  {
    if NeverPressed(h + [tick]) {
      assert (h + [tick])[|h|] == tick;
      forall j | 0 <= j < |h| ensures !h[j].pressure && !h[j].exhausted { assert (h + [tick])[j] == h[j]; }
    }
  }

  /** What the planner adds: a warning in energy mode, when its model wants more than what serves. */
  function Planned(m: Memory, now: real, modelWarning: bool): Memory {
    if modelWarning && m.mode == Energy then m.(mode := Warning, warningAt := Some(now)) else m
  }

  /** Predictions only warn; production pressure confirms. */
  function Observed(mode: Mode, pressure: bool, warned: bool): Mode {
    if mode != Energy && mode != Warning then mode
    else if pressure then Confirming
    else if warned then Warning else mode
  }
}
