/**
 The dwell timers of link.py.  A cancelled timer may still expire: only the generation
 counter keeps its tick from the state machine, and here it does so alone.
 Times are in nanoseconds.
 */
module Timers {
  import opened LinkFsm
  import opened Handshake

  const TICK_6400_NS: nat := 6400
  const TICK_12800_NS: nat := 12800

  datatype Timer = Timer(gen: nat, tick: Event, due: nat)

  /** A link seen by its timers.  The last four fields are history: when the present state
      was entered, when ErrorReset was last entered, how often it has been re-entered, and
      whether the tick of the present visit to ErrorReset came while the link was disabled. */
  datatype Clocked = Clocked(
    fsm: Fsm,
    gen: nat,
    timers: seq<Timer>,
    now: nat,
    since: nat,
    resetAt: nat,
    resets: nat,
    tickLost: bool)

  predicate HasTimer(s: State) {
    !s.Ready? && !s.Run?
  }

  function ExpectedTick(s: State): Event {
    if s.ErrorReset? then Tick6400 else Tick12800
  }

  function Dwell(s: State): nat {
    if s.ErrorReset? then TICK_6400_NS else TICK_12800_NS
  }

  /** Entering a state cancels the timer of the state before and arms its own, if it has
      one: each is one generation. */
  function GenAfter(gen: nat, s: State): nat {
    if HasTimer(s) then gen + 2 else gen + 1
  }

  function TimersAfter(gen: nat, ts: seq<Timer>, now: nat, s: State): seq<Timer> {
    if HasTimer(s) then ts + [Timer(gen + 2, ExpectedTick(s), now + Dwell(s))] else ts
  }

  function Schedule(c: Clocked): Clocked {
    c.(gen := GenAfter(c.gen, c.fsm.state), timers := TimersAfter(c.gen, c.timers, c.now, c.fsm.state))
  }

  function FeedClocked(c: Clocked, ev: Event): Clocked {
    var f := Feed(c.fsm, ev);
    if f.state == c.fsm.state then
      c.(fsm := f, tickLost := c.tickLost || (f.state.ErrorReset? && ev.Tick6400? && c.fsm.linkDisable))
    else
      Schedule(c.(
        fsm := f,
        since := c.now,
        resetAt := if f.state.ErrorReset? then c.now else c.resetAt,
        resets := if f.state.ErrorReset? then c.resets + 1 else c.resets,
        tickLost := false))
  }

  /** A started link: the ErrorReset timer is armed before anything else happens. */
  const BEGIN := Clocked(POWER_ON, 1, [Timer(1, Tick6400, TICK_6400_NS)], 0, 0, 0, 0, false)

  datatype ClockStep = Outside(ev: Event) | Expire(i: nat) | Wait(ns: nat)

  predicate IsTick(ev: Event) {
    ev.Tick6400? || ev.Tick12800?
  }

  predicate Possible(c: Clocked, s: ClockStep) {
    match s
    case Outside(ev) => !IsTick(ev)
    case Expire(i) => i < |c.timers| && c.timers[i].due == c.now
    case Wait(ns) => forall i :: 0 <= i < |c.timers| ==> c.now + ns <= c.timers[i].due
  }

  function Drop(ts: seq<Timer>, i: nat): seq<Timer>
    requires i < |ts|
  {
    ts[..i] + ts[i + 1..]
  }

  /** An expired timer feeds its tick only if it carries the current generation. */
  function Do(c: Clocked, s: ClockStep): Clocked
    requires Possible(c, s)
  {
    match s
    case Outside(ev) => FeedClocked(c, ev)
    case Expire(i) =>
      var d := c.(timers := Drop(c.timers, i));
      if c.timers[i].gen == c.gen then FeedClocked(d, c.timers[i].tick) else d
    case Wait(ns) => c.(now := c.now + ns)
  }

  /** A step that is not possible changes nothing. */
  function DoAll(c: Clocked, ss: seq<ClockStep>): Clocked
    decreases |ss|
  {
    if ss == [] then c else DoAll(if Possible(c, ss[0]) then Do(c, ss[0]) else c, ss[1..])
  }

  // ----- the invariant ----------------------------------------------------------------------

  /** A pending timer of the current generation is the one of the present state. */
  predicate TimerFits(c: Clocked, t: Timer) {
    && t.gen <= c.gen
    && c.now <= t.due
    && (t.gen == c.gen ==>
          && HasTimer(c.fsm.state)
          && t.tick == ExpectedTick(c.fsm.state)
          && t.due == c.since + Dwell(c.fsm.state))
  }

  predicate AtMostOneCurrent(c: Clocked) {
    forall i, j :: 0 <= i < j < |c.timers| ==> c.timers[i].gen != c.gen || c.timers[j].gen != c.gen
  }

  predicate Live(c: Clocked) {
    exists i :: 0 <= i < |c.timers| && c.timers[i].gen == c.gen
  }

  /** How long after the last entry to ErrorReset each state can have been entered. */
  predicate EntryTimes(c: Clocked) {
    match c.fsm.state
    case ErrorReset => c.since == c.resetAt
    case ErrorWait => c.since == c.resetAt + 6400
    case Ready => c.since == c.resetAt + 19200
    case Started | Connecting | Run => c.since >= c.resetAt + 19200
  }

  ghost predicate ClockOk(c: Clocked) {
    && AtRest(c.fsm)
    && (forall i :: 0 <= i < |c.timers| ==> TimerFits(c, c.timers[i]))
    && AtMostOneCurrent(c)
    && (Live(c) <==> HasTimer(c.fsm.state) && !(c.fsm.state.ErrorReset? && c.tickLost))
    && (c.tickLost ==> c.fsm.state.ErrorReset?)
    && c.since <= c.now
    && EntryTimes(c)
  }

  // ----- every step keeps it -------------------------------------------------------------------

  /** No pending timer is overdue or from a later generation. */
  predicate TimersPast(c: Clocked) {
    forall i :: 0 <= i < |c.timers| ==> c.timers[i].gen <= c.gen && c.now <= c.timers[i].due
  }

  lemma ScheduleKeeps(c: Clocked)
    requires AtRest(c.fsm) && TimersPast(c) && c.since == c.now && !c.tickLost && EntryTimes(c)
    ensures ClockOk(Schedule(c))
  {
    var d := Schedule(c);
    if HasTimer(c.fsm.state) {
      assert d.timers[|c.timers|].gen == d.gen;
    }
  }

  /** Where an event can lead, and how the entry times go with it. */
  lemma FeedKeepsEntryTimes(c: Clocked, ev: Event)
    requires AtRest(c.fsm) && EntryTimes(c) && c.since <= c.now
    requires IsTick(ev) ==> HasTimer(c.fsm.state) && ev == ExpectedTick(c.fsm.state)
                            && c.now == c.since + Dwell(c.fsm.state)
    ensures var f := Feed(c.fsm, ev);
            var d := c.(fsm := f, since := c.now, resetAt := if f.state.ErrorReset? then c.now else c.resetAt);
            f.state != c.fsm.state ==> EntryTimes(d)
  {
    FeedFollowsArc(c.fsm, ev);
  }

  lemma OutsideKeeps(c: Clocked, ev: Event)
    requires ClockOk(c) && !IsTick(ev)
    ensures ClockOk(FeedClocked(c, ev))
  {
    var f := Feed(c.fsm, ev);
    FeedKeepsAtRest(c.fsm, ev);
    if f.state != c.fsm.state {
      FeedKeepsEntryTimes(c, ev);
      ScheduleKeeps(c.(
        fsm := f, since := c.now,
        resetAt := if f.state.ErrorReset? then c.now else c.resetAt,
        resets := if f.state.ErrorReset? then c.resets + 1 else c.resets,
        tickLost := false));
    }
  }

  lemma DropKeeps(c: Clocked, i: nat)
    requires i < |c.timers| && AtMostOneCurrent(c) && (forall j :: 0 <= j < |c.timers| ==> TimerFits(c, c.timers[j]))
    ensures var d := c.(timers := Drop(c.timers, i));
            && AtMostOneCurrent(d) && TimersPast(d)
            && (forall j :: 0 <= j < |d.timers| ==> TimerFits(d, d.timers[j]))
            && (Live(d) <==> Live(c) && c.timers[i].gen != c.gen)
  {
    var d := c.(timers := Drop(c.timers, i));
    assert forall j :: 0 <= j < |d.timers| ==> d.timers[j] == c.timers[if j < i then j else j + 1];
    if Live(c) && c.timers[i].gen != c.gen {
      var j :| 0 <= j < |c.timers| && c.timers[j].gen == c.gen;
      assert d.timers[if j < i then j else j - 1] == c.timers[j];
    }
  }

  /** The tick of the present state always moves it on, except in ErrorReset while disabled. */
  lemma ExpectedTickMoves(f: Fsm)
    requires HasTimer(f.state)
    ensures Feed(f, ExpectedTick(f.state)).state == f.state <==> f.state.ErrorReset? && f.linkDisable
  {
  }

  lemma CurrentExpiryKeeps(c: Clocked, i: nat)
    requires ClockOk(c) && Possible(c, Expire(i)) && c.timers[i].gen == c.gen
    ensures ClockOk(Do(c, Expire(i)))
  {
    var d := c.(timers := Drop(c.timers, i));
    var ev := c.timers[i].tick;
    DropKeeps(c, i);
    assert TimerFits(c, c.timers[i]);
    var f := Feed(c.fsm, ev);
    FeedKeepsAtRest(c.fsm, ev);
    ExpectedTickMoves(c.fsm);
    if f.state != c.fsm.state {
      FeedKeepsEntryTimes(c, ev);
      ScheduleKeeps(d.(
        fsm := f, since := c.now,
        resetAt := if f.state.ErrorReset? then c.now else c.resetAt,
        resets := if f.state.ErrorReset? then c.resets + 1 else c.resets,
        tickLost := false));
    }
  }

  lemma StepKeepsClock(c: Clocked, s: ClockStep)
    requires ClockOk(c) && Possible(c, s)
    ensures ClockOk(Do(c, s))
  {
    match s
    case Outside(ev) => OutsideKeeps(c, ev);
    case Expire(i) =>
      if c.timers[i].gen == c.gen {
        CurrentExpiryKeeps(c, i);
      } else {
        DropKeeps(c, i);
      }
    case Wait(ns) =>
      var d := c.(now := c.now + ns);
      assert forall i :: 0 <= i < |d.timers| ==> TimerFits(c, c.timers[i]);
      assert Live(d) <==> Live(c);
  }

  ghost predicate ClockReachable(c: Clocked) {
    exists ss :: c == DoAll(BEGIN, ss)
  }

  lemma {:induction false} RunKeepsClock(c: Clocked, ss: seq<ClockStep>)
    requires ClockOk(c)
    ensures ClockOk(DoAll(c, ss))
    decreases |ss|
  {
    if ss != [] {
      if Possible(c, ss[0]) {
        StepKeepsClock(c, ss[0]);
      }
      RunKeepsClock(if Possible(c, ss[0]) then Do(c, ss[0]) else c, ss[1..]);
    }
  }

  lemma BeginIsOk()
    ensures ClockOk(BEGIN)
  {
    assert BEGIN.timers[0] == Timer(1, Tick6400, 6400);
    assert Live(BEGIN);
  }

  lemma ReachableClockIsOk(c: Clocked)
    requires ClockReachable(c)
    ensures ClockOk(c)
  {
    var ss :| c == DoAll(BEGIN, ss);
    BeginIsOk();
    RunKeepsClock(BEGIN, ss);
  }

  // ----- results ----------------------------------------------------------------------------------

  /** Main result: a tick that reaches the state machine is the one its state waits for; none
      ever reaches Ready or Run, and at most one pending timer can deliver one. */
  lemma NoStaleTick(c: Clocked, i: nat)
    requires ClockReachable(c) && Possible(c, Expire(i)) && c.timers[i].gen == c.gen
    ensures c.timers[i].tick == ExpectedTick(c.fsm.state)
    ensures !c.fsm.state.Ready? && !c.fsm.state.Run?
    ensures forall j :: 0 <= j < |c.timers| && j != i ==> c.timers[j].gen != c.gen
  {
    ReachableClockIsOk(c);
    assert TimerFits(c, c.timers[i]);
    assert AtMostOneCurrent(c);
  }

  /** Main result: exactly when a timer is running: in ErrorWait, Started and Connecting
      always, in Ready and Run never, and in ErrorReset unless its tick came while the
      link was disabled. */
  lemma TimerRunsExactly(c: Clocked)
    requires ClockReachable(c)
    ensures Live(c) <==> HasTimer(c.fsm.state) && !(c.fsm.state.ErrorReset? && c.tickLost)
  {
    ReachableClockIsOk(c);
  }

  /** What the guard of the branch decides, as a caller can check it before the tick: the
      timer of ErrorReset leaves a running timer behind exactly when the link is not disabled
      as it expires. */
  lemma ResetTickNeedsEnabledLink(c: Clocked, i: nat)
    requires ClockReachable(c) && c.fsm.state.ErrorReset?
    requires Possible(c, Expire(i)) && c.timers[i].gen == c.gen
    ensures Live(Do(c, Expire(i))) <==> !c.fsm.linkDisable
    ensures Do(c, Expire(i)).fsm.state == if c.fsm.linkDisable then ErrorReset else ErrorWait
  {
    ReachableClockIsOk(c);
    assert TimerFits(c, c.timers[i]);
    CurrentExpiryKeeps(c, i);
    FeedInErrorReset(c.fsm, Tick6400);
    assert Live(c);
  }

  /** A link disabled before its first tick loses it, and no later command brings it back. */
  lemma DisabledStartIsStuck(ss: seq<ClockStep>)
    ensures DoAll(BEGIN, [Outside(LinkDisable), Wait(6400), Expire(0)]).timers == []
    ensures DoAll(BEGIN, [Outside(LinkDisable), Wait(6400), Expire(0)] + ss).fsm.state == ErrorReset
  {
    var steps := [Outside(LinkDisable), Wait(6400), Expire(0)];
    var c := BEGIN.(fsm := UpdateFlags(POWER_ON, LinkDisable));
    FeedInErrorReset(POWER_ON, LinkDisable);
    var d := c.(now := 6400);
    FeedInErrorReset(d.fsm, Tick6400);
    var e := Do(d, Expire(0));
    assert DoAll(BEGIN, [Outside(LinkDisable)]) == c by { assert DoAll(c, []) == c; }
    assert Drop(d.timers, 0) == [];
    DoTwo(c, Wait(6400), d, Expire(0), e);
    assert steps == [Outside(LinkDisable)] + [Wait(6400), Expire(0)];
    DoAllSplits(BEGIN, [Outside(LinkDisable)], [Wait(6400), Expire(0)]);
    DoAllSplits(BEGIN, steps, ss);
    BeginIsOk();
    RunKeepsClock(BEGIN, steps);
    LostTickIsForever(e, ss);
  }

  /** A consumed tick is not re-armed: from ErrorReset without a running timer the link
      stays there for good, whatever is fed to it, a cleared disable included. */
  lemma {:induction false} LostTickIsForever(c: Clocked, ss: seq<ClockStep>)
    requires ClockOk(c) && c.fsm.state.ErrorReset? && !Live(c)
    ensures var d := DoAll(c, ss);
            ClockOk(d) && d.fsm.state.ErrorReset? && !Live(d)
    decreases |ss|
  {
    if ss != [] {
      if Possible(c, ss[0]) {
        StepKeepsClock(c, ss[0]);
        OnlyTicksLeaveErrorReset(c, ss[0]);
        LostTickIsForever(Do(c, ss[0]), ss[1..]);
      } else {
        LostTickIsForever(c, ss[1..]);
      }
    }
  }

  lemma OnlyTicksLeaveErrorReset(c: Clocked, s: ClockStep)
    requires ClockOk(c) && c.fsm.state.ErrorReset? && !Live(c) && Possible(c, s)
    ensures Do(c, s).fsm.state.ErrorReset? && Do(c, s).tickLost
  {
    match s
    case Outside(ev) => FeedFollowsArc(c.fsm, ev);
    case Expire(i) => assert c.timers[i].gen != c.gen;
    case Wait(_) =>
  }

  predicate NeverDisabled(ss: seq<ClockStep>) {
    forall i :: 0 <= i < |ss| ==> ss[i] != Outside(LinkDisable)
  }

  /** A link that is never disabled loses no tick: its four timed states always have a
      running timer. */
  lemma {:induction false} EnabledLinkKeepsTimer(c: Clocked, ss: seq<ClockStep>)
    requires ClockOk(c) && !c.fsm.linkDisable && !c.tickLost && NeverDisabled(ss)
    ensures var d := DoAll(c, ss);
            ClockOk(d) && !d.fsm.linkDisable && (HasTimer(d.fsm.state) ==> Live(d))
    decreases |ss|
  {
    if ss != [] {
      assert ss[0] != Outside(LinkDisable);
      if Possible(c, ss[0]) {
        StepKeepsClock(c, ss[0]);
        StaysEnabled(c, ss[0]);
        EnabledLinkKeepsTimer(Do(c, ss[0]), ss[1..]);
      } else {
        EnabledLinkKeepsTimer(c, ss[1..]);
      }
    }
  }

  lemma StaysEnabled(c: Clocked, s: ClockStep)
    requires ClockOk(c) && !c.fsm.linkDisable && !c.tickLost && Possible(c, s) && s != Outside(LinkDisable)
    ensures !Do(c, s).fsm.linkDisable && !Do(c, s).tickLost
  {
    match s
    case Outside(ev) => DisableIsExplicit(c.fsm, ev);
    case Expire(i) =>
      assert TimerFits(c, c.timers[i]);
      DisableIsExplicit(c.fsm, c.timers[i].tick);
      if c.timers[i].gen == c.gen { ExpectedTickMoves(c.fsm); }
    case Wait(_) =>
  }

  lemma DisableIsExplicit(f: Fsm, ev: Event)
    ensures Feed(f, ev).linkDisable ==> f.linkDisable || ev.LinkDisable?
  {
  }

  /** Main result: Run is never entered earlier than 19200 ns after the last entry to
      ErrorReset. */
  lemma RunNotBefore19200(c: Clocked)
    requires ClockReachable(c) && c.fsm.state.Run?
    ensures c.since >= c.resetAt + 19200
  {
    ReachableClockIsOk(c);
  }

  // ----- the cycle of a lone endpoint -----------------------------------------------------------------

  /** What can happen at an endpoint with linkStart set, never disabled, and a silent peer. */
  predicate LocalOnly(s: ClockStep) {
    match s
    case Outside(ev) =>
      ev.SentNull? || ev.SentFct? || ev.LinkStart? || ev.AutoStart? || ev.AutoStartClear?
      || ev.LinkDisableClear?
    case _ => true
  }

  /** The position of a lone endpoint in its cycle of 32000 ns. */
  ghost predicate InCycle(c: Clocked) {
    && ClockOk(c)
    && c.fsm.linkStart && !c.fsm.linkDisable && !c.fsm.gotNull && !c.tickLost
    && c.resetAt == 32000 * c.resets
    && match c.fsm.state
       case ErrorReset => c.since == c.resetAt
       case ErrorWait => c.since == c.resetAt + 6400
       case Started => c.since == c.resetAt + 19200
       case _ => false
  }

  lemma LocalFeedStaysInCycle(c: Clocked, ev: Event)
    requires InCycle(c) && !IsTick(ev) && LocalOnly(Outside(ev))
    ensures InCycle(FeedClocked(c, ev))
  {
    OutsideKeeps(c, ev);
    assert Feed(c.fsm, ev).state == c.fsm.state;
  }

  lemma TickStaysInCycle(c: Clocked, i: nat)
    requires InCycle(c) && Possible(c, Expire(i)) && c.timers[i].gen == c.gen
    ensures InCycle(Do(c, Expire(i)))
  {
    CurrentExpiryKeeps(c, i);
    assert TimerFits(c, c.timers[i]);
    LoneTick(c.fsm);
  }

  lemma LoneTick(f: Fsm)
    requires f.linkStart && !f.linkDisable && !f.gotNull
    ensures f.state.ErrorReset? ==> Feed(f, Tick6400) == Enter(f, ErrorWait)
    ensures f.state.ErrorWait? ==> Feed(f, Tick12800) == Enter(Enter(f, Ready), Started)
    ensures f.state.Started? ==> Feed(f, Tick12800) == Enter(f, ErrorReset)
  {
  }

  lemma StepStaysInCycle(c: Clocked, s: ClockStep)
    requires InCycle(c) && Possible(c, s) && LocalOnly(s)
    ensures InCycle(Do(c, s))
  {
    match s
    case Outside(ev) => LocalFeedStaysInCycle(c, ev);
    case Expire(i) =>
      StepKeepsClock(c, s);
      if c.timers[i].gen == c.gen { TickStaysInCycle(c, i); }
    case Wait(_) => StepKeepsClock(c, s);
  }

  lemma {:induction false} RunStaysInCycle(c: Clocked, ss: seq<ClockStep>)
    requires InCycle(c) && forall i :: 0 <= i < |ss| ==> LocalOnly(ss[i])
    ensures InCycle(DoAll(c, ss))
    decreases |ss|
  {
    if ss != [] {
      if Possible(c, ss[0]) {
        StepStaysInCycle(c, ss[0]);
        RunStaysInCycle(Do(c, ss[0]), ss[1..]);
      } else {
        RunStaysInCycle(c, ss[1..]);
      }
    }
  }

  /** Main result: with linkStart set at the start and a silent peer, the k-th re-entry to
      ErrorReset happens at exactly 32000 k ns, and none is ever overdue, in every run and
      for every k. */
  lemma LoneCycle(ss: seq<ClockStep>)
    requires forall i :: 0 <= i < |ss| ==> LocalOnly(ss[i])
    ensures var c := DoAll(FeedClocked(BEGIN, LinkStart), ss);
            && c.resetAt == 32000 * c.resets
            && c.resetAt <= c.now <= 32000 * (c.resets + 1)
  {
    BeginIsOk();
    OutsideKeeps(BEGIN, LinkStart);
    RunStaysInCycle(FeedClocked(BEGIN, LinkStart), ss);
    var c := DoAll(FeedClocked(BEGIN, LinkStart), ss);
    var i :| 0 <= i < |c.timers| && c.timers[i].gen == c.gen;
    assert TimerFits(c, c.timers[i]);
  }

  lemma {:induction false} DoAllSplits(c: Clocked, a: seq<ClockStep>, b: seq<ClockStep>)
    ensures DoAll(c, a + b) == DoAll(DoAll(c, a), b)
    decreases |a|
  {
    if a == [] {
      assert a + b == b;
    } else {
      assert (a + b)[1..] == a[1..] + b;
      DoAllSplits(if Possible(c, a[0]) then Do(c, a[0]) else c, a[1..], b);
    }
  }

  lemma DoTwo(c: Clocked, s: ClockStep, d: Clocked, t: ClockStep, e: Clocked)
    requires Possible(c, s) && Do(c, s) == d
    requires Possible(d, t) && Do(d, t) == e
    ensures DoAll(c, [s, t]) == e
  {
    assert [s, t][1..] == [t];
    assert DoAll(e, []) == e;
    assert DoAll(d, [t]) == e;
  }

  /** A lone endpoint that has just entered a state, the timer of that state its only one. */
  predicate JustEntered(c: Clocked, f: Fsm) {
    c.fsm == f && c.timers == [Timer(c.gen, ExpectedTick(f.state), c.now + Dwell(f.state))]
  }

  lemma DwellOver(c: Clocked, f: Fsm, g: Fsm)
    requires JustEntered(c, f) && g == Feed(f, ExpectedTick(f.state)) && g.state != f.state && HasTimer(g.state)
    ensures var d := DoAll(c, [Wait(Dwell(f.state)), Expire(0)]);
            && JustEntered(d, g) && d.now == c.now + Dwell(f.state)
            && d.resets == c.resets + if g.state.ErrorReset? then 1 else 0
  {
    var d := c.(now := c.now + Dwell(f.state));
    assert Drop(d.timers, 0) == [];
    DoTwo(c, Wait(Dwell(f.state)), d, Expire(0), Do(d, Expire(0)));
  }

  const LONE_RESET := Fsm(ErrorReset, false, true, false, false, false, false, false)
  const LONE_WAIT := Fsm(ErrorWait, false, true, false, false, false, false, false)
  const LONE_STARTED := Fsm(Started, false, true, false, false, false, false, false)

  const DWELL_6400: seq<ClockStep> := [Wait(6400), Expire(0)]
  const DWELL_12800: seq<ClockStep> := [Wait(12800), Expire(0)]

  lemma OneCycle(c: Clocked)
    requires JustEntered(c, LONE_RESET)
    ensures var d := DoAll(c, DWELL_6400 + DWELL_12800 + DWELL_12800);
            JustEntered(d, LONE_RESET) && d.resets == c.resets + 1 && d.now == c.now + 32000
  {
    DwellOver(c, LONE_RESET, LONE_WAIT);
    var d := DoAll(c, DWELL_6400);
    DwellOver(d, LONE_WAIT, LONE_STARTED);
    var e := DoAll(d, DWELL_12800);
    DwellOver(e, LONE_STARTED, LONE_RESET);
    DoAllSplits(c, DWELL_6400, DWELL_12800);
    DoAllSplits(c, DWELL_6400 + DWELL_12800, DWELL_12800);
  }

  /** The cycle does go round: for every k some run re-enters ErrorReset k times. */
  lemma {:induction false} CycleReaches(k: nat) returns (ss: seq<ClockStep>)
    ensures forall i :: 0 <= i < |ss| ==> LocalOnly(ss[i])
    ensures var c := DoAll(FeedClocked(BEGIN, LinkStart), ss);
            JustEntered(c, LONE_RESET) && c.resets == k && c.now == 32000 * k
    decreases k
  {
    if k == 0 {
      ss := [];
    } else {
      var before := CycleReaches(k - 1);
      var cycle := DWELL_6400 + DWELL_12800 + DWELL_12800;
      ss := before + cycle;
      assert forall i :: 0 <= i < |cycle| ==> LocalOnly(cycle[i]);
      var start := FeedClocked(BEGIN, LinkStart);
      DoAllSplits(start, before, cycle);
      OneCycle(DoAll(start, before));
    }
  }
}
