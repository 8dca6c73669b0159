/**
 Transmit credit outside Run.  FCTs are counted in every state, also those that arrive after
 a reset has cleared the counters and those that caused it; nothing spends or clears that
 credit before Run.  So a new session can start with credit its peer never granted in it.
 */
module StaleCredit {
  import opened LinkFsm
  import opened FlowControl
  import opened Packets
  import opened Endpoints
  import opened EndpointFacts
  import opened Sessions

  /** An FCT does no harm in Connecting and Run, and in the earlier states leads to neither. */
  lemma FctIsNoErrorLater(f: Fsm)
    ensures f.state.Connecting? || f.state.Run? ==> !Feed(f, GotFct).state.ErrorReset?
    ensures f.state.ErrorReset? ==> Feed(f, GotFct).state.ErrorReset?
    ensures Feed(f, GotFct).state.Connecting? || Feed(f, GotFct).state.Run? ==>
              f.state.Connecting? || f.state.Run?
  {
    match f.state
    case ErrorReset => FeedInErrorReset(f, GotFct);
    case ErrorWait => FeedInErrorWait(f, GotFct);
    case Ready => FeedInReady(f, GotFct);
    case Started => FeedInStarted(f, GotFct);
    case Connecting => FeedInConnecting(f, GotFct);
    case Run => FeedInRun(f, GotFct);
  }

  /** A credit error resets only Connecting and Run. */
  lemma CreditErrIsLate(g: Fsm)
    ensures Feed(g, CreditErr).state.ErrorReset? ==>
              g.state.ErrorReset? || g.state.Connecting? || g.state.Run?
  {
    match g.state
    case ErrorWait => FeedInErrorWait(g, CreditErr);
    case Ready => FeedInReady(g, CreditErr);
    case Started => FeedInStarted(g, CreditErr);
    case _ =>
  }

  /** An FCT outside Connecting and Run drops the link exactly when a NULL has been heard and
      the end is not in ErrorReset already. */
  lemma EarlyFctDropsExactly(e: Endpoint)
    requires !e.fsm.state.Connecting? && !e.fsm.state.Run?
    ensures Dispatch(e, HeardFct).resets > e.resets <==> e.fsm.gotNull && !e.fsm.state.ErrorReset?
  {
    FeedClears(e, GotFct);
    EarlyFct(e.fsm);
    FctIsNoErrorLater(e.fsm);
    CreditErrIsLate(Feed(e.fsm, GotFct));
    FeedClears(FeedFsm(e, GotFct), CreditErr);
  }

  lemma EarlyFct(f: Fsm)
    requires !f.state.Connecting? && !f.state.Run?
    ensures Feed(f, GotFct).state.ErrorReset? <==> f.gotNull || f.state.ErrorReset?
  {
    match f.state
    case ErrorReset => FeedInErrorReset(f, GotFct);
    case ErrorWait => FeedInErrorWait(f, GotFct);
    case Ready => FeedInReady(f, GotFct);
    case Started => FeedInStarted(f, GotFct);
  }

  /** The credits with which a received character that resets an end leaves it: an FCT that
      was itself the error is counted after the counters were cleared, a credit overflow is
      not. */
  lemma CreditAfterReset(e: Endpoint, h: Heard)
    requires Dispatch(e, h).resets > e.resets
    ensures Dispatch(e, h).fsm.state.ErrorReset? && Dispatch(e, h).credit.rx == 0
    ensures Dispatch(e, h).credit.tx ==
              if h.HeardFct? && !e.fsm.state.Connecting? && !e.fsm.state.Run? then 8 else 0
  {
    match h
    case HeardError => FeedClears(e, RxErr);
    case HeardNull => FeedClears(e, GotNull);
    case HeardTimeCode => FeedClears(e, GotTimeCode);
    case HeardFct =>
      FeedClears(e, GotFct);
      FctIsNoErrorLater(e.fsm);
      CreditErrIsLate(Feed(e.fsm, GotFct));
      FeedClears(FeedFsm(e, GotFct), CreditErr);
    case HeardNormal(_) =>
      FeedClears(e, GotNChar);
      FeedClears(FeedFsm(e, GotNChar), CreditErr);
  }

  // ----- counting FCTs since the last entry to ErrorReset --------------------------------------

  function Min(a: nat, b: nat): nat {
    if a <= b then a else b
  }

  predicate IsFct(x: Happening) {
    x.Hear? && x.h.HeardFct?
  }

  /** FCTs heard since the last entry to ErrorReset, one more happening later.  An FCT that
      is the error itself, in a state where none is expected, belongs to the session it
      starts; one that overflows the credit of Connecting or Run belongs to the one it ends. */
  function Recount(e: Endpoint, x: Happening, n: nat): nat {
    if Happen(e, x).resets == e.resets then n + (if IsFct(x) then 1 else 0)
    else if IsFct(x) && !e.fsm.state.Connecting? && !e.fsm.state.Run? then 1
    else 0
  }

  /** The FCTs heard since the last entry to ErrorReset in a run from `e`, `n` of them
      before it. */
  function FctsSinceReset(e: Endpoint, xs: seq<Happening>, n: nat): nat
    decreases |xs|
  {
    if xs == [] then n else FctsSinceReset(Happen(e, xs[0]), xs[1..], Recount(e, xs[0], n))
  }

  function FctsHeard(xs: seq<Happening>): nat
    decreases |xs|
  {
    if xs == [] then 0 else (if IsFct(xs[0]) then 1 else 0) + FctsHeard(xs[1..])
  }

  /** In a run without a reset these are simply the FCTs heard. */
  lemma {:induction false} AllCountWithoutReset(e: Endpoint, xs: seq<Happening>, n: nat)
    requires HappenAll(e, xs).resets == e.resets
    ensures FctsSinceReset(e, xs, n) == n + FctsHeard(xs)
    decreases |xs|
  {
    if xs != [] {
      ResetsOnlyGrow(e, xs[0]);
      RunResetsOnlyGrow(Happen(e, xs[0]), xs[1..]);
      AllCountWithoutReset(Happen(e, xs[0]), xs[1..], Recount(e, xs[0], n));
    }
  }

  /** Outside Run the transmit credit is what those FCTs amount to, up to the maximum. */
  predicate CreditIsStale(e: Endpoint, n: nat) {
    !e.fsm.state.Run? ==> e.credit.tx == 8 * Min(7, n)
  }

  lemma FeedKeepsStale(e: Endpoint, ev: Event, n: nat)
    requires CreditIsStale(e, n)
    ensures CreditIsStale(FeedFsm(e, ev), if FeedFsm(e, ev).resets == e.resets then n else 0)
  {
    FeedClears(e, ev);
    UpStaysUp(e.fsm, ev);
  }

  /** One more FCT counts eight, unless the credit is at its maximum already. */
  lemma FctCounts(d: Endpoint, n: nat)
    requires CreditIsStale(d, n)
    ensures CreditIsStale(d.(credit := OnFctReceived(d.credit)), n + 1)
  {
  }

  lemma OverflowKeepsStale(d: Endpoint, n: nat)
    requires CreditIsStale(d, n) && !FctFits(d.credit)
    ensures var f := FeedFsm(d, CreditErr);
            && CreditIsStale(f, if f.resets == d.resets then n + 1 else 0)
            && (f.resets != d.resets ==> d.fsm.state.Connecting? || d.fsm.state.Run?)
  {
    FctCounts(d, n);
    FeedKeepsStale(d, CreditErr, n + 1);
    FeedClears(d, CreditErr);
    CreditErrIsLate(d.fsm);
  }

  lemma FctKeepsStale(e: Endpoint, n: nat)
    requires CreditIsStale(e, n)
    ensures CreditIsStale(Dispatch(e, HeardFct), Recount(e, Hear(HeardFct), n))
  {
    var d := FeedFsm(e, GotFct);
    var m := if d.resets == e.resets then n else 0;
    FeedClears(e, GotFct);
    FctIsNoErrorLater(e.fsm);
    FeedKeepsStale(e, GotFct, n);
    if FctFits(d.credit) { FctCounts(d, m); } else { OverflowKeepsStale(d, m); }
  }

  lemma HearKeepsStale(e: Endpoint, h: Heard, n: nat)
    requires CreditIsStale(e, n)
    ensures CreditIsStale(Dispatch(e, h), Recount(e, Hear(h), n))
  {
    match h
    case HeardError => FeedKeepsStale(e, RxErr, n);
    case HeardNull => FeedKeepsStale(e, GotNull, n);
    case HeardTimeCode => FeedKeepsStale(e, GotTimeCode, n);
    case HeardFct => FctKeepsStale(e, n);
    case HeardNormal(_) =>
      FeedKeepsStale(e, GotNChar, n);
      FeedClears(e, GotNChar);
      var d := FeedFsm(e, GotNChar);
      FeedKeepsStale(d, CreditErr, if d.resets == e.resets then n else 0);
      FeedClears(d, CreditErr);
  }

  lemma CompleteKeepsStale(e: Endpoint, n: nat)
    requires CreditIsStale(e, n) && e.slot.Driving?
    ensures CreditIsStale(Complete(e), Recount(e, CompleteChar, n))
  {
    var d := e.(slot := Idle);
    match e.slot.ch
    case Null => FeedKeepsStale(d, SentNull, n); FeedClears(d, SentNull);
    case Fct => FeedKeepsStale(d, SentFct, n); FeedClears(d, SentFct);
    case Normal(_) =>
  }

  lemma HappenKeepsStale(e: Endpoint, x: Happening, n: nat)
    requires CreditIsStale(e, n)
    ensures CreditIsStale(Happen(e, x), Recount(e, x, n))
  {
    match x
    case PickNext =>
    case CompleteChar => if e.slot.Driving? { CompleteKeepsStale(e, n); }
    case Hear(h) => HearKeepsStale(e, h, n);
    case Take =>
    case Queue(_) =>
    case External(ev) => if IsExternal(ev) { FeedKeepsStale(e, ev, n); FeedClears(e, ev); }
  }

  lemma {:induction false} RunKeepsStale(e: Endpoint, xs: seq<Happening>, n: nat)
    requires CreditIsStale(e, n)
    ensures CreditIsStale(HappenAll(e, xs), FctsSinceReset(e, xs, n))
    decreases |xs|
  {
    if xs != [] {
      HappenKeepsStale(e, xs[0], n);
      RunKeepsStale(Happen(e, xs[0]), xs[1..], Recount(e, xs[0], n));
    }
  }

  /** Main result: over every history from power-up, resets included, the transmit credit of
      an end that is not in Run is eight for each FCT heard since the last entry to
      ErrorReset, up to 56.  It is zero if and only if none was heard. */
  lemma StaleCreditExactly(cfg: Config, maxRx: nat, xs: seq<Happening>)
    requires !HappenAll(NewEndpoint(cfg, maxRx), xs).fsm.state.Run?
    ensures var e := NewEndpoint(cfg, maxRx);
            var n := FctsSinceReset(e, xs, 0);
            && HappenAll(e, xs).credit.tx == 8 * Min(7, n)
            && (HappenAll(e, xs).credit.tx == 0 <==> n == 0)
  {
    RunKeepsStale(NewEndpoint(cfg, maxRx), xs, 0);
  }

  /** The same within one session, from any state outside Run: the credit it had, and eight
      for every FCT heard since. */
  lemma StaleCreditOfSession(cfg: Config, maxRx: nat, xs: seq<Happening>, ys: seq<Happening>)
    requires var e := HappenAll(NewEndpoint(cfg, maxRx), xs);
             && !e.fsm.state.Run? && !HappenAll(e, ys).fsm.state.Run?
             && HappenAll(e, ys).resets == e.resets
    ensures var e := HappenAll(NewEndpoint(cfg, maxRx), xs);
            HappenAll(e, ys).credit.tx == 8 * Min(7, e.credit.tx / 8 + FctsHeard(ys))
  {
    var e := HappenAll(NewEndpoint(cfg, maxRx), xs);
    RunKeepsStale(NewEndpoint(cfg, maxRx), xs, 0);
    var n := e.credit.tx / 8;
    RunKeepsStale(e, ys, n);
    AllCountWithoutReset(e, ys, n);
  }

  // ----- runs from power-up that show it ---------------------------------------------------------

  /** An FCT heard in ErrorReset is counted, if there is room for it, and changes nothing else. */
  lemma FctInErrorReset(e: Endpoint)
    requires e.fsm.state.ErrorReset?
    ensures Dispatch(e, HeardFct) == e.(credit := OnFctReceived(e.credit))
  {
    FeedInErrorReset(e.fsm, GotFct);
    FeedInErrorReset(e.fsm, CreditErr);
  }

  const LATE_FCT: seq<Happening> := [External(RxErr), Hear(HeardFct)]

  /** Before anything else has happened, one FCT is worth eight credits. */
  lemma FctAtPowerUp(cfg: Config, maxRx: nat)
    ensures HappenAll(NewEndpoint(cfg, maxRx), [Hear(HeardFct)])
            == NewEndpoint(cfg, maxRx).(credit := OnFctReceived(Fresh(maxRx)))
  {
    var e := NewEndpoint(cfg, maxRx);
    OneMore(e, Hear(HeardFct));
    FctInErrorReset(e);
  }

  /** An FCT after the reset that a line error caused in Run is counted, and the next session
      reaches Run with its eight credits on top of those of the one FCT it was granted. */
  lemma LateFctSurvives(cfg: Config, maxRx: nat)
    requires !cfg.onlyNulls
    ensures var e := HappenAll(NewEndpoint(cfg, maxRx), SESSION + LATE_FCT);
            e.fsm.state.ErrorReset? && e.resets == 1 && e.credit.tx == 8
    ensures var e := HappenAll(NewEndpoint(cfg, maxRx), (SESSION + LATE_FCT) + SESSION);
            e.fsm.state.Run? && e.resets == 1 && e.credit.tx == 16
  {
    var e := NewEndpoint(cfg, maxRx);
    SessionResult(e);
    var run := HappenAll(e, SESSION);
    ErrorDrops(run);
    var down := Happen(run, External(RxErr));
    FctInErrorReset(down);
    TwoMore(run, External(RxErr), Hear(HeardFct));
    HappenAllSplits(e, SESSION, LATE_FCT);
    var late := HappenAll(e, SESSION + LATE_FCT);
    SessionResult(late);
    HappenAllSplits(e, SESSION + LATE_FCT, SESSION);
  }

  /** An FCT that is itself the error, in Started after a NULL, is counted after the reset. */
  lemma CausingFctSurvives(cfg: Config, maxRx: nat)
    requires !cfg.onlyNulls
    ensures var e := HappenAll(NewEndpoint(cfg, maxRx), (COMMANDS + DWELLS) + [Hear(HeardNull), Hear(HeardFct)]);
            e.fsm.state.ErrorReset? && e.resets == 1 && e.credit.tx == 8
  {
    var e := NewEndpoint(cfg, maxRx);
    CommandsStart(e);
    var s := HappenAll(e, COMMANDS + DWELLS);
    FeedInStarted(s.fsm, GotNull);
    var n := Happen(s, Hear(HeardNull));
    assert n == s.(fsm := At(Started, false, true, false, false, false));
    FeedInStarted(n.fsm, GotFct);
    TwoMore(s, Hear(HeardNull), Hear(HeardFct));
    HappenAllSplits(e, COMMANDS + DWELLS, [Hear(HeardNull), Hear(HeardFct)]);
  }

  // ----- what stale credit does to the next session ----------------------------------------------

  /** Main result: the next session of a dropped end reaches Run if and only if its transmit
      credit has room for the peer's handshake FCT, that is unless seven FCTs were heard since
      the last entry to ErrorReset; otherwise that FCT resets it again. */
  lemma SessionReachesRunExactly(e: Endpoint)
    requires Dropped(e)
    ensures HappenAll(e, SESSION).fsm.state.Run? <==> e.credit.tx <= 48
    ensures e.credit.tx > 48 ==>
              && HappenAll(e, SESSION).fsm.state.ErrorReset?
              && HappenAll(e, SESSION).resets == e.resets + 1
              && HappenAll(e, SESSION).credit.tx == 0
  {
    SessionResult(e);
  }

  function StrayFcts(n: nat): (xs: seq<Happening>)
    ensures |xs| == n
  {
    seq(n, i => Hear(HeardFct))
  }

  lemma {:induction false} StrayFctsPileUp(e: Endpoint, n: nat)
    requires e.fsm.state.ErrorReset? && e.credit.tx % 8 == 0 && e.credit.tx <= MAX_CREDIT
    ensures var d := HappenAll(e, StrayFcts(n));
            && d == e.(credit := d.credit) && d.credit.rx == e.credit.rx
            && d.credit.tx == 8 * Min(7, e.credit.tx / 8 + n)
    decreases n
  {
    if n > 0 {
      FctInErrorReset(e);
      assert StrayFcts(n)[1..] == StrayFcts(n - 1);
      StrayFctsPileUp(e.(credit := OnFctReceived(e.credit)), n - 1);
    }
  }

  /** From power-up: n stray FCTs, then a session.  It ends in Run if and only if n is below
      seven; with seven or more it ends in a reset. */
  lemma StrayFctsThenSession(cfg: Config, maxRx: nat, n: nat)
    requires !cfg.onlyNulls
    ensures var e := HappenAll(NewEndpoint(cfg, maxRx), StrayFcts(n) + SESSION);
            && (e.fsm.state.Run? <==> n < 7)
            && (n < 7 ==> e.resets == 0 && e.credit.tx == 8 * (n + 1))
            && (n >= 7 ==> e.fsm.state.ErrorReset? && e.resets == 1 && e.credit.tx == 0)
  {
    var e := NewEndpoint(cfg, maxRx);
    StrayFctsPileUp(e, n);
    var d := HappenAll(e, StrayFcts(n));
    SessionResult(d);
    HappenAllSplits(e, StrayFcts(n), SESSION);
  }
}
