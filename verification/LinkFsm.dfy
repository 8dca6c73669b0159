/**
 The exchange-level link initialisation state machine of link_fsm.py
 (ECSS-E-ST-50-12C Rev.1, section 8.5).

 `Fsm` is the value of one state machine.  The six handlers are expressions over
 that value.  `Feed` is the two-step closed form that specifies the class method
 `LinkFSM.Feed`, whose body is the capped loop of the program.
 */
module LinkFsm {
  const INITIAL_BIT_RATE_BPS: nat := 10_000_000

  datatype State = ErrorReset | ErrorWait | Ready | Started | Connecting | Run

  datatype TxMode = SilentMode | NullMode | NullFctMode | FullMode

  datatype Event =
    | GotNull | GotFct | GotNChar | GotTimeCode
    | RxErr | CreditErr
    | SentNull | SentFct
    | LinkStart | LinkStartClear
    | LinkDisable | LinkDisableClear
    | AutoStart | AutoStartClear
    | Tick6400 | Tick12800

  /** What a handler is called with: the event fed from outside, or the synthetic
      event of a chained transition. */
  datatype Stimulus = Fed(event: Event) | Chained

  /** What a handler answers. */
  datatype Move = Stay | GoTo(next: State)

  datatype Output = Output(state: State, txMode: TxMode, rxEnabled: bool, bitRateBps: nat)

  datatype Fsm = Fsm(
    state: State,
    gotNull: bool,
    linkStart: bool,
    linkDisable: bool,
    autoStart: bool,
    sentNull: bool,
    sentFct: bool,
    gotFct: bool)

  const POWER_ON := Fsm(ErrorReset, false, false, false, false, false, false, false)

  function ModeOf(s: State): TxMode {
    match s
    case ErrorReset | ErrorWait | Ready => SilentMode
    case Started => NullMode
    case Connecting => NullFctMode
    case Run => FullMode
  }

  function OutputOf(s: State, targetBps: nat): Output {
    Output(s, ModeOf(s), s != ErrorReset, if s == Run then targetBps else INITIAL_BIT_RATE_BPS)
  }

  // ----- flag and latch bookkeeping -----------------------------------------

  /** The flags after an event, field by field: levels follow their set and clear
      events, latches are only set, and a per-visit latch only in its own state. */
  function UpdateFlags(f: Fsm, e: Event): Fsm {
    Fsm(
      f.state,
      f.gotNull || e.GotNull?,
      e.LinkStart? || (f.linkStart && !e.LinkStartClear?),
      e.LinkDisable? || (f.linkDisable && !e.LinkDisableClear?),
      e.AutoStart? || (f.autoStart && !e.AutoStartClear?),
      f.sentNull || (e.SentNull? && f.state.Started?),
      f.sentFct || (e.SentFct? && f.state.Connecting?),
      f.gotFct || (e.GotFct? && f.state.Connecting?))
  }

  /** Entering a state drops the latches that belong to earlier visits. */
  function Enter(f: Fsm, next: State): Fsm {
    Fsm(
      next,
      f.gotNull && !next.ErrorReset?,
      f.linkStart, f.linkDisable, f.autoStart,
      f.sentNull && !next.ErrorReset? && !next.Started?,
      f.sentFct && !next.ErrorReset? && !next.Connecting?,
      f.gotFct && !next.ErrorReset? && !next.Connecting?)
  }

  // ----- guards and state handlers ------------------------------------------

  predicate LinkEnabled(f: Fsm) {
    !f.linkDisable && (f.linkStart || (f.autoStart && f.gotNull))
  }

  /** The error condition shared by ErrorWait, Ready and Started.  */
  predicate WaitStateError(f: Fsm, e: Stimulus) {
    && e.Fed?
    && (|| e.event.RxErr?
        || (f.gotNull && (e.event.GotFct? || e.event.GotNChar? || e.event.GotTimeCode?)))
  }

  function InErrorReset(f: Fsm, e: Stimulus): Move {
    if e.Fed? && e.event.Tick6400? && !f.linkDisable then GoTo(ErrorWait) else Stay
  }

  function InErrorWait(f: Fsm, e: Stimulus): Move {
    if WaitStateError(f, e) then GoTo(ErrorReset)
    else if e.Fed? && e.event.Tick12800? then GoTo(Ready)
    else Stay
  }

  function InReady(f: Fsm, e: Stimulus): Move {
    if WaitStateError(f, e) then GoTo(ErrorReset)
    else if LinkEnabled(f) then GoTo(Started)
    else Stay
  }

  function InStarted(f: Fsm, e: Stimulus): Move {
    if WaitStateError(f, e) then GoTo(ErrorReset)
    else if e.Fed? && e.event.Tick12800? then GoTo(ErrorReset)
    else if f.sentNull && f.gotNull then GoTo(Connecting)
    else Stay
  }

  function InConnecting(f: Fsm, e: Stimulus): Move {
    if e.Fed? && (e.event.RxErr? || e.event.CreditErr?) then GoTo(ErrorReset)
    else if e.Fed? && (e.event.GotNChar? || e.event.GotTimeCode?) then GoTo(ErrorReset)
    else if e.Fed? && e.event.Tick12800? then GoTo(ErrorReset)
    else if f.sentFct && f.gotFct then GoTo(Run)
    else Stay
  }

  function InRun(f: Fsm, e: Stimulus): Move {
    if e.Fed? && (e.event.RxErr? || e.event.CreditErr?) then GoTo(ErrorReset)
    else if e.Fed? && e.event.LinkDisable? then GoTo(ErrorReset)
    else Stay
  }

  function Handle(f: Fsm, e: Stimulus): Move {
    match f.state
    case ErrorReset => InErrorReset(f, e)
    case ErrorWait => InErrorWait(f, e)
    case Ready => InReady(f, e)
    case Started => InStarted(f, e)
    case Connecting => InConnecting(f, e)
    case Run => InRun(f, e)
  }

  // ----- one fed event --------------------------------------------------------

  /** At most one transition: the handler's answer, entered. */
  function OneStep(f: Fsm, e: Stimulus): Fsm {
    match Handle(f, e)
    case Stay => f
    case GoTo(next) => Enter(f, next)
  }

  /** The effect of feeding one event: the flags, the handler on the event, and one
      chained transition on the synthetic event when the first one moved. */
  function Feed(f: Fsm, e: Event): Fsm {
    var g := UpdateFlags(f, e);
    if Handle(g, Fed(e)) == Stay then g else OneStep(OneStep(g, Fed(e)), Chained)
  }

  /** The program's loop with `cap` iterations left: transitions until the handler
      stays put, the event being consumed by the first of them.  The second
      component counts the transitions taken. */
  function Chase(f: Fsm, e: Stimulus, cap: nat): (r: (Fsm, nat))
    decreases cap
  {
    if cap == 0 then (f, 0)
    else
      match Handle(f, e)
      case Stay => (f, 0)
      case GoTo(next) =>
        if next == f.state then (f, 0)
        else
          var (g, n) := Chase(Enter(f, next), Chained, cap - 1);
          (g, n + 1)
  }

  /** A transition never leads back to the state it leaves. */
  lemma HandlerMoves(f: Fsm, e: Stimulus)
    ensures Handle(f, e) != GoTo(f.state)
  {
  }

  /** After two transitions the machine has come to rest. */
  lemma TwoTransitionsSettle(f: Fsm, e: Stimulus)
    ensures Handle(f, e) != Stay ==> Handle(OneStep(OneStep(f, e), Chained), Chained) == Stay
  {
  }

  lemma ChainEndsElsewhere(f: Fsm, e: Stimulus)
    requires Handle(f, e) != Stay
    ensures OneStep(OneStep(f, e), Chained).state != f.state
    ensures OneStep(OneStep(f, e), Chained).state == ErrorReset <==> Handle(f, e) == GoTo(ErrorReset)
  {
  }

  /** A handler that ignores an event also ignores the synthetic one. */
  lemma RestIgnoresEvent(f: Fsm, e: Event)
    requires Handle(f, Fed(e)) == Stay
    ensures Handle(f, Chained) == Stay
  {
  }

  /** The cap of the loop is never what stops it: with any cap above two the loop
      takes at most two transitions and ends where `Feed` says. */
  lemma ChaseIsFeed(f: Fsm, e: Event, cap: nat)
    requires cap > 2
    ensures Chase(UpdateFlags(f, e), Fed(e), cap).0 == Feed(f, e)
    ensures Chase(UpdateFlags(f, e), Fed(e), cap).1 <= 2
  {
    var g := UpdateFlags(f, e);
    HandlerMoves(g, Fed(e));
    if Handle(g, Fed(e)) != Stay {
      var h := OneStep(g, Fed(e));
      HandlerMoves(h, Chained);
      TwoTransitionsSettle(g, Fed(e));
      assert Chase(OneStep(h, Chained), Chained, cap - 2) == (OneStep(h, Chained), 0);
      assert Chase(h, Chained, cap - 1).0 == OneStep(h, Chained);
    }
  }

  /** Every fed event ends at a rest point of the synthetic event, and a run of
      transitions never returns to the state it started from, so comparing the
      states before and after `feed` detects every entry to ErrorReset. */
  lemma FeedStabilises(f: Fsm, e: Event)
    ensures Handle(Feed(f, e), Chained) == Stay
    ensures Handle(UpdateFlags(f, e), Fed(e)) != Stay <==> Feed(f, e).state != f.state
    ensures f.state != ErrorReset ==>
              (Handle(UpdateFlags(f, e), Fed(e)) == GoTo(ErrorReset) <==> Feed(f, e).state == ErrorReset)
  {
    var g := UpdateFlags(f, e);
    HandlerMoves(g, Fed(e));
    match Handle(g, Fed(e)) {
      case Stay => RestIgnoresEvent(g, e);
      case GoTo(next) =>
        TwoTransitionsSettle(g, Fed(e));
        ChainEndsElsewhere(g, Fed(e));
    }
  }

  // ----- the transition table of section 8.5, one row per state -----------------
  // Each row says where an event leads, chained transitions included, once its
  // flags are applied.

  function ErrorResetRow(f: Fsm, e: Event): Fsm {
    var g := UpdateFlags(f, e);
    if e.Tick6400? && !f.linkDisable then Enter(g, ErrorWait) else g
  }

  function ErrorWaitRow(f: Fsm, e: Event): Fsm {
    var g := UpdateFlags(f, e);
    if WaitStateError(g, Fed(e)) then Enter(g, ErrorReset)
    else if !e.Tick12800? then g
    else if LinkEnabled(g) then Enter(g, Started)
    else Enter(g, Ready)
  }

  function ReadyRow(f: Fsm, e: Event): Fsm {
    var g := UpdateFlags(f, e);
    if WaitStateError(g, Fed(e)) then Enter(g, ErrorReset)
    else if LinkEnabled(g) then Enter(g, Started)
    else g
  }

  function StartedRow(f: Fsm, e: Event): Fsm {
    var g := UpdateFlags(f, e);
    if WaitStateError(g, Fed(e)) || e.Tick12800? then Enter(g, ErrorReset)
    else if g.sentNull && g.gotNull then Enter(g, Connecting)
    else g
  }

  function ConnectingRow(f: Fsm, e: Event): Fsm {
    var g := UpdateFlags(f, e);
    if e.RxErr? || e.CreditErr? || e.GotNChar? || e.GotTimeCode? || e.Tick12800? then
      Enter(g, ErrorReset)
    else if g.sentFct && g.gotFct then Enter(g, Run)
    else g
  }

  function RunRow(f: Fsm, e: Event): Fsm {
    var g := UpdateFlags(f, e);
    if e.RxErr? || e.CreditErr? || e.LinkDisable? then Enter(g, ErrorReset) else g
  }

  lemma FeedInErrorReset(f: Fsm, e: Event)
    requires f.state.ErrorReset?
    ensures Feed(f, e) == ErrorResetRow(f, e)
  {
  }

  lemma FeedInErrorWait(f: Fsm, e: Event)
    requires f.state.ErrorWait?
    ensures Feed(f, e) == ErrorWaitRow(f, e)
  {
  }

  lemma FeedInReady(f: Fsm, e: Event)
    requires f.state.Ready?
    ensures Feed(f, e) == ReadyRow(f, e)
  {
  }

  lemma FeedInStarted(f: Fsm, e: Event)
    requires f.state.Started?
    ensures Feed(f, e) == StartedRow(f, e)
  {
  }

  lemma FeedInConnecting(f: Fsm, e: Event)
    requires f.state.Connecting?
    ensures Feed(f, e) == ConnectingRow(f, e)
  {
  }

  lemma FeedInRun(f: Fsm, e: Event)
    requires f.state.Run?
    ensures Feed(f, e) == RunRow(f, e)
  {
  }

  function TableRow(f: Fsm, e: Event): Fsm {
    match f.state
    case ErrorReset => ErrorResetRow(f, e)
    case ErrorWait => ErrorWaitRow(f, e)
    case Ready => ReadyRow(f, e)
    case Started => StartedRow(f, e)
    case Connecting => ConnectingRow(f, e)
    case Run => RunRow(f, e)
  }

  /** The chained handlers follow the one-step table in every state. */
  lemma FeedFollowsTable(f: Fsm, e: Event)
    ensures Feed(f, e) == TableRow(f, e)
  {
    match f.state
    case ErrorReset => FeedInErrorReset(f, e);
    case ErrorWait => FeedInErrorWait(f, e);
    case Ready => FeedInReady(f, e);
    case Started => FeedInStarted(f, e);
    case Connecting => FeedInConnecting(f, e);
    case Run => FeedInRun(f, e);
  }

  // ----- what holds between events ---------------------------------------------

  /** Each state carries the handshake evidence that was needed to enter it, and
      no flag of a later state. */
  predicate FlagsLegal(f: Fsm) {
    match f.state
    case ErrorReset | ErrorWait | Ready => !f.sentNull && !f.sentFct && !f.gotFct
    case Started => !f.sentFct && !f.gotFct
    case Connecting => f.sentNull && f.gotNull
    case Run => f.sentNull && f.gotNull && f.sentFct && f.gotFct
  }

  /** A machine between two events: legal flags, and nothing left to chain. */
  predicate AtRest(f: Fsm) {
    FlagsLegal(f) && Handle(f, Chained) == Stay
  }

  lemma UpdateKeepsFlagsLegal(f: Fsm, e: Event)
    requires FlagsLegal(f)
    ensures FlagsLegal(UpdateFlags(f, e))
  {
  }

  lemma OneStepKeepsFlagsLegal(f: Fsm, e: Stimulus)
    requires FlagsLegal(f)
    ensures FlagsLegal(OneStep(f, e))
  {
  }

  lemma FeedKeepsAtRest(f: Fsm, e: Event)
    requires FlagsLegal(f)
    ensures AtRest(Feed(f, e))
  {
    var g := UpdateFlags(f, e);
    UpdateKeepsFlagsLegal(f, e);
    OneStepKeepsFlagsLegal(g, Fed(e));
    OneStepKeepsFlagsLegal(OneStep(g, Fed(e)), Chained);
    FeedStabilises(f, e);
  }

  function FeedAll(f: Fsm, es: seq<Event>): Fsm
    decreases |es|
  {
    if es == [] then f else Feed(FeedAll(f, es[..|es| - 1]), es[|es| - 1])
  }

  /** Between events every reachable machine is at rest with legal flags. */
  lemma {:induction false} ReachableAtRest(es: seq<Event>)
    ensures AtRest(FeedAll(POWER_ON, es))
    decreases |es|
  {
    if es != [] {
      ReachableAtRest(es[..|es| - 1]);
      FeedKeepsAtRest(FeedAll(POWER_ON, es[..|es| - 1]), es[|es| - 1]);
    }
  }

  // ----- the program's object ----------------------------------------------------

  class LinkFSM {
    const targetBitRateBps: nat
    var state: State
    var gotNullLatched: bool
    var linkStart: bool
    var linkDisable: bool
    var autoStart: bool
    var sentNullInStarted: bool
    var sentFctInConnecting: bool
    var gotFctInConnecting: bool

    constructor (targetBitRateBps: nat)
      ensures View() == POWER_ON
      ensures this.targetBitRateBps == targetBitRateBps
    {
      this.targetBitRateBps := targetBitRateBps;
      state := ErrorReset;
      gotNullLatched, linkStart, linkDisable, autoStart := false, false, false, false;
      sentNullInStarted, sentFctInConnecting, gotFctInConnecting := false, false, false;
    }

    function View(): Fsm
      reads this
    {
      Fsm(state, gotNullLatched, linkStart, linkDisable, autoStart,
          sentNullInStarted, sentFctInConnecting, gotFctInConnecting)
    }

    method DoUpdateFlags(e: Event)
      modifies this
      ensures View() == UpdateFlags(old(View()), e)
    {
      if e.GotNull? {
        gotNullLatched := true;
      } else if e.LinkStart? {
        linkStart := true;
      } else if e.LinkStartClear? {
        linkStart := false;
      } else if e.LinkDisable? {
        linkDisable := true;
      } else if e.LinkDisableClear? {
        linkDisable := false;
      } else if e.AutoStart? {
        autoStart := true;
      } else if e.AutoStartClear? {
        autoStart := false;
      } else if e.SentNull? && state.Started? {
        sentNullInStarted := true;
      } else if e.SentFct? && state.Connecting? {
        sentFctInConnecting := true;
      } else if e.GotFct? && state.Connecting? {
        gotFctInConnecting := true;
      }
    }

    method DoEnter(next: State)
      modifies this
      ensures View() == Enter(old(View()), next)
    {
      state := next;
      if next == ErrorReset {
        gotNullLatched := false;
        sentNullInStarted := false;
        sentFctInConnecting := false;
        gotFctInConnecting := false;
      } else if next == Started {
        sentNullInStarted := false;
      } else if next == Connecting {
        sentFctInConnecting := false;
        gotFctInConnecting := false;
      }
    }

    /** The program's loop, capped at eight iterations. */
    method DoFeed(e: Event) returns (out: Output)
      modifies this
      ensures View() == Feed(old(View()), e)
      ensures out == OutputOf(state, targetBitRateBps)
    {
      DoUpdateFlags(e);
      ghost var goal := Chase(View(), Fed(e), 8).0;
      ChaseIsFeed(old(View()), e, 8);
      var current := Fed(e);
      for i := 0 to 8
        invariant Chase(View(), current, 8 - i).0 == goal
      {
        var next := Handle(View(), current);
        if next.Stay? || next.next == state {
          break;
        }
        DoEnter(next.next);
        current := Chained;
      }
      out := OutputOf(state, targetBitRateBps);
    }
  }
}
