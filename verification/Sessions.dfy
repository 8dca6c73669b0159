/**
 One whole session of one end, from ErrorReset to Run, as a sequence of happenings.
 */
module Sessions {
  import opened LinkFsm
  import opened FlowControl
  import opened Packets
  import opened Endpoints

  lemma {:induction false} HappenAllSplits(e: Endpoint, a: seq<Happening>, b: seq<Happening>)
    ensures HappenAll(e, a + b) == HappenAll(HappenAll(e, a), b)
    decreases |a|
  {
    if a == [] {
      assert a + b == b;
    } else {
      assert (a + b)[1..] == a[1..] + b;
      HappenAllSplits(Happen(e, a[0]), a[1..], b);
    }
  }

  lemma OneMore(e: Endpoint, x: Happening)
    ensures HappenAll(e, [x]) == Happen(e, x)
  {
    assert HappenAll(Happen(e, x), []) == Happen(e, x);
  }

  lemma TwoMore(e: Endpoint, x: Happening, y: Happening)
    ensures HappenAll(e, [x, y]) == Happen(Happen(e, x), y)
  {
    assert [x, y][1..] == [y];
    OneMore(Happen(e, x), y);
  }

  lemma ThreeMore(e: Endpoint, x: Happening, y: Happening, z: Happening)
    ensures HappenAll(e, [x, y, z]) == Happen(Happen(Happen(e, x), y), z)
  {
    assert [x, y, z][1..] == [y, z];
    TwoMore(Happen(e, x), y, z);
  }

  const COMMANDS: seq<Happening> := [External(LinkDisableClear), External(LinkStart)]
  const DWELLS: seq<Happening> := [External(Tick6400), External(Tick12800)]
  const NULLS: seq<Happening> := [PickNext, CompleteChar, Hear(HeardNull)]
  const FCTS: seq<Happening> := [PickNext, CompleteChar, Hear(HeardFct)]
  const SESSION: seq<Happening> := (COMMANDS + DWELLS) + (NULLS + FCTS)

  /** A state machine that has been commanded to start, `auto` being its AutoStart level. */
  function At(s: State, auto: bool, gotNull: bool, sentNull: bool, sentFct: bool, gotFct: bool): Fsm {
    Fsm(s, gotNull, true, false, auto, sentNull, sentFct, gotFct)
  }

  /** An idle end in ErrorReset that may send FCTs. */
  predicate Dropped(e: Endpoint) {
    && AtRest(e.fsm) && e.fsm.state.ErrorReset?
    && e.slot.Idle? && !e.cfg.onlyNulls && e.credit.rx == 0
  }

  /** An event that enters neither ErrorReset nor Connecting. */
  lemma FedQuietly(e: Endpoint, ev: Event, g: Fsm)
    requires g == TableRow(e.fsm, ev)
    requires g.state == e.fsm.state || !(g.state.ErrorReset? || g.state.Connecting?)
    ensures FeedFsm(e, ev) == e.(fsm := g)
  {
    FeedFollowsTable(e.fsm, ev);
  }

  lemma ExternalMoves(e: Endpoint, ev: Event, g: Fsm)
    requires IsExternal(ev) && g == TableRow(e.fsm, ev)
    requires g.state == e.fsm.state || !(g.state.ErrorReset? || g.state.Connecting?)
    ensures Happen(e, External(ev)) == e.(fsm := g)
  {
    FedQuietly(e, ev, g);
  }

  lemma TwoExternals(e: Endpoint, ev: Event, f: Fsm, ev': Event, g: Fsm)
    requires IsExternal(ev) && f == TableRow(e.fsm, ev) && IsExternal(ev') && g == TableRow(f, ev')
    requires f.state == e.fsm.state || !(f.state.ErrorReset? || f.state.Connecting?)
    requires g.state == f.state || !(g.state.ErrorReset? || g.state.Connecting?)
    ensures HappenAll(e, [External(ev), External(ev')]) == e.(fsm := g)
  {
    ExternalMoves(e, ev, f);
    ExternalMoves(e.(fsm := f), ev', g);
    TwoMore(e, External(ev), External(ev'));
  }

  lemma Commanded(e: Endpoint)
    requires Dropped(e)
    ensures HappenAll(e, COMMANDS)
            == e.(fsm := At(ErrorReset, e.fsm.autoStart, e.fsm.gotNull, false, false, false))
  {
    TwoExternals(e, LinkDisableClear, e.fsm.(linkDisable := false),
                 LinkStart, At(ErrorReset, e.fsm.autoStart, e.fsm.gotNull, false, false, false));
  }

  lemma Dwelt(e: Endpoint, auto: bool, got: bool)
    requires e.fsm == At(ErrorReset, auto, got, false, false, false)
    ensures HappenAll(e, DWELLS) == e.(fsm := At(Started, auto, got, false, false, false))
  {
    TwoExternals(e, Tick6400, At(ErrorWait, auto, got, false, false, false),
                 Tick12800, At(Started, auto, got, false, false, false));
  }

  lemma CommandsStart(e: Endpoint)
    requires Dropped(e)
    ensures HappenAll(e, COMMANDS + DWELLS)
            == e.(fsm := At(Started, e.fsm.autoStart, e.fsm.gotNull, false, false, false))
  {
    Commanded(e);
    Dwelt(HappenAll(e, COMMANDS), e.fsm.autoStart, e.fsm.gotNull);
    HappenAllSplits(e, COMMANDS, DWELLS);
  }

  /** A NULL has been sent: Connecting at once if one had been heard before. */
  function AfterNullSent(e: Endpoint, auto: bool, got: bool): Endpoint {
    if got then e.(fsm := At(Connecting, auto, true, true, false, false), fctSentThisConnecting := false)
    else e.(fsm := At(Started, auto, false, true, false, false))
  }

  lemma NullSent(e: Endpoint, auto: bool, got: bool)
    requires e.fsm == At(Started, auto, got, false, false, false) && e.slot.Idle?
    ensures Happen(Happen(e, PickNext), CompleteChar) == AfterNullSent(e, auto, got)
  {
    assert Happen(e, PickNext) == e.(slot := Driving(Null));
    FeedInStarted(e.fsm, SentNull);
  }

  lemma NullHeard(e: Endpoint, auto: bool, got: bool)
    ensures Happen(AfterNullSent(e, auto, got), Hear(HeardNull))
            == e.(fsm := At(Connecting, auto, true, true, false, false), fctSentThisConnecting := false)
  {
    if got {
      FeedInConnecting(At(Connecting, auto, true, true, false, false), GotNull);
    } else {
      FeedInStarted(At(Started, auto, false, true, false, false), GotNull);
    }
  }

  lemma NullsConnect(e: Endpoint, auto: bool, got: bool)
    requires e.fsm == At(Started, auto, got, false, false, false) && e.slot.Idle?
    ensures HappenAll(e, NULLS)
            == e.(fsm := At(Connecting, auto, true, true, false, false), fctSentThisConnecting := false)
  {
    NullSent(e, auto, got);
    NullHeard(e, auto, got);
    ThreeMore(e, PickNext, CompleteChar, Hear(HeardNull));
  }

  /** An end in Connecting picks and drives its FCT. */
  lemma FctSent(e: Endpoint, auto: bool)
    requires e.fsm == At(Connecting, auto, true, true, false, false) && e.slot.Idle?
    requires !e.cfg.onlyNulls && !e.fctSentThisConnecting
    ensures Happen(Happen(e, PickNext), CompleteChar)
            == e.(fsm := At(Connecting, auto, true, true, true, false), fctSentThisConnecting := true,
                  credit := OnFctSent(e.credit))
  {
    var c := e.(fctSentThisConnecting := true, credit := OnFctSent(e.credit));
    assert Happen(e, PickNext) == c.(slot := Driving(Fct));
    FeedInConnecting(e.fsm, SentFct);
  }

  /** Then it hears one: Run, or at once ErrorReset again if its credit cannot take it. */
  lemma FctHeard(e: Endpoint, auto: bool)
    requires e.fsm == At(Connecting, auto, true, true, true, false)
    ensures var run := e.(fsm := At(State.Run, auto, true, true, true, true));
            Happen(e, Hear(HeardFct))
            == if FctFits(e.credit) then run.(credit := OnFctReceived(e.credit))
               else e.(fsm := At(ErrorReset, auto, false, false, false, false),
                       credit := Cleared(e.credit), resets := e.resets + 1)
  {
    FeedInConnecting(e.fsm, GotFct);
    FeedInRun(At(State.Run, auto, true, true, true, true), CreditErr);
  }

  /** What a whole session makes of a dropped end: Run with one FCT sent and one received,
      whatever was in its queues, and whatever transmit credit it had, still there; or another
      reset when its transmit credit has no room for the FCT. */
  function AfterSession(e: Endpoint): Endpoint {
    var d := e.(fctSentThisConnecting := true);
    if FctFits(e.credit) then
      d.(fsm := At(State.Run, e.fsm.autoStart, true, true, true, true),
         credit := OnFctReceived(OnFctSent(e.credit)))
    else
      d.(fsm := At(ErrorReset, e.fsm.autoStart, false, false, false, false),
         credit := Cleared(OnFctSent(e.credit)), resets := e.resets + 1)
  }

  lemma SessionResult(e: Endpoint)
    requires Dropped(e)
    ensures HappenAll(e, SESSION) == AfterSession(e)
  {
    var auto, got := e.fsm.autoStart, e.fsm.gotNull;
    CommandsStart(e);
    var s := e.(fsm := At(Started, auto, got, false, false, false));
    NullsConnect(s, auto, got);
    var c := s.(fsm := At(Connecting, auto, true, true, false, false), fctSentThisConnecting := false);
    FctSent(c, auto);
    var d := c.(fsm := At(Connecting, auto, true, true, true, false), fctSentThisConnecting := true,
                credit := OnFctSent(c.credit));
    FctHeard(d, auto);
    ThreeMore(c, PickNext, CompleteChar, Hear(HeardFct));
    HappenAllSplits(e, COMMANDS + DWELLS, NULLS + FCTS);
    HappenAllSplits(s, NULLS, FCTS);
  }

  /** A line error in Run drops the end, keeping its queues. */
  lemma ErrorDrops(e: Endpoint)
    requires e.fsm.state.Run? && e.slot.Idle? && !e.cfg.onlyNulls
    ensures var d := Happen(e, External(RxErr));
            && Dropped(d) && d.resets == e.resets + 1 && d.credit == Cleared(e.credit)
            && d.rxQueue == e.rxQueue && d.txQueue == e.txQueue && d.cfg == e.cfg
  {
    FeedInRun(e.fsm, RxErr);
  }
}
