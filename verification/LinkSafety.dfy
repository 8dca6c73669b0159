/**
 Safety of the pair before its first reset: every step keeps the joint invariant, no
 character ever resets an end, and the consequences for credit, order and buffering.
 */
module LinkSafety {
  import opened LinkFsm
  import opened FlowControl
  import opened Packets
  import opened Endpoints
  import opened LinkPair
  import opened ReceiveQueue
  import opened Wrappers

  // ----- one lemma per kind of step ---------------------------------------------------

  /** An external event that does not reset the end. */
  lemma ExternalKeeps(x: Node, y: Node, ev: Event, g: Fsm)
    requires Joined(x, y) && IsExternal(ev)
    requires Advanced(x.ep.fsm, ev, g) && EndpointOk(Moved(x.ep, g))
    ensures Joined(x.(ep := Moved(x.ep, g)), y)
  {
  }

  lemma PickNullKeeps(x: Node, y: Node)
    requires Joined(x, y) && CanPick(x.ep) && Chosen(x.ep).Null?
    ensures Joined(x.(ep := Pick(x.ep)), y)
  {
    HappenKeepsOk(x.ep, PickNext);
  }

  lemma PickFctKeeps(x: Node, y: Node)
    requires Joined(x, y) && CanPick(x.ep) && Chosen(x.ep).Fct?
    ensures Joined(x.(ep := Pick(x.ep)), y)
  {
    HappenKeepsOk(x.ep, PickNext);
  }

  lemma PickNormalKeeps(x: Node, y: Node)
    requires Joined(x, y) && CanPick(x.ep) && Chosen(x.ep).Normal?
    ensures Joined(x.(ep := Pick(x.ep)), y)
  {
    HappenKeepsOk(x.ep, PickNext);
  }

  lemma SendKeeps(x: Node, y: Node, ns: seq<NChar>)
    requires Joined(x, y)
    ensures Joined(x.(ep := Enqueue(x.ep, ns), queued := x.queued + ns), y)
  {
  }

  lemma TakeKeeps(x: Node, y: Node)
    requires Joined(x, y) && |x.ep.rxQueue| > 0
    ensures Joined(x.(ep := TakeOne(x.ep), taken := x.taken + [x.ep.rxQueue[0]]), y)
  {
  }

  lemma CompleteNormalKeeps(x: Node, y: Node)
    requires Joined(x, y) && x.ep.slot.Driving? && x.ep.slot.ch.Normal?
    ensures Joined(x.(ep := Complete(x.ep), out := x.out + [x.ep.slot.ch]), y)
  {
    Appended(x.out, x.ep.slot.ch);
  }

  lemma CompleteNullKeeps(x: Node, y: Node, g: Fsm)
    requires Joined(x, y) && x.ep.slot == Driving(Null)
    requires Advanced(x.ep.fsm, SentNull, g) && EndpointOk(Moved(x.ep.(slot := Idle), g))
    ensures Joined(x.(ep := Moved(x.ep.(slot := Idle), g), out := x.out + [Null]), y)
  {
    Appended(x.out, Null);
  }

  lemma CompleteFctKeeps(x: Node, y: Node, g: Fsm)
    requires Joined(x, y) && x.ep.slot == Driving(Fct)
    requires Advanced(x.ep.fsm, SentFct, g) && EndpointOk(Moved(x.ep.(slot := Idle), g))
    ensures Joined(x.(ep := Moved(x.ep.(slot := Idle), g), out := x.out + [Fct]), y)
  {
    Appended(x.out, Fct);
  }

  // ----- deliveries: why no character resets an end -----------------------------------

  /** When an FCT comes off the channel the receiver is in Connecting or Run: the sender
      had heard a NULL of the receiver, and the receiver a NULL of the sender. */
  lemma FctFindsConnecting(x: Node, y: Node)
    requires Joined(x, y) && y.out != [] && y.out[0].Fct?
    ensures x.ep.fsm.state.Connecting? || x.ep.fsm.state.Run?
    ensures FctFits(x.ep.credit)
  {
    assert !AllNull(y.out);
    assert Fcts(y.out) >= 1;
  }

  /** When an N-Char comes off the channel the receiver is in Run with credit for it. */
  lemma NCharFindsRun(x: Node, y: Node)
    requires Joined(x, y) && y.out != [] && y.out[0].Normal?
    ensures x.ep.fsm.state.Run?
    ensures NCharExpected(x.ep.credit)
  {
    assert NChars(y.out) == [y.out[0].n] + NChars(y.out[1..]);
    assert !LeadsWithFct(y.out);
  }

  lemma NullKeeps(x: Node, y: Node, g: Fsm)
    requires Joined(x, y) && y.out != [] && y.out[0].Null?
    requires Advanced(x.ep.fsm, GotNull, g) && EndpointOk(Moved(x.ep, g))
    ensures Joined(x.(ep := Moved(x.ep, g)), y.(out := y.out[1..]))
  {
  }

  lemma FctKeeps(x: Node, y: Node, g: Fsm)
    requires Joined(x, y) && y.out != [] && y.out[0].Fct?
    requires Advanced(x.ep.fsm, GotFct, g) && EndpointOk(Moved(x.ep, g))
    ensures var d := Moved(x.ep, g);
            Joined(x.(ep := d.(credit := OnFctReceived(d.credit))), y.(out := y.out[1..]))
  {
    FctFindsConnecting(x, y);
  }

  lemma NormalKeeps(x: Node, y: Node, g: Fsm)
    requires Joined(x, y) && y.out != [] && y.out[0].Normal?
    requires Advanced(x.ep.fsm, GotNChar, g) && EndpointOk(Moved(x.ep, g))
    ensures var d := Moved(x.ep, g);
            Joined(x.(ep := d.(credit := OnNCharReceived(d.credit), rxQueue := d.rxQueue + [y.out[0].n])),
                   y.(out := y.out[1..]))
  {
    NCharFindsRun(x, y);
  }

  // ----- resets ----------------------------------------------------------------------

  /** The outside events that drop a link into ErrorReset from the state it is in. */
  predicate Resets(s: State, ev: Event) {
    || (ev.RxErr? && !s.ErrorReset?)
    || (ev.Tick12800? && (s.Started? || s.Connecting?))
    || (ev.LinkDisable? && s.Run?)
  }

  /** The handlers send these, and no other outside events, straight to ErrorReset. */
  lemma HandlerResets(g: Fsm, ev: Event)
    requires IsExternal(ev)
    ensures Handle(g, Fed(ev)) == GoTo(ErrorReset) <==> Resets(g.state, ev)
  {
  }

  lemma ResetsExactly(f: Fsm, ev: Event)
    requires IsExternal(ev)
    ensures Feed(f, ev).state.ErrorReset? && !f.state.ErrorReset? <==> Resets(f.state, ev)
  {
    FeedStabilises(f, ev);
    HandlerResets(UpdateFlags(f, ev), ev);
  }

  lemma HarmlessEvents(f: Fsm, ev: Event)
    requires AtRest(f)
    requires || ev.GotNull? || ev.SentNull? || ev.SentFct?
             || (ev.GotFct? && (f.state.Connecting? || f.state.Run?))
             || (ev.GotNChar? && f.state.Run?)
    ensures Feed(f, ev).state.ErrorReset? ==> f.state.ErrorReset?
  {
  }

  predicate StepIsQuiet(x: Node, y: Node, act: Act)
    requires Enabled(x, y, act)
  {
    Actor(x, y, act).ep.resets == x.ep.resets
  }

  lemma CompleteIsQuiet(x: Node, y: Node)
    requires Joined(x, y) && x.ep.slot.Driving?
    ensures StepIsQuiet(x, y, CompleteAct)
  {
    HarmlessEvents(x.ep.fsm, SentNull);
    HarmlessEvents(x.ep.fsm, SentFct);
  }

  lemma DeliverIsQuiet(x: Node, y: Node)
    requires Joined(x, y) && y.out != []
    ensures StepIsQuiet(x, y, DeliverAct)
  {
    match y.out[0]
    case Null => HarmlessEvents(x.ep.fsm, GotNull);
    case Fct => FctFindsConnecting(x, y); HarmlessEvents(x.ep.fsm, GotFct);
    case Normal(_) => NCharFindsRun(x, y); HarmlessEvents(x.ep.fsm, GotNChar);
  }

  /** From a joined state no step of the protocol resets an end, and an outside event does
      so exactly in the states it is an error in. */
  lemma OnlyOutsideEventsReset(x: Node, y: Node, act: Act)
    requires Joined(x, y) && Enabled(x, y, act)
    ensures StepIsQuiet(x, y, act) <==> !(act.ExternalAct? && Resets(x.ep.fsm.state, act.ev))
  {
    match act
    case PickAct =>
    case CompleteAct => CompleteIsQuiet(x, y);
    case DeliverAct => DeliverIsQuiet(x, y);
    case TakeAct =>
    case SendAct(_) =>
    case ExternalAct(ev) => ResetsExactly(x.ep.fsm, ev);
  }

  // ----- every step keeps the joint invariant --------------------------------------------

  lemma CompleteKeeps(x: Node, y: Node)
    requires Joined(x, y) && x.ep.slot.Driving?
    ensures Joined(Actor(x, y, CompleteAct), y)
  {
    CompleteIsQuiet(x, y);
    CompleteKeepsOk(x.ep);
    var d := x.ep.(slot := Idle);
    match x.ep.slot.ch
    case Null => FeedMoves(d, SentNull); CompleteNullKeeps(x, y, Feed(d.fsm, SentNull));
    case Fct => FeedMoves(d, SentFct); CompleteFctKeeps(x, y, Feed(d.fsm, SentFct));
    case Normal(_) => CompleteNormalKeeps(x, y);
  }

  lemma DeliverNullKeeps(x: Node, y: Node)
    requires Joined(x, y) && y.out != [] && y.out[0].Null?
    ensures Joined(Actor(x, y, DeliverAct), Other(x, y, DeliverAct))
  {
    HarmlessEvents(x.ep.fsm, GotNull);
    FeedMoves(x.ep, GotNull);
    FeedKeepsOk(x.ep, GotNull);
    NullKeeps(x, y, Feed(x.ep.fsm, GotNull));
  }

  lemma DeliverFctKeeps(x: Node, y: Node)
    requires Joined(x, y) && y.out != [] && y.out[0].Fct?
    ensures Joined(Actor(x, y, DeliverAct), Other(x, y, DeliverAct))
  {
    FctFindsConnecting(x, y);
    HarmlessEvents(x.ep.fsm, GotFct);
    FeedMoves(x.ep, GotFct);
    FeedKeepsOk(x.ep, GotFct);
    FctKeeps(x, y, Feed(x.ep.fsm, GotFct));
  }

  lemma DeliverNormalKeeps(x: Node, y: Node)
    requires Joined(x, y) && y.out != [] && y.out[0].Normal?
    ensures Joined(Actor(x, y, DeliverAct), Other(x, y, DeliverAct))
  {
    NCharFindsRun(x, y);
    HarmlessEvents(x.ep.fsm, GotNChar);
    FeedMoves(x.ep, GotNChar);
    FeedKeepsOk(x.ep, GotNChar);
    NormalKeeps(x, y, Feed(x.ep.fsm, GotNChar));
  }

  lemma StepKeepsJoined(x: Node, y: Node, act: Act)
    requires Joined(x, y) && Enabled(x, y, act) && StepIsQuiet(x, y, act)
    ensures Joined(Actor(x, y, act), Other(x, y, act))
  {
    match act
    case PickAct =>
      match Chosen(x.ep) {
        case Null => PickNullKeeps(x, y);
        case Fct => PickFctKeeps(x, y);
        case Normal(_) => PickNormalKeeps(x, y);
      }
    case CompleteAct => CompleteKeeps(x, y);
    case DeliverAct =>
      match y.out[0] {
        case Null => DeliverNullKeeps(x, y);
        case Fct => DeliverFctKeeps(x, y);
        case Normal(_) => DeliverNormalKeeps(x, y);
      }
    case TakeAct => TakeKeeps(x, y);
    case SendAct(ns) => SendKeeps(x, y, ns);
    case ExternalAct(ev) =>
      FeedMoves(x.ep, ev);
      FeedKeepsOk(x.ep, ev);
      ExternalKeeps(x, y, ev, Feed(x.ep.fsm, ev));
  }

  // ----- runs from power-up ----------------------------------------------------------------

  /** The scope of the pair results: both caps on receive credit hold at least one FCT
      and, as the program configures them, at most 56 and the receive capacity. */
  predicate SaneCap(cfg: Config, maxRx: nat) {
    8 <= maxRx <= MAX_CREDIT && maxRx <= cfg.capacity
  }

  /** The caps that a link configures are sane exactly when they hold one FCT. */
  lemma ConfiguredCapIsSane(cfg: Config, lowered: Option<nat>)
    ensures SaneCap(cfg, ConfiguredCap(cfg.capacity, lowered))
            <==> cfg.capacity >= 8 && (lowered.Some? ==> lowered.value >= 8)
  {
  }

  predicate PairJoined(p: Pair) {
    Joined(p.a, p.b) && NeverReset(p)
  }

  lemma PowerUpIsJoined(a: Config, maxA: nat, b: Config, maxB: nat)
    requires SaneCap(a, maxA) && SaneCap(b, maxB)
    ensures PairJoined(Pair(NewNode(a, maxA), NewNode(b, maxB)))
  {
  }

  lemma StepKeeps(p: Pair, side: Side, act: Act)
    requires PairJoined(p) && NeverReset(Step(p, side, act))
    ensures PairJoined(Step(p, side, act))
  {
    match side
    case A => if Enabled(p.a, p.b, act) { StepKeepsJoined(p.a, p.b, act); }
    case B => if Enabled(p.b, p.a, act) { StepKeepsJoined(p.b, p.a, act); }
  }

  lemma ResetsCountUp(x: Node, y: Node, act: Act)
    requires Enabled(x, y, act)
    ensures x.ep.resets <= Actor(x, y, act).ep.resets
  {
  }

  lemma {:induction false} NeverResetBefore(p: Pair, steps: seq<(Side, Act)>)
    requires NeverReset(Play(p, steps))
    ensures NeverReset(p)
    decreases |steps|
  {
    if steps != [] {
      var (side, act) := steps[0];
      NeverResetBefore(Step(p, side, act), steps[1..]);
      if Enabled(p.a, p.b, act) { ResetsCountUp(p.a, p.b, act); }
      if Enabled(p.b, p.a, act) { ResetsCountUp(p.b, p.a, act); }
    }
  }

  /** The joint invariant holds in every run up to its first reset. */
  lemma {:induction false} PlayKeeps(p: Pair, steps: seq<(Side, Act)>)
    requires PairJoined(p) && NeverReset(Play(p, steps))
    ensures PairJoined(Play(p, steps))
    decreases |steps|
  {
    if steps != [] {
      var (side, act) := steps[0];
      NeverResetBefore(Step(p, side, act), steps[1..]);
      StepKeeps(p, side, act);
      PlayKeeps(Step(p, side, act), steps[1..]);
    }
  }

  function PowerUp(a: Config, maxA: nat, b: Config, maxB: nat): Pair {
    Pair(NewNode(a, maxA), NewNode(b, maxB))
  }

  /** The states of two sanely configured endpoints after any interleaving of steps. */
  ghost predicate Reachable(q: Pair) {
    exists a, maxA, b, maxB, steps ::
      SaneCap(a, maxA) && SaneCap(b, maxB) && q == Play(PowerUp(a, maxA, b, maxB), steps)
  }

  lemma ReachableIsJoined(q: Pair)
    requires Reachable(q) && NeverReset(q)
    ensures PairJoined(q)
  {
    var a, maxA, b, maxB, steps :|
      SaneCap(a, maxA) && SaneCap(b, maxB) && q == Play(PowerUp(a, maxA, b, maxB), steps);
    PowerUpIsJoined(a, maxA, b, maxB);
    PlayKeeps(PowerUp(a, maxA, b, maxB), steps);
  }

  function StateAt(q: Pair, side: Side): State {
    if side.A? then q.a.ep.fsm.state else q.b.ep.fsm.state
  }

  /** Main result: the first reset of either end happens exactly at a line error outside
      ErrorReset, at a timeout in Started or Connecting, or at a disable command in Run; never
      at a received character, a credit error, or anything the transmitters and applications
      do. */
  lemma FirstResetComesFromOutside(q: Pair, side: Side, act: Act)
    requires Reachable(q) && NeverReset(q)
    ensures !NeverReset(Step(q, side, act)) <==>
              act.ExternalAct? && IsExternal(act.ev) && Resets(StateAt(q, side), act.ev)
  {
    ReachableIsJoined(q);
    match side
    case A => if Enabled(q.a, q.b, act) { OnlyOutsideEventsReset(q.a, q.b, act); }
    case B => if Enabled(q.b, q.a, act) { OnlyOutsideEventsReset(q.b, q.a, act); }
  }

  /** Main result: credit is conserved in both directions, so neither counter leaves its
      range and no counter operation is ever refused. */
  lemma CreditIsConserved(q: Pair)
    requires Reachable(q) && NeverReset(q)
    ensures q.b.ep.credit.rx == q.a.ep.credit.tx + 8 * FctsInFlight(q.b) + |NCharsInFlight(q.a)|
    ensures q.a.ep.credit.rx == q.b.ep.credit.tx + 8 * FctsInFlight(q.a) + |NCharsInFlight(q.b)|
    ensures q.a.ep.credit.tx <= MAX_CREDIT && q.b.ep.credit.tx <= MAX_CREDIT
    ensures q.a.ep.credit.rx <= q.a.ep.credit.maxRx && q.b.ep.credit.rx <= q.b.ep.credit.maxRx
  {
    ReachableIsJoined(q);
  }

  /** What the receiver must become for one character off the channel to count as accepted. */
  predicate Accepts(e: Endpoint, ch: LineChar, d: Endpoint) {
    match ch
    case Null => d.credit == e.credit && d.rxQueue == e.rxQueue
    case Fct =>
      d.credit.tx == e.credit.tx + 8 && d.credit.rx == e.credit.rx && d.rxQueue == e.rxQueue
    case Normal(n) =>
      d.credit.rx == e.credit.rx - 1 && d.credit.tx == e.credit.tx && d.rxQueue == e.rxQueue + [n]
  }

  /** No delivery is refused, discarded or answered by a credit error. */
  lemma EveryDeliveryIsAccepted(q: Pair)
    requires Reachable(q) && NeverReset(q)
    ensures q.b.out != [] ==> Accepts(q.a.ep, q.b.out[0], Step(q, A, DeliverAct).a.ep)
    ensures q.a.out != [] ==> Accepts(q.b.ep, q.a.out[0], Step(q, B, DeliverAct).b.ep)
  {
    ReachableIsJoined(q);
    if q.b.out != [] { DeliveryIsAccepted(q.a, q.b); }
    if q.a.out != [] { DeliveryIsAccepted(q.b, q.a); }
  }

  lemma DeliveryIsAccepted(x: Node, y: Node)
    requires Joined(x, y) && y.out != []
    ensures Accepts(x.ep, y.out[0], Actor(x, y, DeliverAct).ep)
  {
    DeliverIsQuiet(x, y);
    match y.out[0]
    case Null =>
    case Fct => FctFindsConnecting(x, y);
    case Normal(_) => NCharFindsRun(x, y);
  }

  /** Main result: the N-Chars queued at one end are, in order, those taken at the other,
      those in its receive queue, those in flight and those still queued. */
  lemma NothingIsLostOrReordered(q: Pair)
    requires Reachable(q) && NeverReset(q)
    ensures q.a.queued == q.b.taken + q.b.ep.rxQueue + NCharsInFlight(q.a) + q.a.ep.txQueue
    ensures q.b.queued == q.a.taken + q.a.ep.rxQueue + NCharsInFlight(q.b) + q.b.ep.txQueue
  {
    ReachableIsJoined(q);
  }

  // ----- every run of the pair is a run of each of its ends ---------------------------------------

  /** What a step of the pair is for the acting endpoint. */
  function HappeningOf(y: Node, act: Act): Happening
    requires act.DeliverAct? ==> y.out != []
  {
    match act
    case PickAct => PickNext
    case CompleteAct => CompleteChar
    case DeliverAct => Hear(HeardAs(y.out[0]))
    case TakeAct => Take
    case SendAct(ns) => Queue(ns)
    case ExternalAct(ev) => External(ev)
  }

  lemma ActorHappens(x: Node, y: Node, act: Act)
    requires Enabled(x, y, act)
    ensures Actor(x, y, act).ep == Happen(x.ep, HappeningOf(y, act))
    ensures Other(x, y, act).ep == y.ep
  {
  }

  lemma {:induction false} EndsRun(p: Pair, steps: seq<(Side, Act)>)
    returns (xs: seq<Happening>, ys: seq<Happening>)
    ensures HappenAll(p.a.ep, xs) == Play(p, steps).a.ep
    ensures HappenAll(p.b.ep, ys) == Play(p, steps).b.ep
    decreases |steps|
  {
    xs, ys := [], [];
    if steps != [] {
      var (side, act) := steps[0];
      xs, ys := EndsRun(Step(p, side, act), steps[1..]);
      match side {
        case A =>
          if Enabled(p.a, p.b, act) {
            ActorHappens(p.a, p.b, act);
            xs := Before(p.a.ep, HappeningOf(p.b, act), xs);
          }
        case B =>
          if Enabled(p.b, p.a, act) {
            ActorHappens(p.b, p.a, act);
            ys := Before(p.b.ep, HappeningOf(p.a, act), ys);
          }
      }
    }
  }

  lemma Before(e: Endpoint, x: Happening, xs: seq<Happening>) returns (all: seq<Happening>)
    ensures HappenAll(e, all) == HappenAll(Happen(e, x), xs)
  {
    all := [x] + xs;
    assert all[1..] == xs;
  }

  /** The bound of one end holds at both ends of the pair, beyond the first reset too: the
      capacity, the credit cap less one FCT, and one FCT for each reset. */
  lemma ReceiveQueueBound(q: Pair)
    requires Reachable(q)
    ensures |q.a.ep.rxQueue| + q.a.ep.credit.rx
            <= q.a.ep.cfg.capacity + q.a.ep.credit.maxRx - 8 + 8 * q.a.ep.resets
    ensures |q.b.ep.rxQueue| + q.b.ep.credit.rx
            <= q.b.ep.cfg.capacity + q.b.ep.credit.maxRx - 8 + 8 * q.b.ep.resets
  {
    var a, maxA, b, maxB, steps :|
      SaneCap(a, maxA) && SaneCap(b, maxB) && q == Play(PowerUp(a, maxA, b, maxB), steps);
    var xs, ys := EndsRun(PowerUp(a, maxA, b, maxB), steps);
    RunRises(NewEndpoint(a, maxA), xs);
    RunRises(NewEndpoint(b, maxB), ys);
  }
}
