/**
 How long the receive queue can get.  Nothing bounds it directly: an FCT is sent in Run only
 when there is room for eight more, but the handshake FCT is sent regardless, and a reset
 does not empty the queue.  The results are local, about one end and any peer.
 */
module ReceiveQueue {
  import opened LinkFsm
  import opened FlowControl
  import opened Packets
  import opened Endpoints
  import opened EndpointFacts

  /** Whether the handshake FCT of the present session is still to come. */
  predicate HandshakeAhead(e: Endpoint) {
    !e.fsm.state.Run? && !(e.fsm.state.Connecting? && e.fctSentThisConnecting)
  }

  function Max(a: int, b: int): int {
    if a >= b then a else b
  }

  /** What the queue and the N-Chars that may still come can add up to. */
  function Committed(e: Endpoint): int {
    |e.rxQueue| + e.credit.rx + if HandshakeAhead(e) then 8 else 0
  }

  /** The ceiling of one session that starts with an empty queue. */
  function SessionCeiling(e: Endpoint): int {
    e.cfg.capacity + e.credit.maxRx - 8
  }

  function Ceiling(e: Endpoint): int {
    Max(SessionCeiling(e), Committed(e))
  }

  predicate CapFits(e: Endpoint) {
    EndpointOk(e) && e.credit.maxRx <= e.cfg.capacity
  }

  /** The ceiling only rises with a reset, by the eight N-Chars of one more handshake FCT. */
  predicate RisesByResets(e: Endpoint, d: Endpoint) {
    && d.cfg == e.cfg && d.credit.maxRx == e.credit.maxRx
    && e.resets <= d.resets
    && Ceiling(d) <= Ceiling(e) + 8 * (d.resets - e.resets)
  }

  lemma FeedRises(e: Endpoint, ev: Event)
    requires EndpointOk(e)
    ensures RisesByResets(e, FeedFsm(e, ev))
    ensures FeedFsm(e, ev).rxQueue == e.rxQueue
  {
    FeedClears(e, ev);
    UpStaysUp(e.fsm, ev);
    FeedMovesCommitted(e, ev);
  }

  lemma FeedMovesCommitted(e: Endpoint, ev: Event)
    requires EndpointOk(e)
    ensures Committed(FeedFsm(e, ev)) <= Committed(e) + if FeedFsm(e, ev).resets > e.resets then 8 else 0
  {
    UpStaysUp(e.fsm, ev);
    FeedKeepsOrder(e.fsm, ev);
  }

  lemma PickRises(e: Endpoint)
    requires CapFits(e) && CanPick(e)
    ensures RisesByResets(e, Pick(e))
  {
  }

  lemma FeedAgainRises(e: Endpoint, d: Endpoint, ev: Event)
    requires EndpointOk(d) && RisesByResets(e, d)
    ensures RisesByResets(e, FeedFsm(d, ev))
  {
    FeedRises(d, ev);
  }

  lemma HearRises(e: Endpoint, h: Heard)
    requires CapFits(e)
    ensures RisesByResets(e, Dispatch(e, h))
  {
    match h
    case HeardError => FeedRises(e, RxErr);
    case HeardNull => FeedRises(e, GotNull);
    case HeardTimeCode => FeedRises(e, GotTimeCode);
    case HeardFct =>
      FeedRises(e, GotFct);
      FeedKeepsOk(e, GotFct);
      FeedAgainRises(e, FeedFsm(e, GotFct), CreditErr);
    case HeardNormal(_) =>
      FeedRises(e, GotNChar);
      FeedKeepsOk(e, GotNChar);
      FeedAgainRises(e, FeedFsm(e, GotNChar), CreditErr);
  }

  lemma HappenRises(e: Endpoint, x: Happening)
    requires CapFits(e)
    ensures RisesByResets(e, Happen(e, x))
  {
    match x
    case PickNext => if CanPick(e) { PickRises(e); }
    case CompleteChar =>
      if e.slot.Driving? {
        var d := e.(slot := Idle);
        match e.slot.ch
        case Null => FeedRises(d, SentNull);
        case Fct => FeedRises(d, SentFct);
        case Normal(_) =>
      }
    case Hear(h) => HearRises(e, h);
    case Take =>
    case Queue(_) =>
    case External(ev) => if IsExternal(ev) { FeedRises(e, ev); }
  }

  lemma {:induction false} RunRises(e: Endpoint, xs: seq<Happening>)
    requires CapFits(e)
    ensures CapFits(HappenAll(e, xs)) && RisesByResets(e, HappenAll(e, xs))
    decreases |xs|
  {
    if xs != [] {
      HappenKeepsOk(e, xs[0]);
      HappenRises(e, xs[0]);
      RunRises(Happen(e, xs[0]), xs[1..]);
    }
  }

  /** Main result: within one session, whatever is heard, queue and receive credit together
      stay below capacity + cap - 8 once the queue has been empty. */
  lemma SessionBound(e: Endpoint, xs: seq<Happening>)
    requires Attainable(e) && e.credit.maxRx <= e.cfg.capacity && e.rxQueue == []
    requires HappenAll(e, xs).resets == e.resets
    ensures var d := HappenAll(e, xs);
            |d.rxQueue| + d.credit.rx <= d.cfg.capacity + d.credit.maxRx - 8
  {
    AttainableIsOk(e);
    RunRises(e, xs);
  }

  /** Main result: over all histories every reset adds at most eight, whatever is heard. */
  lemma HistoryBound(cfg: Config, maxRx: nat, xs: seq<Happening>)
    requires 8 <= maxRx <= MAX_CREDIT && maxRx <= cfg.capacity
    ensures var d := HappenAll(NewEndpoint(cfg, maxRx), xs);
            |d.rxQueue| + d.credit.rx <= cfg.capacity + maxRx - 8 + 8 * d.resets
  {
    RunRises(NewEndpoint(cfg, maxRx), xs);
  }
}
