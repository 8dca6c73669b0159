/**
 What one endpoint guarantees on its own, whatever the line brings it.
 */
module EndpointFacts {
  import opened LinkFsm
  import opened FlowControl
  import opened Packets
  import opened Endpoints
  import opened Wrappers

  /** The states of one endpoint after any happenings from power-up. */
  ghost predicate Attainable(e: Endpoint) {
    exists cfg, maxRx, xs ::
      8 <= maxRx <= MAX_CREDIT && e == HappenAll(NewEndpoint(cfg, maxRx), xs)
  }

  lemma AttainableIsOk(e: Endpoint)
    requires Attainable(e)
    ensures EndpointOk(e)
  {
    var cfg, maxRx, xs :| 8 <= maxRx <= MAX_CREDIT && e == HappenAll(NewEndpoint(cfg, maxRx), xs);
    EveryRunKeepsOk(NewEndpoint(cfg, maxRx), xs);
  }

  /** Main result: state and receive credit agree over every history, resets and arbitrary
      received characters included. */
  lemma CreditAgreesWithState(e: Endpoint)
    requires Attainable(e)
    ensures match e.fsm.state
            case ErrorReset | ErrorWait | Ready | Started => e.credit.rx == 0
            case Connecting => e.credit.rx == if e.fctSentThisConnecting then 8 else 0
            case Run => e.credit.rx <= e.credit.maxRx
    ensures e.credit.tx <= MAX_CREDIT
  {
    AttainableIsOk(e);
  }

  /** The guards of the credit counter that would raise on a careless caller are never hit. */
  lemma NoGuardIsHit(e: Endpoint)
    requires Attainable(e) && CanPick(e)
    ensures Chosen(e).Fct? ==> GrantFits(e.credit) && Pick(e).credit.rx == e.credit.rx + 8
    ensures Chosen(e).Normal? ==> CanSend(e.credit) && Pick(e).credit.tx == e.credit.tx - 1
  {
    AttainableIsOk(e);
  }

  /** The drained event is right: nothing is outstanding exactly when nothing is queued
      and no N-Char is being driven. */
  lemma DrainedMeansDriven(e: Endpoint)
    requires Attainable(e)
    ensures e.outstanding == 0 <==> e.txQueue == [] && !(e.slot.Driving? && e.slot.ch.Normal?)
    ensures e.outstanding >= 0
  {
    AttainableIsOk(e);
  }

  // ----- resets -------------------------------------------------------------------------------

  /** Feeding an event resets at most once, and clears both credits when it does. */
  lemma FeedClears(e: Endpoint, ev: Event)
    ensures FeedFsm(e, ev).resets == e.resets || FeedFsm(e, ev).resets == e.resets + 1
    ensures FeedFsm(e, ev).resets > e.resets ==>
              FeedFsm(e, ev).fsm.state.ErrorReset? && !e.fsm.state.ErrorReset?
              && FeedFsm(e, ev).credit == Cleared(e.credit)
    ensures FeedFsm(e, ev).resets == e.resets ==> FeedFsm(e, ev).credit == e.credit
  {
  }

  /** A character with a parity or escape error drops every state but ErrorReset into
      ErrorReset: the credits and the handshake flags are gone, both N-Char queues stay. */
  lemma HardErrorDropsLink(e: Endpoint)
    ensures var d := Dispatch(e, HeardError);
            && d.fsm.state.ErrorReset?
            && d.txQueue == e.txQueue && d.rxQueue == e.rxQueue && d.slot == e.slot
            && (!e.fsm.state.ErrorReset? ==>
                  && d.resets == e.resets + 1 && d.credit.tx == 0 && d.credit.rx == 0
                  && !d.fsm.gotNull && !d.fsm.sentNull && !d.fsm.sentFct && !d.fsm.gotFct)
            && (e.fsm.state.ErrorReset? ==> d == e)
  {
    match e.fsm.state
    case ErrorReset => FeedInErrorReset(e.fsm, RxErr);
    case ErrorWait => FeedInErrorWait(e.fsm, RxErr);
    case Ready => FeedInReady(e.fsm, RxErr);
    case Started => FeedInStarted(e.fsm, RxErr);
    case Connecting => FeedInConnecting(e.fsm, RxErr);
    case Run => FeedInRun(e.fsm, RxErr);
  }

  // ----- the initial burst of FCTs ----------------------------------------------------------------

  predicate NoNCharHeard(xs: seq<Happening>) {
    forall i :: 0 <= i < |xs| ==> !(xs[i].Hear? && xs[i].h.HeardNormal?)
  }

  function Grants(e: Endpoint): nat {
    e.credit.ledger.fctsSent
  }

  lemma ResetsOnlyGrow(e: Endpoint, x: Happening)
    ensures e.resets <= Happen(e, x).resets
  {
  }

  lemma {:induction false} RunResetsOnlyGrow(e: Endpoint, xs: seq<Happening>)
    ensures e.resets <= HappenAll(e, xs).resets
    decreases |xs|
  {
    if xs != [] {
      ResetsOnlyGrow(e, xs[0]);
      RunResetsOnlyGrow(Happen(e, xs[0]), xs[1..]);
    }
  }

  /** Without a reset and without N-Chars arriving, receive credit only comes from FCTs. */
  lemma GrantsAccumulate(e: Endpoint, x: Happening)
    requires e.rxQueue == [] && !(x.Hear? && x.h.HeardNormal?)
    requires Happen(e, x).resets == e.resets
    ensures var d := Happen(e, x);
            && d.rxQueue == [] && d.cfg == e.cfg && d.credit.maxRx == e.credit.maxRx
            && d.credit.rx - e.credit.rx == 8 * (Grants(d) - Grants(e))
  {
  }

  lemma {:induction false} GrantsAccumulateOverRun(e: Endpoint, xs: seq<Happening>)
    requires e.rxQueue == [] && NoNCharHeard(xs) && HappenAll(e, xs).resets == e.resets
    ensures var d := HappenAll(e, xs);
            && d.rxQueue == [] && d.cfg == e.cfg && d.credit.maxRx == e.credit.maxRx
            && d.credit.rx - e.credit.rx == 8 * (Grants(d) - Grants(e))
    decreases |xs|
  {
    if xs != [] {
      var d := Happen(e, xs[0]);
      ResetsOnlyGrow(e, xs[0]);
      RunResetsOnlyGrow(d, xs[1..]);
      GrantsAccumulate(e, xs[0]);
      GrantsAccumulateOverRun(d, xs[1..]);
    }
  }

  /** Main result: on a link that has received no N-Char since it entered Connecting, at most
      a cap's worth of FCTs have been sent, the handshake FCT included; in Run the next
      character picked is an FCT exactly while there are fewer, so the first other pick finds
      exactly that many sent. */
  lemma InitialBurst(e: Endpoint, xs: seq<Happening>)
    requires Attainable(e) && e.fsm.state.Connecting? && !e.fctSentThisConnecting && e.rxQueue == []
    requires e.credit.maxRx <= e.cfg.capacity
    requires NoNCharHeard(xs) && HappenAll(e, xs).resets == e.resets
    ensures var d := HappenAll(e, xs);
            && Grants(d) - Grants(e) <= e.credit.maxRx / 8
            && (d.fsm.state.Run? ==>
                  && (Chosen(d).Fct? <==> Grants(d) - Grants(e) < e.credit.maxRx / 8)
                  && (!Chosen(d).Fct? ==> Grants(d) - Grants(e) == e.credit.maxRx / 8))
  {
    AttainableIsOk(e);
    GrantsAccumulateOverRun(e, xs);
    EveryRunKeepsOk(e, xs);
    var d := HappenAll(e, xs);
    SessionStaysUp(e, xs);
    assert d.credit.rx == 8 * (Grants(d) - Grants(e)) && d.credit.rx <= d.credit.maxRx;
  }

  /** With a lowered cap it is an eighth of the least of the three limits. */
  lemma InitialBurstIsLowered(e: Endpoint, xs: seq<Happening>, lowered: nat)
    requires Attainable(e) && e.fsm.state.Connecting? && !e.fctSentThisConnecting && e.rxQueue == []
    requires e.credit.maxRx == ConfiguredCap(e.cfg.capacity, Some(lowered))
    requires NoNCharHeard(xs) && HappenAll(e, xs).resets == e.resets
    ensures var d := HappenAll(e, xs);
            var sent := Grants(d) - Grants(e);
            && sent <= lowered / 8 && sent <= e.cfg.capacity / 8 && sent <= 7
            && (d.fsm.state.Run? && !Chosen(d).Fct? ==>
                  sent == lowered / 8 || sent == e.cfg.capacity / 8 || sent == 7)
  {
    CapIsLeast(e.cfg.capacity, Some(lowered));
    InitialBurst(e, xs);
  }

  /** With an unlowered cap that number is the announced initial number of FCTs. */
  lemma InitialBurstIsAnnounced(e: Endpoint, xs: seq<Happening>)
    requires Attainable(e) && e.fsm.state.Connecting? && !e.fctSentThisConnecting && e.rxQueue == []
    requires e.credit.maxRx == ConfiguredCap(e.cfg.capacity, None)
    requires NoNCharHeard(xs) && HappenAll(e, xs).resets == e.resets
    ensures var d := HappenAll(e, xs);
            && Grants(d) - Grants(e) <= InitialFctCount(e.cfg.capacity)
            && (d.fsm.state.Run? ==>
                  && (Chosen(d).Fct? <==> Grants(d) - Grants(e) < InitialFctCount(e.cfg.capacity))
                  && (!Chosen(d).Fct? ==> Grants(d) - Grants(e) == InitialFctCount(e.cfg.capacity)))
  {
    InitialBurst(e, xs);
  }

  // ----- one visit to Connecting --------------------------------------------------------------

  predicate Up(s: State) {
    s.Connecting? || s.Run?
  }

  /** Without a reset Connecting leads to Run only, and Run nowhere. */
  lemma UpStaysUp(f: Fsm, ev: Event)
    ensures f.state.Run? ==> Feed(f, ev).state.Run? || Feed(f, ev).state.ErrorReset?
    ensures f.state.Connecting? ==> Up(Feed(f, ev).state) || Feed(f, ev).state.ErrorReset?
  {
    FeedFollowsTable(f, ev);
  }

  /** One happening without a reset, at an end in Connecting or Run. */
  predicate VisitStep(e: Endpoint, d: Endpoint) {
    && Up(d.fsm.state) && (e.fsm.state.Run? ==> d.fsm.state.Run?)
    && (d.fsm.state.Connecting? ==>
          Grants(d) - Grants(e) == (if d.fctSentThisConnecting then 1 else 0)
                                   - (if e.fctSentThisConnecting then 1 else 0))
  }

  lemma FeedIsVisitStep(e: Endpoint, ev: Event)
    requires Up(e.fsm.state) && FeedFsm(e, ev).resets == e.resets
    ensures VisitStep(e, FeedFsm(e, ev))
  {
    UpStaysUp(e.fsm, ev);
  }

  lemma HearIsVisitStep(e: Endpoint, h: Heard)
    requires Up(e.fsm.state) && Dispatch(e, h).resets == e.resets
    ensures VisitStep(e, Dispatch(e, h))
  {
    match h
    case HeardError => FeedIsVisitStep(e, RxErr);
    case HeardNull => FeedIsVisitStep(e, GotNull);
    case HeardTimeCode => FeedIsVisitStep(e, GotTimeCode);
    case HeardFct =>
      FeedClears(e, GotFct);
      FeedIsVisitStep(e, GotFct);
      var d := FeedFsm(e, GotFct);
      if !FctFits(d.credit) { FeedClears(d, CreditErr); FeedIsVisitStep(d, CreditErr); }
    case HeardNormal(_) =>
      FeedClears(e, GotNChar);
      FeedIsVisitStep(e, GotNChar);
      var d := FeedFsm(e, GotNChar);
      if !NCharExpected(d.credit) { FeedClears(d, CreditErr); FeedIsVisitStep(d, CreditErr); }
  }

  lemma HappenIsVisitStep(e: Endpoint, x: Happening)
    requires EndpointOk(e) && Up(e.fsm.state) && Happen(e, x).resets == e.resets
    ensures VisitStep(e, Happen(e, x))
  {
    match x
    case PickNext =>
    case CompleteChar =>
      if e.slot.Driving? {
        var d := e.(slot := Idle);
        match e.slot.ch
        case Null => FeedIsVisitStep(d, SentNull);
        case Fct => FeedIsVisitStep(d, SentFct);
        case Normal(_) =>
      }
    case Hear(h) => HearIsVisitStep(e, h);
    case Take =>
    case Queue(_) =>
    case External(ev) => if IsExternal(ev) { FeedIsVisitStep(e, ev); }
  }

  lemma {:induction false} SessionStaysUp(e: Endpoint, xs: seq<Happening>)
    requires EndpointOk(e) && Up(e.fsm.state) && HappenAll(e, xs).resets == e.resets
    ensures VisitStep(e, HappenAll(e, xs))
    decreases |xs|
  {
    if xs != [] {
      ResetsOnlyGrow(e, xs[0]);
      RunResetsOnlyGrow(Happen(e, xs[0]), xs[1..]);
      HappenKeepsOk(e, xs[0]);
      HappenIsVisitStep(e, xs[0]);
      SessionStaysUp(Happen(e, xs[0]), xs[1..]);
    }
  }

  /** At most one FCT is charged in one visit to Connecting, whatever is heard or still waits
      in the receive queue, and the flag of the visit says whether it has been. */
  lemma OneHandshakeFct(e: Endpoint, xs: seq<Happening>)
    requires Attainable(e) && e.fsm.state.Connecting?
    requires HappenAll(e, xs).fsm.state.Connecting? && HappenAll(e, xs).resets == e.resets
    ensures Grants(HappenAll(e, xs)) - Grants(e)
            == (if HappenAll(e, xs).fctSentThisConnecting then 1 else 0)
               - (if e.fctSentThisConnecting then 1 else 0)
  {
    AttainableIsOk(e);
    SessionStaysUp(e, xs);
  }
}
