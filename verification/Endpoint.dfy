/**
 One link endpoint of link.py as a value, between two atomic steps of its
 coroutines, and those steps as functions.  The class of module SpaceWireLink is
 proved against these functions.
 */
module Endpoints {
  import opened LinkFsm
  import opened FlowControl
  import opened Packets

  /** What a transmitter puts on the line. */
  datatype LineChar = Null | Fct | Normal(n: NChar)

  /** What a receiver makes of one decoded character. */
  datatype Heard = HeardNull | HeardFct | HeardNormal(n: NChar) | HeardTimeCode | HeardError

  datatype Config = Config(capacity: nat, onlyNulls: bool)

  /** The character being driven, if any. */
  datatype Slot = Idle | Driving(ch: LineChar)

  datatype Endpoint = Endpoint(
    cfg: Config,
    fsm: Fsm,
    credit: Credit,
    txQueue: seq<NChar>,
    rxQueue: seq<NChar>,
    fctSentThisConnecting: bool,
    slot: Slot,
    outstanding: int,
    resets: nat)

  function NewEndpoint(cfg: Config, maxRx: nat): Endpoint {
    Endpoint(cfg, POWER_ON, Fresh(maxRx), [], [], false, Idle, 0, 0)
  }

  // ----- the state machine inside the link ---------------------------------------

  /** The bookkeeping of a state change: ErrorReset clears both credits and counts an
      entry, Connecting re-arms the handshake FCT.  Neither queue is touched. */
  function OnStateChange(e: Endpoint): Endpoint {
    var reset := e.fsm.state.ErrorReset?;
    e.(credit := if reset then Cleared(e.credit) else e.credit,
       fctSentThisConnecting := e.fctSentThisConnecting && !e.fsm.state.Connecting?,
       resets := if reset then e.resets + 1 else e.resets)
  }

  function FeedFsm(e: Endpoint, ev: Event): Endpoint {
    var d := e.(fsm := Feed(e.fsm, ev));
    if d.fsm.state == e.fsm.state then d else OnStateChange(d)
  }

  // ----- transmit side --------------------------------------------------------------

  predicate CanPick(e: Endpoint) {
    e.slot.Idle? && ModeOf(e.fsm.state) != SilentMode
  }

  function Headroom(e: Endpoint): int {
    e.cfg.capacity - |e.rxQueue|
  }

  /** The choice of the next character: NULLs in Started, one FCT in Connecting, and in
      Run a due FCT before a queued N-Char that has credit before a NULL. */
  function Chosen(e: Endpoint): LineChar {
    match e.fsm.state
    case Connecting =>
      if e.cfg.onlyNulls || e.fctSentThisConnecting then Null else Fct
    case Run =>
      if ShouldSendFct(e.credit, Headroom(e)) then Fct
      else if |e.txQueue| > 0 && CanSend(e.credit) then Normal(e.txQueue[0])
      else Null
    case _ => Null
  }

  /** Picking charges the credit before any bit of the character is sent. */
  function Pick(e: Endpoint): Endpoint
    requires CanPick(e)
  {
    var ch := Chosen(e);
    match ch
    case Null => e.(slot := Driving(ch))
    case Fct =>
      e.(slot := Driving(ch),
         credit := OnFctSent(e.credit),
         fctSentThisConnecting := e.fctSentThisConnecting || e.fsm.state.Connecting?)
    case Normal(_) =>
      e.(slot := Driving(ch), credit := OnNCharSent(e.credit), txQueue := e.txQueue[1..])
  }

  /** The last bit of the character has been driven. */
  function Complete(e: Endpoint): Endpoint
    requires e.slot.Driving?
  {
    var d := e.(slot := Idle);
    match e.slot.ch
    case Null => FeedFsm(d, SentNull)
    case Fct => FeedFsm(d, SentFct)
    case Normal(_) => d.(outstanding := d.outstanding - 1)
  }

  // ----- receive side ---------------------------------------------------------------

  /** One decoded character: the state machine sees it first, the credit counters and
      the receive queue second. */
  function Dispatch(e: Endpoint, h: Heard): Endpoint {
    match h
    case HeardError => FeedFsm(e, RxErr)
    case HeardNull => FeedFsm(e, GotNull)
    case HeardTimeCode => FeedFsm(e, GotTimeCode)
    case HeardFct =>
      var d := FeedFsm(e, GotFct);
      if FctFits(d.credit) then d.(credit := OnFctReceived(d.credit))
      else FeedFsm(d, CreditErr)
    case HeardNormal(n) =>
      var d := FeedFsm(e, GotNChar);
      if !d.fsm.state.Run? then d
      else if NCharExpected(d.credit) then
        d.(credit := OnNCharReceived(d.credit), rxQueue := d.rxQueue + [n])
      else FeedFsm(d, CreditErr)
  }

  // ----- application side -------------------------------------------------------------

  function Enqueue(e: Endpoint, ns: seq<NChar>): Endpoint {
    e.(txQueue := e.txQueue + ns, outstanding := e.outstanding + |ns|)
  }

  function TakeOne(e: Endpoint): Endpoint
    requires |e.rxQueue| > 0
  {
    e.(rxQueue := e.rxQueue[1..])
  }

  /** Events that reach the state machine from outside the line and the transmitter:
      application commands, timer ticks and the disconnect watchdog. */
  predicate IsExternal(ev: Event) {
    match ev
    case RxErr | LinkStart | LinkStartClear | LinkDisable | LinkDisableClear
       | AutoStart | AutoStartClear | Tick6400 | Tick12800 => true
    case _ => false
  }

  // ----- runs of one endpoint, whatever the line brings -------------------------------

  datatype Happening =
    | PickNext
    | CompleteChar
    | Hear(h: Heard)
    | Take
    | Queue(ns: seq<NChar>)
    | External(ev: Event)

  /** A happening that is not possible in the present state changes nothing. */
  function Happen(e: Endpoint, x: Happening): Endpoint {
    match x
    case PickNext => if CanPick(e) then Pick(e) else e
    case CompleteChar => if e.slot.Driving? then Complete(e) else e
    case Hear(h) => Dispatch(e, h)
    case Take => if |e.rxQueue| > 0 then TakeOne(e) else e
    case Queue(ns) => Enqueue(e, ns)
    case External(ev) => if IsExternal(ev) then FeedFsm(e, ev) else e
  }

  function HappenAll(e: Endpoint, xs: seq<Happening>): Endpoint
    decreases |xs|
  {
    if xs == [] then e else HappenAll(Happen(e, xs[0]), xs[1..])
  }

  /** The receive credit that belongs to a state: none before Connecting, the one
      handshake FCT in Connecting, anything up to the cap in Run. */
  predicate RxCreditFits(e: Endpoint) {
    match e.fsm.state
    case ErrorReset | ErrorWait | Ready | Started => e.credit.rx == 0
    case Connecting => e.credit.rx == if e.fctSentThisConnecting then 8 else 0
    case Run => e.credit.rx <= e.credit.maxRx
  }

  function Busy(e: Endpoint): nat {
    if e.slot.Driving? && e.slot.ch.Normal? then 1 else 0
  }

  /** What every endpoint keeps, whatever it hears. */
  predicate EndpointOk(e: Endpoint) {
    && AtRest(e.fsm)
    && 8 <= e.credit.maxRx
    && e.credit.tx <= MAX_CREDIT
    && RxCreditFits(e)
    && e.outstanding == |e.txQueue| + Busy(e)
    && (e.cfg.onlyNulls ==> !e.fsm.sentFct && e.slot != Driving(Fct))
  }

  lemma FeedKeepsOk(e: Endpoint, ev: Event)
    requires EndpointOk(e) && (ev.SentFct? ==> !e.cfg.onlyNulls)
    ensures EndpointOk(FeedFsm(e, ev))
  {
    FeedKeepsAtRest(e.fsm, ev);
    FeedKeepsOrder(e.fsm, ev);
  }

  /** Connecting is entered only from Started, Run only from Connecting; sentFCT is only
      latched by its own event. */
  lemma FeedKeepsOrder(f: Fsm, ev: Event)
    ensures Feed(f, ev).state.Connecting? ==> f.state.Connecting? || f.state.Started?
    ensures Feed(f, ev).state.Run? ==> f.state.Run? || f.state.Connecting?
    ensures Feed(f, ev).sentFct ==> f.sentFct || ev.SentFct?
  {
  }

  lemma HappenKeepsOk(e: Endpoint, x: Happening)
    requires EndpointOk(e)
    ensures EndpointOk(Happen(e, x))
  {
    match x
    case PickNext =>
    case CompleteChar =>
      if e.slot.Driving? {
        CompleteKeepsOk(e);
      }
    case Hear(h) => DispatchKeepsOk(e, h);
    case Take =>
    case Queue(ns) =>
    case External(ev) =>
      if IsExternal(ev) {
        FeedKeepsOk(e, ev);
      }
  }

  lemma CompleteKeepsOk(e: Endpoint)
    requires EndpointOk(e) && e.slot.Driving?
    ensures EndpointOk(Complete(e))
  {
    var d := e.(slot := Idle);
    match e.slot.ch
    case Null => FeedKeepsOk(d, SentNull);
    case Fct => FeedKeepsOk(d, SentFct);
    case Normal(_) =>
  }

  lemma DispatchKeepsOk(e: Endpoint, h: Heard)
    requires EndpointOk(e)
    ensures EndpointOk(Dispatch(e, h))
  {
    match h
    case HeardError => FeedKeepsOk(e, RxErr);
    case HeardNull => FeedKeepsOk(e, GotNull);
    case HeardTimeCode => FeedKeepsOk(e, GotTimeCode);
    case HeardFct =>
      FeedKeepsOk(e, GotFct);
      FeedKeepsOk(FeedFsm(e, GotFct), CreditErr);
    case HeardNormal(n) =>
      FeedKeepsOk(e, GotNChar);
      FeedKeepsOk(FeedFsm(e, GotNChar), CreditErr);
  }

  lemma {:induction false} EveryRunKeepsOk(e: Endpoint, xs: seq<Happening>)
    requires EndpointOk(e)
    ensures EndpointOk(HappenAll(e, xs))
    decreases |xs|
  {
    if xs != [] {
      HappenKeepsOk(e, xs[0]);
      EveryRunKeepsOk(Happen(e, xs[0]), xs[1..]);
    }
  }
}
