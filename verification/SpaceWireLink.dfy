/**
 The link object of link.py: the state machine, the credit counter, the codecs, the two
 N-Char queues and the timers, changed in place.  Each method is one atomic step of the
 program's coroutines and is proved against the functions of modules Endpoints and Timers.
 */
module SpaceWireLinks {
  import opened Wrappers
  import opened Bits
  import opened LinkFsm
  import opened FlowControl
  import opened Packets
  import opened Endpoints
  import opened Characters
  import opened CodecObjects
  import opened Timers

  /** What the parser makes of a decoded character: one event for each, a hard error first;
      a bare ESC without error would be ignored. */
  function Classify(c: Character): Option<Heard> {
    if ParityError in c.faults || EscapeError in c.faults then Some(HeardError)
    else
      match c.kind
      case NullKind => Some(HeardNull)
      case FctKind => Some(HeardFct)
      case DataKind => Some(HeardNormal(Data(if c.value.Some? then c.value.value else 0)))
      case EopKind => Some(HeardNormal(End(Eop)))
      case EepKind => Some(HeardNormal(End(Eep)))
      case TimeCodeKind | BroadcastKind => Some(HeardTimeCode)
      case EscKind => None
  }

  function RequestFor(ch: LineChar): Request {
    match ch
    case Null => AskNull
    case Fct => AskFct
    case Normal(Data(v)) => AskData(v)
    case Normal(End(Eop)) => AskEop
    case Normal(End(Eep)) => AskEep
  }

  /** Every character the decoder produces from a bit is turned into exactly one event. */
  lemma EveryCharacterIsAnEvent(d: Decoder, bit: Bit)
    ensures |FeedBit(d, bit).chars| <= 1
    ensures forall c :: c in FeedBit(d, bit).chars ==> Classify(c).Some?
  {
    FeedProducesAtMostOne(d, bit);
  }

  /** The bookkeeping of `_on_rx_character`: the part of a dispatch that follows the event. */
  function Accounted(e: Endpoint, h: Heard): Endpoint {
    match h
    case HeardFct =>
      if FctFits(e.credit) then e.(credit := OnFctReceived(e.credit)) else FeedFsm(e, CreditErr)
    case HeardNormal(n) =>
      if !e.fsm.state.Run? then e
      else if NCharExpected(e.credit) then
        e.(credit := OnNCharReceived(e.credit), rxQueue := e.rxQueue + [n])
      else FeedFsm(e, CreditErr)
    case _ => e
  }

  /** The event the parser feeds for what it has heard. */
  function EventFor(h: Heard): Event {
    match h
    case HeardError => RxErr
    case HeardNull => GotNull
    case HeardFct => GotFct
    case HeardNormal(_) => GotNChar
    case HeardTimeCode => GotTimeCode
  }

  /** A dispatch is the event first and the bookkeeping, on the state it leaves, second. */
  lemma EventThenBookkeeping(e: Endpoint, h: Heard)
    ensures Dispatch(e, h) == Accounted(FeedFsm(e, EventFor(h)), h)
  {
    match h
    case HeardError =>
    case HeardNull =>
    case HeardFct =>
    case HeardNormal(_) =>
    case HeardTimeCode =>
  }

  /** What the link shows or keeps beside its endpoint: bit rate, the events that waiting
      coroutines are woken by, and the announced number of initial FCTs. */
  datatype Signals = Signals(
    bitRateBps: nat,
    runReached: bool,
    errorResetEntered: bool,
    txWakeup: bool,
    initialBurst: nat)

  /** The surroundings of an endpoint: its configuration, the clock, timers and signals. */
  datatype Around = Around(
    targetBps: nat,
    capacity: nat,
    now: nat,
    gen: nat,
    timers: seq<Timer>,
    signals: Signals)

  /** A state has been entered: timers after the schedule of section 8.5, the bit rate of the
      state, and every signal that belongs to it. */
  function Entered(o: Around, s: State): Around {
    o.(gen := GenAfter(o.gen, s),
       timers := TimersAfter(o.gen, o.timers, o.now, s),
       signals := Signals(
         OutputOf(s, o.targetBps).bitRateBps,
         o.signals.runReached || s.Run?,
         o.signals.errorResetEntered || s.ErrorReset?,
         true,
         if s.Run? then InitialFctCount(o.capacity) else o.signals.initialBurst))
  }

  /** Nothing around the endpoint changes unless its state does. */
  function Followed(o: Around, before: State, after: State): Around {
    if before == after then o else Entered(o, after)
  }

  /** The bookkeeping of a character heard when the endpoint was `m`, after which its state is
      `after`: an FCT that is accepted wakes the transmitter. */
  function AroundAccounted(o: Around, m: Endpoint, h: Heard, after: State): Around {
    if h.HeardFct? && FctFits(m.credit) then o.(signals := o.signals.(txWakeup := true))
    else Followed(o, m.fsm.state, after)
  }

  /** The surroundings after a whole dispatch from `e`: those of its event first, those of the
      bookkeeping second. */
  function AroundDispatched(o: Around, e: Endpoint, h: Heard): Around {
    var m := FeedFsm(e, EventFor(h));
    AroundAccounted(Followed(o, e.fsm.state, m.fsm.state), m, h, Accounted(m, h).fsm.state)
  }

  /** What entering a state signals, signal by signal. */
  lemma SignalsOfStates(o: Around, s: State)
    ensures var now, was := Entered(o, s).signals, o.signals;
            && now.bitRateBps == (if s == State.Run then o.targetBps else 10_000_000)
            && (now.runReached <==> was.runReached || s == State.Run)
            && (now.errorResetEntered <==> was.errorResetEntered || s == ErrorReset)
            && now.txWakeup
            && (s == State.Run ==> 8 * now.initialBurst <= o.capacity && now.initialBurst <= 7
                                   && (o.capacity < 8 * now.initialBurst + 8 || now.initialBurst == 7))
            && (s != State.Run ==> now.initialBurst == was.initialBurst)
  {
  }

  /** An FCT that is accepted wakes the transmitter and does nothing else around the endpoint;
      neither does anything an N-Char that is accepted. */
  lemma AcceptedCharactersSignal(o: Around, m: Endpoint, h: Heard)
    requires h.HeardFct? || (h.HeardNormal? && m.fsm.state.Run?)
    requires !CreditFaulty(m, h)
    ensures var p := AroundAccounted(o, m, h, Accounted(m, h).fsm.state);
            && p == o.(signals := p.signals)
            && p.signals == o.signals.(txWakeup := h.HeardFct? || o.signals.txWakeup)
  {
  }

  predicate CreditFaulty(m: Endpoint, h: Heard) {
    (h.HeardFct? && !FctFits(m.credit)) || (h.HeardNormal? && m.fsm.state.Run? && !NCharExpected(m.credit))
  }

  /** A link seen by its timers agrees with an endpoint and its surroundings. */
  predicate InTime(c: Clocked, e: Endpoint, o: Around) {
    c.fsm == e.fsm && c.now == o.now && c.gen == o.gen && c.timers == o.timers
  }

  lemma FeedInTime(c: Clocked, e: Endpoint, o: Around, ev: Event)
    requires InTime(c, e, o)
    ensures InTime(FeedClocked(c, ev), FeedFsm(e, ev), Followed(o, e.fsm.state, FeedFsm(e, ev).fsm.state))
  {
  }

  /** A dispatch is, for the timers, one event of the timed model, or two when the character
      is a credit error; so what is proved of the timers holds across the receive path. */
  lemma DispatchInTime(c: Clocked, e: Endpoint, o: Around, h: Heard)
    requires InTime(c, e, o)
    ensures var m := FeedFsm(e, EventFor(h));
            var d := FeedClocked(c, EventFor(h));
            InTime(if CreditFaulty(m, h) then FeedClocked(d, CreditErr) else d,
                   Dispatch(e, h), AroundDispatched(o, e, h))
  {
    var m := FeedFsm(e, EventFor(h));
    var p := Followed(o, e.fsm.state, m.fsm.state);
    EventThenBookkeeping(e, h);
    FeedInTime(c, e, o, EventFor(h));
    AccountInTime(FeedClocked(c, EventFor(h)), m, p, h);
  }

  lemma AccountInTime(d: Clocked, m: Endpoint, p: Around, h: Heard)
    requires InTime(d, m, p)
    ensures InTime(if CreditFaulty(m, h) then FeedClocked(d, CreditErr) else d,
                   Accounted(m, h), AroundAccounted(p, m, h, Accounted(m, h).fsm.state))
  {
    FeedInTime(d, m, p, CreditErr);
  }

  class SpaceWireLink {
    const fsm: LinkFSM
    const credit: CreditCounter
    const encoder: CharEncoder
    const decoder: CharDecoder
    const cfg: Config
    var txQueue: seq<NChar>
    var rxQueue: seq<NChar>
    var slot: Slot
    var txOutstanding: int
    var txDrained: bool
    var errorResetCount: nat
    var fctSentThisConnecting: bool
    var timerGen: nat
    var timers: seq<Timer>
    var now: nat
    var signals: Signals

    constructor (cfg: Config, lowered: Option<nat>, bitRateBps: nat)
      ensures Valid() && fresh(fsm) && fresh(credit) && fresh(encoder) && fresh(decoder)
      ensures View() == NewEndpoint(cfg, ConfiguredCap(cfg.capacity, lowered))
      ensures encoder.View() == Encoder([], []) && decoder.View() == NEW_DECODER
      ensures timers == [] && now == 0 && fsm.targetBitRateBps == bitRateBps
      ensures signals == Signals(INITIAL_BIT_RATE_BPS, false, false, false, 0)
    {
      this.cfg := cfg;
      signals := Signals(INITIAL_BIT_RATE_BPS, false, false, false, 0);
      fsm := new LinkFSM(bitRateBps);
      credit := new CreditCounter(ConfiguredCap(cfg.capacity, lowered));
      encoder := new CharEncoder([]);
      decoder := new CharDecoder([]);
      txQueue, rxQueue, slot := [], [], Idle;
      txOutstanding, txDrained, errorResetCount, fctSentThisConnecting := 0, true, 0, false;
      timerGen, timers, now := 0, [], 0;
    }

    /** The drain ledger: what is outstanding is queued or being driven, and the drained
        event is set exactly when nothing is. */
    ghost predicate Valid()
      reads this, decoder
    {
      && decoder.Valid() && decoder.initialPrev == []
      && txOutstanding == |txQueue| + (if slot.Driving? && slot.ch.Normal? then 1 else 0)
      && (txDrained <==> txOutstanding == 0)
    }

    function View(): Endpoint
      reads this, fsm, credit
    {
      Endpoint(cfg, fsm.View(), credit.View(), txQueue, rxQueue, fctSentThisConnecting,
               slot, txOutstanding, errorResetCount)
    }

    function Surroundings(): Around
      reads this
    {
      Around(fsm.targetBitRateBps, cfg.capacity, now, timerGen, timers, signals)
    }

    // ----- timers ---------------------------------------------------------------------

    method StartTimer(duration: nat, tick: Event)
      modifies `timerGen, `timers
      ensures timerGen == old(timerGen) + 1
      ensures timers == old(timers) + [Timer(timerGen, tick, now + duration)]
    {
      timerGen := timerGen + 1;
      timers := timers + [Timer(timerGen, tick, now + duration)];
    }

    method CancelTimer()
      modifies `timerGen
      ensures timerGen == old(timerGen) + 1
    {
      timerGen := timerGen + 1;
    }

    /** `start`: the ErrorReset timer is armed before anything else happens. */
    method Start()
      requires timerGen == 0 && timers == [] && now == 0
      modifies `timerGen, `timers
      ensures timerGen == BEGIN.gen && timers == BEGIN.timers
    {
      StartTimer(TICK_6400_NS, Tick6400);
    }

    // ----- state machine plumbing ---------------------------------------------------------

    method ScheduleTimers(state: State)
      modifies `timerGen, `timers
      ensures timerGen == GenAfter(old(timerGen), state)
      ensures timers == TimersAfter(old(timerGen), old(timers), now, state)
    {
      CancelTimer();
      if state == ErrorReset {
        StartTimer(TICK_6400_NS, Tick6400);
      } else if state == ErrorWait || state == Started || state == Connecting {
        StartTimer(TICK_12800_NS, Tick12800);
      }
    }

    /** Both codecs start afresh when ErrorReset has been entered and are otherwise left
        alone. */
    twostate predicate CodecsFollow()
      reads this, encoder, decoder
    {
      && encoder.View() == (if errorResetCount > old(errorResetCount) then Encoder([], []) else old(encoder.View()))
      && decoder.View() == (if errorResetCount > old(errorResetCount) then NEW_DECODER else old(decoder.View()))
    }

    /** Entry to ErrorReset: fresh codecs, no credit, one more entry counted. */
    method DropSession()
      requires Valid()
      modifies `errorResetCount, credit, encoder, decoder
      ensures Valid() && credit.View() == Cleared(old(credit.View())) && errorResetCount == old(errorResetCount) + 1
      ensures encoder.View() == Encoder([], []) && decoder.View() == NEW_DECODER
    {
      encoder.Reset([]);
      decoder.Reset();
      credit.DoReset();
      errorResetCount := errorResetCount + 1;
    }

    method SetSignals(out: Output)
      requires out == OutputOf(fsm.state, fsm.targetBitRateBps)
      modifies `signals
      ensures signals == Entered(old(Surroundings()), fsm.state).signals
    {
      signals := signals.(bitRateBps := out.bitRateBps, txWakeup := true);
      if out.state == ErrorReset {
        signals := signals.(errorResetEntered := true);
      }
      if out.state == State.Run {
        signals := signals.(initialBurst := InitialFctCount(cfg.capacity), runReached := true);
      }
    }

    method HandleStateChange(out: Output)
      requires Valid() && out == OutputOf(fsm.state, fsm.targetBitRateBps)
      modifies `errorResetCount, `fctSentThisConnecting, `timerGen, `timers, `signals, credit, encoder, decoder
      ensures Valid() && View() == OnStateChange(old(View())) && CodecsFollow()
      ensures Surroundings() == Entered(old(Surroundings()), fsm.state)
    {
      ScheduleTimers(out.state);
      SetSignals(out);
      if out.state == ErrorReset {
        DropSession();
      }
      if out.state == Connecting {
        fctSentThisConnecting := false;
      }
    }

    /** Whatever has to follow when the machine may have left the state `previous`. */
    method FollowState(previous: State, out: Output)
      requires Valid() && out == OutputOf(fsm.state, fsm.targetBitRateBps)
      modifies `errorResetCount, `fctSentThisConnecting, `timerGen, `timers, `signals, credit, encoder, decoder
      ensures Valid() && CodecsFollow()
      ensures View() == if fsm.state == previous then old(View()) else OnStateChange(old(View()))
      ensures Surroundings() == Followed(old(Surroundings()), previous, fsm.state)
    {
      if out.state != previous {
        HandleStateChange(out);
      }
    }

    method DoFeedFsm(ev: Event)
      requires Valid()
      modifies `errorResetCount, `fctSentThisConnecting, `timerGen, `timers, `signals, fsm, credit, encoder, decoder
      ensures Valid() && View() == FeedFsm(old(View()), ev) && CodecsFollow()
      ensures Surroundings() == Followed(old(Surroundings()), old(fsm.state), fsm.state)
    {
      var previous := fsm.state;
      var out := fsm.DoFeed(ev);
      FollowState(previous, out);
    }

    /** A timer that expires feeds its tick only when it is of the current generation. */
    method RunTimer(i: nat)
      requires Valid() && i < |timers| && timers[i].due == now
      modifies `errorResetCount, `fctSentThisConnecting, `timerGen, `timers, `signals, fsm, credit, encoder, decoder
      ensures Valid() && CodecsFollow()
      ensures View() == if old(timers[i].gen == timerGen) then FeedFsm(old(View()), old(timers[i].tick))
                        else old(View())
      ensures Surroundings()
              == Followed(old(Surroundings()).(timers := Drop(old(timers), i)), old(fsm.state), fsm.state)
    {
      var t := timers[i];
      timers := Drop(timers, i);
      if t.gen == timerGen {
        DoFeedFsm(t.tick);
      }
    }

    // ----- transmit side -----------------------------------------------------------------

    /** The choice of the next character, with its charge on the credit counters. */
    method NextChar() returns (ch: LineChar)
      requires Valid() && CanPick(View())
      modifies `fctSentThisConnecting, `txQueue, credit
      ensures ch == Chosen(old(View()))
      ensures View() == Pick(old(View())).(slot := slot)
    {
      var mode := ModeOf(fsm.state);
      if mode == NullMode {
        return Null;
      }
      if mode == NullFctMode {
        if cfg.onlyNulls {
          return Null;
        }
        if !fctSentThisConnecting {
          fctSentThisConnecting := true;
          var _ := credit.DoFctSent();
          return Fct;
        }
        return Null;
      }
      var headroom := cfg.capacity - |rxQueue|;
      if ShouldSendFct(credit.View(), headroom) {
        var _ := credit.DoFctSent();
        return Fct;
      }
      if |txQueue| > 0 && CanSend(credit.View()) {
        var n := txQueue[0];
        txQueue := txQueue[1..];
        var _ := credit.DoNCharSent();
        return Normal(n);
      }
      ch := Null;
    }

    /** The first half of a turn of the transmit loop: pick a character and encode it. */
    method BeginChar() returns (bits: seq<Bit>)
      requires Valid() && CanPick(View())
      modifies `fctSentThisConnecting, `txQueue, `slot, credit, encoder
      ensures Valid() && View() == Pick(old(View()))
      ensures bits == Encode(old(encoder.View()), RequestFor(Chosen(old(View()))))
      ensures encoder.View() == AfterPrims(old(encoder.View()), PrimsOf(RequestFor(Chosen(old(View())))))
    {
      var ch := NextChar();
      bits := encoder.DoEncode(RequestFor(ch));
      slot := Driving(ch);
    }

    /** The second half: the last bit has been driven. */
    method EndChar()
      requires Valid() && slot.Driving?
      modifies this, fsm, credit, encoder, decoder
      ensures Valid() && View() == Complete(old(View())) && CodecsFollow()
      ensures Surroundings() == Followed(old(Surroundings()), old(fsm.state), fsm.state)
    {
      var ch := slot.ch;
      slot := Idle;
      if ch.Null? {
        DoFeedFsm(SentNull);
      } else if ch.Fct? {
        DoFeedFsm(SentFct);
      } else {
        txOutstanding := txOutstanding - 1;
        if txOutstanding == 0 {
          txDrained := true;
        }
      }
    }

    // ----- receive side ------------------------------------------------------------------

    /** The credit and queue bookkeeping of an FCT or N-Char, after its event. */
    method OnRxCharacter(h: Heard)
      requires Valid()
      modifies `rxQueue, `errorResetCount, `fctSentThisConnecting, `timerGen, `timers, `signals
      modifies fsm, credit, encoder, decoder
      ensures Valid() && CodecsFollow()
      ensures View() == Accounted(old(View()), h)
      ensures Surroundings() == AroundAccounted(old(Surroundings()), old(View()), h, fsm.state)
    {
      if h.HeardFct? {
        var v := credit.DoFctReceived();
        if v != Accepted {
          DoFeedFsm(CreditErr);
          return;
        }
        signals := signals.(txWakeup := true);
        return;
      }
      if !h.HeardNormal? || fsm.state != State.Run {
        return;
      }
      var v := credit.DoNCharReceived();
      if v != Accepted {
        DoFeedFsm(CreditErr);
        return;
      }
      rxQueue := rxQueue + [h.n];
    }

    /** One decoded character: the event first, the bookkeeping second. */
    method DispatchCharacter(c: Character)
      requires Valid()
      modifies `rxQueue, `errorResetCount, `fctSentThisConnecting, `timerGen, `timers, `signals
      modifies fsm, credit, encoder, decoder
      ensures Valid() && CodecsFollow()
      ensures View() == match Classify(c)
                        case None => old(View())
                        case Some(h) => Dispatch(old(View()), h)
      ensures Surroundings() == match Classify(c)
                                case None => old(Surroundings())
                                case Some(h) => AroundDispatched(old(Surroundings()), old(View()), h)
    {
      match Classify(c) {
        case None =>
        case Some(h) =>
          EventThenBookkeeping(View(), h);
          DoFeedFsm(EventFor(h));
          OnRxCharacter(h);
      }
    }

    /** One sampled line bit. */
    method ReceiveBit(bit: Bit)
      requires Valid()
      modifies `rxQueue, `errorResetCount, `fctSentThisConnecting, `timerGen, `timers, `signals
      modifies fsm, credit, encoder, decoder
      ensures Valid()
      ensures encoder.View() == if errorResetCount > old(errorResetCount) then Encoder([], [])
                                else old(encoder.View())
      ensures decoder.View() == if errorResetCount > old(errorResetCount) then NEW_DECODER
                                else FeedBit(old(decoder.View()), bit).state
      ensures var cs := FeedBit(old(decoder.View()), bit).chars;
              && View() == (if cs == [] then old(View()) else Dispatch(old(View()), Classify(cs[0]).value))
              && Surroundings() == (if cs == [] then old(Surroundings())
                                    else AroundDispatched(old(Surroundings()), old(View()), Classify(cs[0]).value))
    {
      EveryCharacterIsAnEvent(decoder.View(), bit);
      var chars := decoder.DoFeed(bit);
      if chars != [] {
        assert chars[0] in chars;
        DispatchCharacter(chars[0]);
      }
    }

    // ----- packets -------------------------------------------------------------------------

    method EnqueueNChar(n: NChar)
      requires Valid()
      modifies `txQueue, `txOutstanding, `txDrained
      ensures Valid() && View() == Enqueue(old(View()), [n])
    {
      txQueue := txQueue + [n];
      txOutstanding := txOutstanding + 1;
      txDrained := false;
    }

    /** The queueing half of `send_packet`; its caller then waits for the drained event. */
    method SendPacket(p: Packet)
      requires Valid()
      modifies `txQueue, `txOutstanding, `txDrained
      ensures Valid() && View() == Enqueue(old(View()), Serialize(p)) && !txDrained
      ensures |txQueue| == old(|txQueue|) + |p.data| + 1 && txQueue[..old(|txQueue|)] == old(txQueue)
      ensures forall i :: 0 <= i < |p.data| ==> txQueue[old(|txQueue|) + i] == Data(p.data[i])
      ensures txQueue[|txQueue| - 1] == End(p.terminator)
    {
      ghost var e := View();
      for i := 0 to |p.data|
        invariant Valid() && View() == Enqueue(e, DataChars(p.data[..i]))
      {
        assert DataChars(p.data[..i + 1]) == DataChars(p.data[..i]) + [Data(p.data[i])];
        EnqueueNChar(Data(p.data[i]));
      }
      assert p.data[..|p.data|] == p.data;
      EnqueueNChar(End(p.terminator));
    }

    /** `recv_packet` until it returns or has to wait for more: `partial` is the data it had
        collected before and, if it must wait, the data it has collected now. */
    method RecvPacket(partial: seq<Byte>) returns (packet: Option<Packet>, collected: seq<Byte>)
      requires Valid()
      modifies `rxQueue
      ensures Valid() && (packet.None? ==> rxQueue == [])
      ensures |rxQueue| <= old(|rxQueue|) && rxQueue == old(rxQueue)[old(|rxQueue|) - |rxQueue|..]
      ensures ReadAll(Reader([], partial), old(rxQueue)[..old(|rxQueue|) - |rxQueue|])
              == match packet
                 case Some(p) => Reader([p], [])
                 case None => Reader([], collected)
      ensures var consumed := old(rxQueue)[..old(|rxQueue|) - |rxQueue|];
              match packet
              case Some(p) => Completes(partial, consumed, p)
              case None => Collects(partial, consumed, collected)
    {
      collected := partial;
      ghost var all := rxQueue;
      ghost var k := 0;
      while |rxQueue| > 0
        invariant 0 <= k <= |all| && rxQueue == all[k..]
        invariant Collects(partial, all[..k], collected)
        invariant ReadAll(Reader([], partial), all[..k]) == Reader([], collected)
        invariant unchanged(`txQueue) && unchanged(`slot) && unchanged(`txOutstanding) && unchanged(`txDrained)
      {
        var n := rxQueue[0];
        assert all[..k + 1] == all[..k] + [n];
        ReadAllSplits(Reader([], partial), all[..k], [n]);
        ReadOne(Reader([], collected), n);
        rxQueue := rxQueue[1..];
        k := k + 1;
        match n {
          case End(t) => return Some(Packet(collected, t)), [];
          case Data(v) => collected := collected + [v];
        }
      }
      packet := None;
    }
  }

  lemma ReadOne(r: Reader, n: NChar)
    ensures ReadAll(r, [n]) == ReadChar(r, n)
  {
    assert ReadAll(ReadChar(r, n), []) == ReadChar(r, n);
  }
}
