/**
 From the bits on the line to the resets of the link: what the endpoint hears of every
 primitive that its monitor completes, which characters reset it, and so what a flipped bit
 does to a link.
 */
module LineErrors {
  import opened Wrappers
  import opened Bits
  import opened LinkFsm
  import opened FsmHistory
  import opened FlowControl
  import opened Packets
  import opened Endpoints
  import opened EndpointFacts
  import opened Characters
  import opened CodecRoundTrip
  import opened CodecErrors
  import opened CodecBits
  import opened DataStrobe
  import opened SpaceWireLinks
  import opened Wire

  // ----- bits to what is heard -----------------------------------------------------------------

  predicate IsEsc(raw: seq<Bit>)
    requires IsFrame(raw)
  {
    raw[1] == 1 && raw[2] == 1 && raw[3] == 1
  }

  /** A primitive that does not follow an ESC and is none: an error when the ones of the
      content before, the parity bit and the flag are even in number. */
  function PlainHeard(prev: seq<Bit>, raw: seq<Bit>): Heard
    requires IsFrame(raw) && !IsEsc(raw)
  {
    if !OddParity(prev, raw[0], raw[1]) then HeardError
    else if raw[1] == 0 then HeardNormal(Data(BitsToByte(raw[2..])))
    else if raw[2] == 0 && raw[3] == 0 then HeardFct
    else if raw[2] == 0 then HeardNormal(End(Eop))
    else HeardNormal(End(Eep))
  }

  /** A primitive after an ESC: a NULL when it is an FCT, a code when it is data, whatever the
      code, and an error when it is anything else or either parity is wrong. */
  function EscapedHeard(escOk: bool, prev: seq<Bit>, raw: seq<Bit>): Heard
    requires IsFrame(raw)
  {
    if !escOk || !OddParity(prev, raw[0], raw[1]) then HeardError
    else if raw[1] == 0 then HeardTimeCode
    else if raw[2] == 0 && raw[3] == 0 then HeardNull
    else HeardError
  }

  /** A pending ESC carries no fault but that of its own parity. */
  predicate HeldClean(d: Decoder) {
    d.pending.Some? ==> d.pending.value.faults == [] || d.pending.value.faults == [ParityError]
  }

  function Taken(d: Decoder, bit: Bit): seq<Bit> {
    d.buffer + [bit]
  }

  lemma ParityIsOdd(prev: seq<Bit>, raw: seq<Bit>)
    requires IsFrame(raw)
    ensures ParsePrimitive(prev, raw).faults == if OddParity(prev, raw[0], raw[1]) then [] else [ParityError]
  {
    var p := ComputeParity(prev, raw[1]);
    assert p == raw[0] <==> OddParity(prev, raw[0], raw[1]);
  }

  lemma ParsedIsHeard(prev: seq<Bit>, raw: seq<Bit>)
    requires IsFrame(raw) && !IsEsc(raw)
    ensures Classify(ParsePrimitive(prev, raw)) == Some(PlainHeard(prev, raw))
    ensures !ParsePrimitive(prev, raw).kind.EscKind?
  {
    ParityIsOdd(prev, raw);
    if raw[1] == 1 { assert raw[2..] == [raw[2], raw[3]]; }
  }

  lemma ResolvedFaultsAre(esc: Character, c: Character)
    ensures var x := ResolveEscaped(esc, c);
            && (ParityError in x.faults <==> ParityError in esc.faults || ParityError in c.faults)
            && (EscapeError in x.faults <==>
                  || EscapeError in esc.faults || EscapeError in c.faults
                  || !(c.kind.FctKind? || (c.kind.DataKind? && c.value.Some?)))
  {
    CombineKeepsFaults(esc.faults, c.faults);
    var own := CombineFaults(esc.faults, c.faults);
    CombineKeepsFaults(own, []);
    CombineKeepsFaults(own, [EscapeError]);
    CombineKeepsFaults(own, [ReservedCode]);
  }

  lemma ResolvedIsHeard(esc: Character, prev: seq<Bit>, raw: seq<Bit>)
    requires IsFrame(raw) && (esc.faults == [] || esc.faults == [ParityError])
    ensures Classify(ResolveEscaped(esc, ParsePrimitive(prev, raw)))
            == Some(EscapedHeard(esc.faults == [], prev, raw))
  {
    var c := ParsePrimitive(prev, raw);
    ParityIsOdd(prev, raw);
    ResolvedFaultsAre(esc, c);
    if raw[1] == 1 { assert raw[2..] == [raw[2], raw[3]]; }
  }

  /** Main result: what the endpoint hears of a completed primitive, in terms of its bits. */
  lemma CompletedPlain(x: Station, l: Levels)
    requires l != x.seen && IsFrame(Taken(x.dec, l.d)) && x.dec.pending.None? && !IsEsc(Taken(x.dec, l.d))
    ensures SampleOne(x, l).ep == Dispatch(x.ep, PlainHeard(x.dec.prev, Taken(x.dec, l.d)))
  {
    ParsedIsHeard(x.dec.prev, Taken(x.dec, l.d));
  }

  lemma CompletedEscaped(x: Station, l: Levels)
    requires l != x.seen && IsFrame(Taken(x.dec, l.d)) && x.dec.pending.Some? && HeldClean(x.dec)
    ensures var escOk := x.dec.pending.value.faults == [];
            SampleOne(x, l).ep == Dispatch(x.ep, EscapedHeard(escOk, x.dec.prev, Taken(x.dec, l.d)))
  {
    ResolvedIsHeard(x.dec.pending.value, x.dec.prev, Taken(x.dec, l.d));
  }

  /** An ESC is only remembered, with its parity; and a bit that completes nothing is heard
      as nothing. */
  lemma CompletedEsc(x: Station, l: Levels)
    requires l != x.seen && IsFrame(Taken(x.dec, l.d)) && x.dec.pending.None? && IsEsc(Taken(x.dec, l.d))
    ensures var z := SampleOne(x, l);
            && z.ep == x.ep && z.dec.pending.Some?
            && HeldClean(z.dec) && z.dec.prev == [1, 1]
            && (z.dec.pending.value.faults == [] <==> OddParity(x.dec.prev, Taken(x.dec, l.d)[0], 1))
  {
    var raw := Taken(x.dec, l.d);
    ParityIsOdd(x.dec.prev, raw);
    assert raw[2..] == [raw[2], raw[3]];
  }

  lemma CompletedNothing(x: Station, l: Levels)
    requires l == x.seen || !IsFrame(Taken(x.dec, l.d))
    ensures SampleOne(x, l).ep == x.ep
  {
  }

  lemma FeedKeepsHeldClean(d: Decoder, bit: Bit)
    requires HeldClean(d)
    ensures HeldClean(FeedBit(d, bit).state)
  {
    if IsFrame(Taken(d, bit)) { ParityIsOdd(d.prev, Taken(d, bit)); }
  }

  // ----- what is heard to resets ------------------------------------------------------------------

  predicate Waiting(s: State) {
    s.ErrorWait? || s.Ready? || s.Started?
  }

  /** The characters that reset an end in its present state. */
  predicate IsFatal(e: Endpoint, h: Heard) {
    match h
    case HeardError => !e.fsm.state.ErrorReset?
    case HeardNull => false
    case HeardTimeCode => e.fsm.state.Connecting? || (e.fsm.gotNull && Waiting(e.fsm.state))
    case HeardFct =>
      (e.fsm.gotNull && Waiting(e.fsm.state))
      || ((e.fsm.state.Connecting? || e.fsm.state.Run?) && e.credit.tx > 48)
    case HeardNormal(_) =>
      || (e.fsm.gotNull && Waiting(e.fsm.state))
      || e.fsm.state.Connecting?
      || (e.fsm.state.Run? && e.credit.rx == 0)
  }

  lemma NextState(f: Fsm, ev: Event)
    ensures Feed(f, ev).state.ErrorReset? && !f.state.ErrorReset? <==>
              || (Waiting(f.state) && OutOfPlace(f, ev))
              || (f.state.Started? && ev == Tick12800)
              || (f.state.Connecting? && (ev == RxErr || ev == CreditErr || ev == GotNChar
                                          || ev == GotTimeCode || ev == Tick12800))
              || (f.state.Run? && (ev == RxErr || ev == CreditErr || ev == LinkDisable))
    ensures Feed(f, ev).state.Run? && !f.state.Run? ==> f.state.Connecting?
    ensures Feed(f, ev).state.Connecting? && !f.state.Connecting? ==> f.state.Started?
  {
    match f.state
    case ErrorReset => FromErrorReset(f, ev);
    case ErrorWait => FromErrorWait(f, ev);
    case Ready => FromReady(f, ev);
    case Started => FromStarted(f, ev);
    case Connecting => FromConnecting(f, ev);
    case Run => FromRun(f, ev);
  }

  lemma FeedResets(e: Endpoint, ev: Event)
    ensures var d := FeedFsm(e, ev);
            && d.resets == e.resets + (if d.fsm.state.ErrorReset? && !e.fsm.state.ErrorReset? then 1 else 0)
            && d.fsm == Feed(e.fsm, ev)
  {
  }

  lemma FctIsFatal(e: Endpoint)
    ensures Dispatch(e, HeardFct).resets > e.resets <==> IsFatal(e, HeardFct)
  {
    var d := FeedFsm(e, GotFct);
    FeedResets(e, GotFct);
    FeedClears(e, GotFct);
    NextState(e.fsm, GotFct);
    FctStaysUp(e.fsm);
    FeedResets(d, CreditErr);
    NextState(d.fsm, CreditErr);
  }

  lemma FctStaysUp(f: Fsm)
    ensures f.state.Connecting? || f.state.Run? <==> Feed(f, GotFct).state.Connecting? || Feed(f, GotFct).state.Run?
  {
    match f.state
    case ErrorReset => FromErrorReset(f, GotFct);
    case ErrorWait => FromErrorWait(f, GotFct);
    case Ready => FromReady(f, GotFct);
    case Started => FromStarted(f, GotFct);
    case Connecting => FromConnecting(f, GotFct);
    case Run => FromRun(f, GotFct);
  }

  lemma NCharIsFatal(e: Endpoint, n: NChar)
    ensures Dispatch(e, HeardNormal(n)).resets > e.resets <==> IsFatal(e, HeardNormal(n))
    ensures Dispatch(e, HeardNormal(n)).rxQueue
            == e.rxQueue + if e.fsm.state.Run? && e.credit.rx > 0 then [n] else []
  {
    var d := FeedFsm(e, GotNChar);
    FeedResets(e, GotNChar);
    FeedClears(e, GotNChar);
    NextState(e.fsm, GotNChar);
    if e.fsm.state.Connecting? { FromConnecting(e.fsm, GotNChar); }
    if e.fsm.state.Run? { FromRun(e.fsm, GotNChar); }
    FeedResets(d, CreditErr);
    NextState(d.fsm, CreditErr);
    assert e.rxQueue + [] == e.rxQueue;
  }

  /** Main result: which characters reset an end, for every state, level and credit. */
  lemma CharacterIsFatal(e: Endpoint, h: Heard)
    ensures Dispatch(e, h).resets > e.resets <==> IsFatal(e, h)
  {
    match h
    case HeardError => FeedResets(e, RxErr); NextState(e.fsm, RxErr);
    case HeardNull => FeedResets(e, GotNull); NextState(e.fsm, GotNull);
    case HeardTimeCode => FeedResets(e, GotTimeCode); NextState(e.fsm, GotTimeCode);
    case HeardFct => FctIsFatal(e);
    case HeardNormal(n) => NCharIsFatal(e, n);
  }

  /** A time-code or broadcast, its reserved codes included, changes nothing in Run. */
  lemma TimeCodeInRun(e: Endpoint)
    requires e.fsm.state.Run?
    ensures Dispatch(e, HeardTimeCode) == e
  {
    FeedInRun(e.fsm, GotTimeCode);
  }

  // ----- bits to resets ----------------------------------------------------------------------------

  /** The primitive that this bit completes is an error in itself. */
  predicate IsBad(d: Decoder, bit: Bit) {
    var raw := Taken(d, bit);
    && IsFrame(raw)
    && match d.pending
       case None => !IsEsc(raw) && !OddParity(d.prev, raw[0], raw[1])
       case Some(esc) =>
         || esc.faults != [] || !OddParity(d.prev, raw[0], raw[1])
         || (raw[1] == 1 && !(raw[2] == 0 && raw[3] == 0))
  }

  /** Main result: at an end outside ErrorReset a bit that completes a primitive of wrong parity,
      alone or behind an ESC, or an ESC followed by EOP, EEP or ESC, resets it. */
  lemma BadPrimitiveResets(x: Station, l: Levels)
    requires l != x.seen && HeldClean(x.dec) && IsBad(x.dec, l.d) && !x.ep.fsm.state.ErrorReset?
    ensures SampleOne(x, l).ep.fsm.state.ErrorReset? && SampleOne(x, l).ep.resets == x.ep.resets + 1
  {
    if x.dec.pending.None? { CompletedPlain(x, l); } else { CompletedEscaped(x, l); }
    HardErrorDropsLink(x.ep);
  }

  /** In Run a sampled bit resets the end if and only if it completes a bad primitive, an FCT
      that the transmit credit has no room for, or an N-Char that no credit was given for. */
  lemma ResetInRunExactly(x: Station, l: Levels)
    requires x.ep.fsm.state.Run? && HeldClean(x.dec) && l != x.seen
    ensures var raw := Taken(x.dec, l.d);
            SampleOne(x, l).ep.resets > x.ep.resets <==>
              || IsBad(x.dec, l.d)
              || (IsFrame(raw) && x.dec.pending.None? && !IsEsc(raw)
                  && if raw[1] == 1 && raw[2] == 0 && raw[3] == 0 then x.ep.credit.tx > 48
                     else x.ep.credit.rx == 0)
  {
    var raw := Taken(x.dec, l.d);
    if !IsFrame(raw) {
      CompletedNothing(x, l);
    } else if x.dec.pending.Some? {
      CompletedEscaped(x, l);
      CharacterIsFatal(x.ep, EscapedHeard(x.dec.pending.value.faults == [], x.dec.prev, raw));
    } else if IsEsc(raw) {
      CompletedEsc(x, l);
    } else {
      CompletedPlain(x, l);
      CharacterIsFatal(x.ep, PlainHeard(x.dec.prev, raw));
    }
  }

  // ----- a flipped bit ---------------------------------------------------------------------------

  /** A station that samples levels one after the other. */
  function SampleAll(x: Station, ls: seq<Levels>): Station
    decreases |ls|
  {
    if ls == [] then x else SampleAll(SampleOne(x, ls[0]), ls[1..])
  }

  lemma DispatchCountsUp(e: Endpoint, h: Heard)
    ensures e.resets <= Dispatch(e, h).resets
    ensures Dispatch(e, h).fsm.state.ErrorReset? && !e.fsm.state.ErrorReset? ==> Dispatch(e, h).resets > e.resets
  {
    FeedResets(e, EventFor(h));
    FeedResets(FeedFsm(e, EventFor(h)), CreditErr);
    EventThenBookkeeping(e, h);
  }

  /** One sample: no reset, and then the decoder has just taken the bit; or a reset. */
  lemma SampleEffect(x: Station, l: Levels)
    requires l != x.seen
    ensures var z := SampleOne(x, l);
            && z.seen == l && x.ep.resets <= z.ep.resets
            && (z.ep.resets == x.ep.resets ==>
                  && z.dec == FeedBit(x.dec, l.d).state
                  && (z.ep.fsm.state.ErrorReset? ==> x.ep.fsm.state.ErrorReset?))
  {
    var cs := FeedBit(x.dec, l.d).chars;
    if cs != [] && Classify(cs[0]).Some? {
      DispatchCountsUp(x.ep, Classify(cs[0]).value);
    }
  }

  lemma SampleCounts(x: Station, l: Levels)
    ensures x.ep.resets <= SampleOne(x, l).ep.resets
  {
    if l != x.seen { SampleEffect(x, l); }
  }

  lemma {:induction false} SamplesCountUp(x: Station, ls: seq<Levels>)
    ensures x.ep.resets <= SampleAll(x, ls).ep.resets
    decreases |ls|
  {
    if ls != [] {
      SampleCounts(x, ls[0]);
      SamplesCountUp(SampleOne(x, ls[0]), ls[1..]);
    }
  }

  lemma ReportedNow(x: Station, l: Levels)
    requires l != x.seen && !x.ep.fsm.state.ErrorReset? && Reports(FeedBit(x.dec, l.d).chars)
    ensures SampleOne(x, l).ep.resets > x.ep.resets
  {
    FeedProducesAtMostOne(x.dec, l.d);
    HardErrorDropsLink(x.ep);
  }

  /** A stream in which the decoder would find a parity error resets, at the latest there, the
      end that samples it. */
  lemma {:induction false} ReportedStreamResets(x: Station, bits: seq<Bit>)
    requires !x.ep.fsm.state.ErrorReset? && Reports(Push(x.dec, bits).chars)
    ensures SampleAll(x, Line(x.seen, bits)).ep.resets > x.ep.resets
    decreases |bits|
  {
    if bits != [] {
      var l := Drive(x.seen, bits[0]);
      var z := SampleOne(x, l);
      assert Line(x.seen, bits) == [l] + Line(l, bits[1..]);
      assert ([l] + Line(l, bits[1..]))[1..] == Line(l, bits[1..]);
      SampleEffect(x, l);
      SamplesCountUp(z, Line(l, bits[1..]));
      var t := FeedBit(x.dec, bits[0]);
      if Reports(t.chars) {
        ReportedNow(x, l);
      } else if z.ep.resets == x.ep.resets {
        if !Reports(Push(t.state, bits[1..]).chars) {
          NeitherReports(t.chars, Push(t.state, bits[1..]).chars);
        }
        ReportedStreamResets(z, bits[1..]);
      }
    }
  }

  /** Main result: whatever sequence is sent, followed by one data character, if any single bit
      of the sequence is flipped before the lines carry it, an end in step with the sender and
      outside ErrorReset is reset. */
  lemma FlippedBitResets(x: Station, e: Encoder, rs: seq<Request>, v: Byte, k: nat)
    requires Synced(e, x.dec) && !x.ep.fsm.state.ErrorReset? && k < |EncodeAll(e, rs)|
    ensures var stream := EncodeAll(e, rs) + Encode(AfterAll(e, rs), AskData(v));
            SampleAll(x, Line(x.seen, FlipIn(stream, k))).ep.resets > x.ep.resets
  {
    SingleFlipIsReported(e, x.dec, rs, v, k);
    var stream := EncodeAll(e, rs) + Encode(AfterAll(e, rs), AskData(v));
    ReportedStreamResets(x, FlipIn(stream, k));
  }

  // ----- the codecs after a reset --------------------------------------------------------------------

  lemma BecameFresh(x: Station, e: Endpoint)
    requires e.resets > x.ep.resets
    ensures Became(x, e).enc == Encoder([], []) && Became(x, e).dec == NEW_DECODER
  {
  }

  /** Whatever resets a station, both its codecs start afresh. */
  lemma ResetFreshensCodecs(x: Station, y: Station, act: WireAct)
    requires CanAct(x, y, act) && Acting(x, y, act).ep.resets > x.ep.resets
    ensures Acting(x, y, act).enc == Encoder([], []) && Acting(x, y, act).dec == NEW_DECODER
  {
    match act
    case PickChar =>
    case DriveBit => BecameFresh(x, Complete(x.ep));
    case SampleBit => SampleFreshens(x, y.air[0]);
    case TakeChar =>
    case SendChars(_) =>
    case Outside(ev) => BecameFresh(x, FeedFsm(x.ep, ev));
  }

  lemma SampleFreshens(x: Station, l: Levels)
    requires SampleOne(x, l).ep.resets > x.ep.resets
    ensures SampleOne(x, l).enc == Encoder([], []) && SampleOne(x, l).dec == NEW_DECODER
  {
  }

  /** Two stations with fresh codecs, an idle transmitter and nothing on the line between them
      are in step again, whatever levels the lines have been left at. */
  lemma FreshCodecsAreInStep(x: Station, y: Station)
    requires x.enc == Encoder([], []) && y.dec == NEW_DECODER
    requires x.ep.slot.Idle? && x.todo == [] && x.air == [] && y.seen == x.line
    ensures LaneOk(x, y)
  {
  }
}
