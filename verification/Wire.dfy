/**
 The whole stack: two links joined bit by bit.  Each end has its endpoint, its encoder and
 decoder, the bits of a character not yet driven, the levels of its two output lines, and
 a monitor that samples the peer's lines.  Every run of this system up to its first reset
 is a run of the character-level pair of module LinkPair, and every such run of the pair
 can be played bit by bit.
 */
module Wire {
  import opened Wrappers
  import opened Bits
  import opened LinkFsm
  import opened Packets
  import opened Endpoints
  import opened LinkPair
  import opened LinkSafety
  import opened LinkReach
  import opened Characters
  import opened CodecObjects
  import opened CodecRoundTrip
  import opened DataStrobe
  import opened SpaceWireLinks

  datatype Station = Station(
    ep: Endpoint,
    enc: Encoder,
    dec: Decoder,
    todo: seq<Bit>,       // bits of the character being sent that are not driven yet
    line: Levels,         // levels this station drives
    air: seq<Levels>,     // levels driven and not yet seen by the peer's monitor
    seen: Levels,         // levels of the peer's lines last seen by this monitor
    queued: seq<NChar>,
    taken: seq<NChar>)

  datatype Link = Link(a: Station, b: Station)

  datatype WireAct =
    | PickChar
    | DriveBit
    | SampleBit
    | TakeChar
    | SendChars(ns: seq<NChar>)
    | Outside(ev: Event)

  function NewStation(cfg: Config, maxRx: nat): Station {
    Station(NewEndpoint(cfg, maxRx), Encoder([], []), NEW_DECODER, [], Levels(0, 0), [], Levels(0, 0), [], [])
  }

  /** A station whose endpoint has become `e`: both codecs start afresh when that entered
      ErrorReset. */
  function Became(x: Station, e: Endpoint): Station {
    var reset := e.resets > x.ep.resets;
    x.(ep := e,
       enc := if reset then Encoder([], []) else x.enc,
       dec := if reset then NEW_DECODER else x.dec)
  }

  function PickBits(x: Station): Station
    requires CanPick(x.ep)
  {
    var r := RequestFor(Chosen(x.ep));
    x.(ep := Pick(x.ep), enc := After(x.enc, r), todo := Encode(x.enc, r))
  }

  /** One bit onto the lines; the last one completes the character. */
  function DriveOne(x: Station): Station
    requires x.todo != [] && x.ep.slot.Driving?
  {
    var l := Drive(x.line, x.todo[0]);
    var d := x.(line := l, air := x.air + [l], todo := x.todo[1..]);
    if |x.todo| == 1 then Became(d, Complete(d.ep)) else d
  }

  /** The monitor sees the peer's lines at new levels: the data level is one bit for the
      parser. */
  function SampleOne(x: Station, l: Levels): Station {
    if l == x.seen then x
    else
      var t := FeedBit(x.dec, l.d);
      var d := x.(seen := l, dec := t.state);
      if t.chars == [] then d else HearOne(d, Classify(t.chars[0]))
  }

  function HearOne(x: Station, h: Option<Heard>): Station {
    match h
    case None => x
    case Some(h) => Became(x, Dispatch(x.ep, h))
  }

  predicate CanAct(x: Station, y: Station, act: WireAct) {
    match act
    case PickChar => CanPick(x.ep)
    case DriveBit => x.todo != [] && x.ep.slot.Driving?
    case SampleBit => y.air != []
    case TakeChar => x.ep.rxQueue != []
    case SendChars(_) => true
    case Outside(ev) => IsExternal(ev)
  }

  function Acting(x: Station, y: Station, act: WireAct): Station
    requires CanAct(x, y, act)
  {
    match act
    case PickChar => PickBits(x)
    case DriveBit => DriveOne(x)
    case SampleBit => SampleOne(x, y.air[0])
    case TakeChar => x.(ep := TakeOne(x.ep), taken := x.taken + [x.ep.rxQueue[0]])
    case SendChars(ns) => x.(ep := Enqueue(x.ep, ns), queued := x.queued + ns)
    case Outside(ev) => Became(x, FeedFsm(x.ep, ev))
  }

  function Passive(x: Station, y: Station, act: WireAct): Station
    requires CanAct(x, y, act)
  {
    if act.SampleBit? then y.(air := y.air[1..]) else y
  }

  function WireStep(w: Link, side: Side, act: WireAct): Link {
    match side
    case A => if CanAct(w.a, w.b, act) then Link(Acting(w.a, w.b, act), Passive(w.a, w.b, act)) else w
    case B => if CanAct(w.b, w.a, act) then Link(Passive(w.b, w.a, act), Acting(w.b, w.a, act)) else w
  }

  function WirePlay(w: Link, steps: seq<(Side, WireAct)>): Link
    decreases |steps|
  {
    if steps == [] then w else WirePlay(WireStep(w, steps[0].0, steps[0].1), steps[1..])
  }

  predicate Unbroken(w: Link) {
    w.a.ep.resets == 0 && w.b.ep.resets == 0
  }

  // ----- what the bits on the line mean --------------------------------------------------

  function AsLine(c: Character): LineChar {
    match c.kind
    case FctKind => Fct
    case DataKind => Normal(Data(if c.value.Some? then c.value.value else 0))
    case EopKind => Normal(End(Eop))
    case EepKind => Normal(End(Eep))
    case _ => Null
  }

  /** The parser takes the character for what was sent. */
  predicate Clean(c: Character) {
    Classify(c) == Some(HeardAs(AsLine(c)))
  }

  predicate AllClean(cs: seq<Character>) {
    forall i :: 0 <= i < |cs| ==> Clean(cs[i])
  }

  function Lines(cs: seq<Character>): (ls: seq<LineChar>)
    ensures |ls| == |cs|
  {
    seq(|cs|, i requires 0 <= i < |cs| => AsLine(cs[i]))
  }

  /** What the receiving decoder will have made of the bits on their way from `x` to `y`. */
  function Arriving(x: Station, y: Station): Decoded {
    Push(y.dec, Sampled(y.seen, x.air))
  }

  /** The character-level view of a station. */
  function NodeOf(x: Station, y: Station): Node {
    Node(x.ep, Lines(Arriving(x, y).chars), x.queued, x.taken)
  }

  function PairOf(w: Link): Pair {
    Pair(NodeOf(w.a, w.b), NodeOf(w.b, w.a))
  }

  /** An idle transmitter is in step with what the receiver will be; a busy one has just the
      bits left that complete its character there and bring the two in step. */
  predicate InStep(x: Station, d: Decoder) {
    if x.ep.slot.Idle? then x.todo == [] && Synced(x.enc, d)
    else
      var t := Push(d, x.todo);
      && Synced(x.enc, t.state)
      && |t.chars| == 1 && Clean(t.chars[0]) && AsLine(t.chars[0]) == x.ep.slot.ch
  }

  predicate LaneOk(x: Station, y: Station) {
    && LastLevels(y.seen, x.air) == x.line
    && AllClean(Arriving(x, y).chars)
    && InStep(x, Arriving(x, y).state)
  }

  predicate WireOk(w: Link) {
    LaneOk(w.a, w.b) && LaneOk(w.b, w.a)
  }

  /** The character-level step, if any, that a bit-level step amounts to. */
  function Shadow(x: Station, y: Station, act: WireAct): Option<Act>
    requires CanAct(x, y, act)
  {
    match act
    case PickChar => Some(PickAct)
    case DriveBit => if |x.todo| == 1 then Some(CompleteAct) else None
    case SampleBit =>
      if y.air[0] != x.seen && FeedBit(x.dec, y.air[0].d).chars != [] then Some(DeliverAct) else None
    case TakeChar => Some(TakeAct)
    case SendChars(ns) => Some(SendAct(ns))
    case Outside(ev) => Some(ExternalAct(ev))
  }

  // ----- one lane ------------------------------------------------------------------------

  lemma {:induction false} SampledGrows(l: Levels, ls: seq<Levels>, x: Levels)
    ensures Sampled(l, ls + [x]) == Sampled(l, ls) + if x != LastLevels(l, ls) then [x.d] else []
    ensures LastLevels(l, ls + [x]) == x
    decreases |ls|
  {
    if ls == [] {
      assert ls + [x] == [x];
      assert Sampled(x, []) == [];
    } else {
      assert (ls + [x])[1..] == ls[1..] + [x];
      SampledGrows(ls[0], ls[1..], x);
    }
  }

  lemma MatchingIsClean(c: Character, ch: LineChar)
    requires Matches(c, RequestFor(ch))
    ensures Clean(c) && AsLine(c) == ch
  {
    match ch
    case Null =>
    case Fct =>
    case Normal(Data(v)) =>
    case Normal(End(t)) =>
  }

  lemma RequestIsLegal(ch: LineChar)
    ensures Legal(RequestFor(ch))
  {
    match ch
    case Null =>
    case Fct =>
    case Normal(Data(v)) =>
    case Normal(End(t)) =>
  }

  /** A picked character is in step: its bits produce it, and nothing else, at the far end. */
  lemma PickedInStep(x: Station, d: Decoder)
    requires InStep(x, d) && CanPick(x.ep)
    ensures InStep(PickBits(x), d) && PickBits(x).todo != []
  {
    var ch := Chosen(x.ep);
    RequestIsLegal(ch);
    EncodeThenDecodeOne(x.enc, d, RequestFor(ch));
    MatchingIsClean(Push(d, Encode(x.enc, RequestFor(ch))).chars[0], ch);
  }

  /** Only the last bit of a character produces it. */
  lemma OnlyTheLastBitProduces(d: Decoder, bits: seq<Bit>)
    requires bits != [] && |Push(d, bits).chars| == 1 && Held(Push(d, bits).state) == []
    ensures FeedBit(d, bits[0]).chars != [] <==> |bits| == 1
    ensures |bits| == 1 ==> Push(d, bits) == FeedBit(d, bits[0])
  {
    var t := FeedBit(d, bits[0]);
    var rest := Push(t.state, bits[1..]);
    DecodingIsLossless(t.state, bits[1..]);
    if t.chars != [] {
      assert rest.chars == [];
      FeedProducesAtMostOne(d, bits[0]);
      assert Held(t.state) + bits[1..] == [];
    }
    if |bits| == 1 {
      assert rest == Decoded(t.state, []);
      assert t.chars + [] == t.chars;
    }
  }

  /** `z` is the sender `x` one driven bit later. */
  predicate OneBitLater(x: Station, z: Station)
    requires x.todo != []
  {
    && z.line == Drive(x.line, x.todo[0])
    && z.air == x.air + [z.line]
    && z.todo == x.todo[1..]
    && z.enc == x.enc
    && z.ep.slot == if |x.todo| == 1 then Idle else x.ep.slot
  }

  lemma DriveLater(x: Station)
    requires x.todo != [] && x.ep.slot.Driving?
    requires DriveOne(x).ep.resets == x.ep.resets
    ensures OneBitLater(x, DriveOne(x))
  {
    CompletedSlot(x.ep);
  }

  lemma DriveArrives(x: Station, y: Station, z: Station)
    requires LastLevels(y.seen, x.air) == x.line && x.todo != [] && OneBitLater(x, z)
    ensures LastLevels(y.seen, z.air) == z.line
    ensures var t := FeedBit(Arriving(x, y).state, x.todo[0]);
            Arriving(z, y) == Decoded(t.state, Arriving(x, y).chars + t.chars)
  {
    SampledGrows(y.seen, x.air, z.line);
    PushOneMore(y.dec, Sampled(y.seen, x.air), x.todo[0]);
  }

  lemma DriveInStep(x: Station, z: Station, d: Decoder)
    requires InStep(x, d) && x.ep.slot.Driving? && x.todo != [] && OneBitLater(x, z)
    ensures var t := FeedBit(d, x.todo[0]);
            && InStep(z, t.state)
            && AllClean(t.chars)
            && Lines(t.chars) == if |x.todo| == 1 then [x.ep.slot.ch] else []
  {
    OnlyTheLastBitProduces(d, x.todo);
  }

  lemma LinesSplit(a: seq<Character>, b: seq<Character>)
    ensures Lines(a + b) == Lines(a) + Lines(b)
    ensures AllClean(a) && AllClean(b) ==> AllClean(a + b)
  {
  }

  /** Driving a bit keeps the lane, and the character arrives with its last bit. */
  lemma DriveLane(x: Station, y: Station)
    requires LaneOk(x, y) && x.todo != [] && x.ep.slot.Driving?
    requires DriveOne(x).ep.resets == x.ep.resets
    ensures LaneOk(DriveOne(x), y)
    ensures NodeOf(DriveOne(x), y).out
            == NodeOf(x, y).out + if |x.todo| == 1 then [x.ep.slot.ch] else []
  {
    DriveLater(x);
    DriveLaneLater(x, y, DriveOne(x));
  }

  lemma DriveLaneLater(x: Station, y: Station, z: Station)
    requires LaneOk(x, y) && x.todo != [] && x.ep.slot.Driving? && OneBitLater(x, z)
    ensures LaneOk(z, y)
    ensures Lines(Arriving(z, y).chars)
            == Lines(Arriving(x, y).chars) + if |x.todo| == 1 then [x.ep.slot.ch] else []
  {
    var arriving := Arriving(x, y);
    DriveArrives(x, y, z);
    DriveInStep(x, z, arriving.state);
    LinesSplit(arriving.chars, FeedBit(arriving.state, x.todo[0]).chars);
  }

  lemma CompletedSlot(e: Endpoint)
    requires e.slot.Driving?
    ensures Complete(e).slot.Idle?
  {
  }

  /** The bits the receiver `x` still has to take off the lane of `y` after one sample. */
  lemma SampleSplits(y: Station, x: Station)
    requires y.air != []
    ensures var l := y.air[0];
            var rest := Sampled(l, y.air[1..]);
            if l == x.seen then Arriving(y, x) == Push(x.dec, rest)
            else
              var t := FeedBit(x.dec, l.d);
              Arriving(y, x) == Decoded(Push(t.state, rest).state, t.chars + Push(t.state, rest).chars)
  {
    var l := y.air[0];
    var rest := Sampled(l, y.air[1..]);
    if l == x.seen {
      assert [] + rest == rest;
    } else {
      assert ([l.d] + rest)[1..] == rest;
    }
  }

  /** Sampling keeps the lane, and a character taken off it is the first to arrive. */
  lemma SampleLane(y: Station, x: Station)
    requires LaneOk(y, x) && y.air != []
    requires SampleOne(x, y.air[0]).ep.resets == x.ep.resets
    ensures LaneOk(y.(air := y.air[1..]), SampleOne(x, y.air[0]))
    ensures NodeOf(y.(air := y.air[1..]), SampleOne(x, y.air[0])).out
            == NodeOf(y, x).out[if Shadow(x, y, SampleBit).None? then 0 else 1..]
  {
    SampleParts(x, y.air[0]);
    SampleLaneLater(y, x, y.(air := y.air[1..]), SampleOne(x, y.air[0]));
  }

  lemma SampleParts(x: Station, l: Levels)
    requires SampleOne(x, l).ep.resets == x.ep.resets
    ensures SampleOne(x, l).seen == l
    ensures SampleOne(x, l).dec == if l == x.seen then x.dec else FeedBit(x.dec, l.d).state
  {
  }

  lemma SampleLaneLater(y: Station, x: Station, u: Station, z: Station)
    requires LaneOk(y, x) && y.air != [] && u == y.(air := y.air[1..])
    requires z.seen == y.air[0]
    requires z.dec == if z.seen == x.seen then x.dec else FeedBit(x.dec, z.seen.d).state
    ensures LaneOk(u, z)
    ensures Lines(Arriving(u, z).chars)
            == Lines(Arriving(y, x).chars)[if Shadow(x, y, SampleBit).None? then 0 else 1..]
  {
    SampleSplits(y, x);
    if z.seen != x.seen {
      var t := FeedBit(x.dec, z.seen.d);
      FeedProducesAtMostOne(x.dec, z.seen.d);
      CleanRest(t.chars, Arriving(u, z).chars);
    }
  }

  lemma CleanRest(a: seq<Character>, b: seq<Character>)
    requires AllClean(a + b)
    ensures AllClean(b) && Lines(b) == Lines(a + b)[|a|..]
  {
    forall i | 0 <= i < |b| ensures Clean(b[i]) { assert b[i] == (a + b)[|a| + i]; }
  }

  /** What a sample does to the receiving endpoint is what the delivery of the first
      arriving character does, or nothing. */
  lemma SampleIsDelivery(x: Station, y: Station)
    requires LaneOk(y, x) && y.air != []
    ensures Shadow(x, y, SampleBit).None? ==> SampleOne(x, y.air[0]).ep == x.ep
    ensures Shadow(x, y, SampleBit).Some? ==>
              && NodeOf(y, x).out != []
              && SampleOne(x, y.air[0]).ep == Dispatch(x.ep, HeardAs(NodeOf(y, x).out[0]))
  {
    SampleSplits(y, x);
    var l := y.air[0];
    if l != x.seen {
      var t := FeedBit(x.dec, l.d);
      if t.chars != [] {
        assert Arriving(y, x).chars[0] == t.chars[0];
      }
    }
  }
}
