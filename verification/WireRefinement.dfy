/**
 The bit-level link refines the character-level pair: until the first reset each of its
 steps is one step of the pair or none, and each step of the pair can be played by it.
 The results about the pair therefore hold of packets sent over the wire.
 */
module WireRefinement {
  import opened Wrappers
  import opened Bits
  import opened LinkFsm
  import opened Packets
  import opened Endpoints
  import opened LinkPair
  import opened LinkSafety
  import opened LinkReach
  import opened Characters
  import opened DataStrobe
  import opened SpaceWireLinks
  import opened Wire

  // ----- one step --------------------------------------------------------------------------

  predicate BothLanesOk(x: Station, y: Station) {
    LaneOk(x, y) && LaneOk(y, x)
  }

  /** What a step does to the acting endpoint, resets included. */
  predicate EndpointFollows(x: Station, y: Station, act: WireAct)
    requires CanAct(x, y, act)
  {
    match Shadow(x, y, act)
    case None => Acting(x, y, act).ep == x.ep
    case Some(a) =>
      && Enabled(NodeOf(x, y), NodeOf(y, x), a)
      && Acting(x, y, act).ep == Actor(NodeOf(x, y), NodeOf(y, x), a).ep
  }

  lemma DriveEndpoint(x: Station, y: Station)
    requires CanAct(x, y, DriveBit)
    ensures EndpointFollows(x, y, DriveBit)
  {
  }

  lemma QueueEndpoint(x: Station, y: Station, act: WireAct)
    requires CanAct(x, y, act) && (act.PickChar? || act.TakeChar? || act.SendChars?)
    ensures EndpointFollows(x, y, act)
  {
  }

  lemma StepFollows(x: Station, y: Station, act: WireAct)
    requires BothLanesOk(x, y) && CanAct(x, y, act)
    ensures EndpointFollows(x, y, act)
  {
    match act
    case PickChar => QueueEndpoint(x, y, act);
    case DriveBit => DriveEndpoint(x, y);
    case SampleBit => SampleIsDelivery(x, y);
    case TakeChar => QueueEndpoint(x, y, act);
    case SendChars(ns) => QueueEndpoint(x, y, act);
    case Outside(ev) => OutsideParts(x, y, ev, FeedFsm(x.ep, ev));
  }

  /** What a step without a reset does to both nodes of the pair. */
  predicate NodesFollow(x: Station, y: Station, act: WireAct)
    requires CanAct(x, y, act)
  {
    var z, u := Acting(x, y, act), Passive(x, y, act);
    match Shadow(x, y, act)
    case None => NodeOf(z, u) == NodeOf(x, y) && NodeOf(u, z) == NodeOf(y, x)
    case Some(a) =>
      && Enabled(NodeOf(x, y), NodeOf(y, x), a)
      && NodeOf(z, u) == Actor(NodeOf(x, y), NodeOf(y, x), a)
      && NodeOf(u, z) == Other(NodeOf(x, y), NodeOf(y, x), a)
  }

  /** A change of the endpoint alone, with the slot as it was, disturbs neither lane. */
  lemma LanesUndisturbed(x: Station, y: Station, z: Station)
    requires BothLanesOk(x, y)
    requires z == x.(ep := z.ep, queued := z.queued, taken := z.taken) && z.ep.slot == x.ep.slot
    ensures BothLanesOk(z, y)
    ensures NodeOf(z, y) == NodeOf(x, y).(ep := z.ep, queued := z.queued, taken := z.taken)
    ensures NodeOf(y, z) == NodeOf(y, x)
  {
    assert Arriving(z, y) == Arriving(x, y) && Arriving(y, z) == Arriving(y, x);
  }

  lemma FeedKeepsSlot(e: Endpoint, ev: Event)
    ensures FeedFsm(e, ev).slot == e.slot && e.resets <= FeedFsm(e, ev).resets
  {
  }

  lemma DispatchKeepsSlot(e: Endpoint, h: Heard)
    ensures Dispatch(e, h).slot == e.slot && e.resets <= Dispatch(e, h).resets
  {
  }

  lemma PickFollows(x: Station, y: Station)
    requires BothLanesOk(x, y) && CanPick(x.ep)
    ensures BothLanesOk(PickBits(x), y) && NodesFollow(x, y, PickChar)
  {
    var z := PickBits(x);
    PickedInStep(x, Arriving(x, y).state);
    assert Arriving(z, y) == Arriving(x, y) && Arriving(y, z) == Arriving(y, x);
  }

  lemma DriveFollows(x: Station, y: Station)
    requires BothLanesOk(x, y) && CanAct(x, y, DriveBit) && DriveOne(x).ep.resets == x.ep.resets
    ensures BothLanesOk(DriveOne(x), y) && NodesFollow(x, y, DriveBit)
  {
    var z := DriveOne(x);
    DriveLane(x, y);
    assert Arriving(y, z) == Arriving(y, x);
    assert NodeOf(x, y).out + [] == NodeOf(x, y).out;
  }

  lemma SampleFollows(x: Station, y: Station)
    requires BothLanesOk(x, y) && y.air != [] && SampleOne(x, y.air[0]).ep.resets == x.ep.resets
    ensures BothLanesOk(SampleOne(x, y.air[0]), y.(air := y.air[1..])) && NodesFollow(x, y, SampleBit)
  {
    var z, u := SampleOne(x, y.air[0]), y.(air := y.air[1..]);
    SampleLane(y, x);
    SampleIsDelivery(x, y);
    SampleKeepsSender(x, y.air[0]);
    assert Arriving(z, u) == Arriving(x, y);
  }

  lemma SampleKeepsSender(x: Station, l: Levels)
    requires SampleOne(x, l).ep.resets == x.ep.resets
    ensures var z := SampleOne(x, l);
            z == x.(ep := z.ep, dec := z.dec, seen := z.seen) && z.ep.slot == x.ep.slot
  {
    if l != x.seen {
      var cs := FeedBit(x.dec, l.d).chars;
      if cs != [] {
        match Classify(cs[0])
        case None =>
        case Some(h) => DispatchKeepsSlot(x.ep, h);
      }
    }
  }

  /** An outside event that turns the endpoint into `e`, whatever `e` is. */
  lemma OutsideParts(x: Station, y: Station, ev: Event, e: Endpoint)
    requires IsExternal(ev) && e == FeedFsm(x.ep, ev)
    ensures Shadow(x, y, Outside(ev)) == Some(ExternalAct(ev))
    ensures Acting(x, y, Outside(ev)) == Became(x, e) && Passive(x, y, Outside(ev)) == y
    ensures Actor(NodeOf(x, y), NodeOf(y, x), ExternalAct(ev)) == NodeOf(x, y).(ep := e)
    ensures Other(NodeOf(x, y), NodeOf(y, x), ExternalAct(ev)) == NodeOf(y, x)
  {
  }

  lemma OutsideFollows(x: Station, y: Station, ev: Event, e: Endpoint)
    requires BothLanesOk(x, y) && IsExternal(ev) && e == FeedFsm(x.ep, ev) && e.resets == x.ep.resets
    ensures BothLanesOk(Became(x, e), y) && NodesFollow(x, y, Outside(ev))
  {
    FeedKeepsSlot(x.ep, ev);
    OutsideParts(x, y, ev, e);
    LanesUndisturbed(x, y, Became(x, e));
  }

  /** A step without a reset keeps both lanes and is one step of the pair or none. */
  lemma StepRefines(x: Station, y: Station, act: WireAct)
    requires BothLanesOk(x, y) && CanAct(x, y, act)
    requires Acting(x, y, act).ep.resets == x.ep.resets
    ensures BothLanesOk(Acting(x, y, act), Passive(x, y, act)) && NodesFollow(x, y, act)
  {
    match act
    case PickChar => PickFollows(x, y);
    case DriveBit => DriveFollows(x, y);
    case SampleBit => SampleFollows(x, y);
    case TakeChar => LanesUndisturbed(x, y, Acting(x, y, act));
    case SendChars(ns) => LanesUndisturbed(x, y, Acting(x, y, act));
    case Outside(ev) => OutsideFollows(x, y, ev, FeedFsm(x.ep, ev));
  }

  // ----- one step of the link ----------------------------------------------------------------

  function WireShadow(w: Link, side: Side, act: WireAct): Option<Act> {
    match side
    case A => if CanAct(w.a, w.b, act) then Shadow(w.a, w.b, act) else None
    case B => if CanAct(w.b, w.a, act) then Shadow(w.b, w.a, act) else None
  }

  /** The pair after the shadow of a wire step. */
  function Shadowed(w: Link, side: Side, act: WireAct): Pair {
    match WireShadow(w, side, act)
    case None => PairOf(w)
    case Some(a) => Step(PairOf(w), side, a)
  }

  /** Main result, one step: a wire step resets an endpoint exactly when its shadow does, and
      otherwise the link it leads to is seen as the pair its shadow leads to. */
  lemma WireStepIsPairStep(w: Link, side: Side, act: WireAct)
    requires WireOk(w) && Unbroken(w)
    ensures Unbroken(WireStep(w, side, act)) <==> NeverReset(Shadowed(w, side, act))
    ensures Unbroken(WireStep(w, side, act)) ==>
              && WireOk(WireStep(w, side, act))
              && PairOf(WireStep(w, side, act)) == Shadowed(w, side, act)
  {
    match side
    case A => if CanAct(w.a, w.b, act) { StepOfA(w, act); }
    case B => if CanAct(w.b, w.a, act) { StepOfB(w, act); }
  }

  lemma StepOfA(w: Link, act: WireAct)
    requires WireOk(w) && Unbroken(w) && CanAct(w.a, w.b, act)
    ensures Unbroken(WireStep(w, A, act)) <==> NeverReset(Shadowed(w, A, act))
    ensures Unbroken(WireStep(w, A, act)) ==>
              WireOk(WireStep(w, A, act)) && PairOf(WireStep(w, A, act)) == Shadowed(w, A, act)
  {
    StepFollows(w.a, w.b, act);
    if Acting(w.a, w.b, act).ep.resets == w.a.ep.resets {
      StepRefines(w.a, w.b, act);
    }
  }

  lemma StepOfB(w: Link, act: WireAct)
    requires WireOk(w) && Unbroken(w) && CanAct(w.b, w.a, act)
    ensures Unbroken(WireStep(w, B, act)) <==> NeverReset(Shadowed(w, B, act))
    ensures Unbroken(WireStep(w, B, act)) ==>
              WireOk(WireStep(w, B, act)) && PairOf(WireStep(w, B, act)) == Shadowed(w, B, act)
  {
    StepFollows(w.b, w.a, act);
    if Acting(w.b, w.a, act).ep.resets == w.b.ep.resets {
      StepRefines(w.b, w.a, act);
    }
  }

  // ----- runs ----------------------------------------------------------------------------------

  function PowerOnLink(a: Config, maxA: nat, b: Config, maxB: nat): Link {
    Link(NewStation(a, maxA), NewStation(b, maxB))
  }

  lemma PowerOnIsPowerUp(a: Config, maxA: nat, b: Config, maxB: nat)
    ensures WireOk(PowerOnLink(a, maxA, b, maxB)) && Unbroken(PowerOnLink(a, maxA, b, maxB))
    ensures PairOf(PowerOnLink(a, maxA, b, maxB)) == PowerUp(a, maxA, b, maxB)
  {
  }

  /** The states of two sanely configured links after any interleaving of bit-level steps. */
  ghost predicate OverWire(w: Link) {
    exists a, maxA, b, maxB, steps ::
      SaneCap(a, maxA) && SaneCap(b, maxB) && w == WirePlay(PowerOnLink(a, maxA, b, maxB), steps)
  }

  lemma CompleteCountsUp(e: Endpoint)
    requires e.slot.Driving?
    ensures e.resets <= Complete(e).resets
  {
    match e.slot.ch
    case Null => FeedKeepsSlot(e.(slot := Idle), SentNull);
    case Fct => FeedKeepsSlot(e.(slot := Idle), SentFct);
    case Normal(_) =>
  }

  lemma DriveCountsUp(x: Station)
    requires x.todo != [] && x.ep.slot.Driving?
    ensures x.ep.resets <= DriveOne(x).ep.resets
  {
    CompleteCountsUp(x.ep);
  }

  lemma SampleCountsUp(x: Station, l: Levels)
    ensures x.ep.resets <= SampleOne(x, l).ep.resets
  {
    if l != x.seen {
      var cs := FeedBit(x.dec, l.d).chars;
      if cs != [] {
        match Classify(cs[0])
        case None =>
        case Some(h) => DispatchKeepsSlot(x.ep, h);
      }
    }
  }

  lemma EndpointResetsCountUp(x: Station, y: Station, act: WireAct)
    requires CanAct(x, y, act)
    ensures x.ep.resets <= Acting(x, y, act).ep.resets
  {
    match act
    case PickChar =>
    case DriveBit => DriveCountsUp(x);
    case SampleBit => SampleCountsUp(x, y.air[0]);
    case TakeChar =>
    case SendChars(_) =>
    case Outside(ev) => FeedKeepsSlot(x.ep, ev);
  }

  lemma {:induction false} UnbrokenBefore(w: Link, steps: seq<(Side, WireAct)>)
    requires Unbroken(WirePlay(w, steps))
    ensures Unbroken(w)
    decreases |steps|
  {
    if steps != [] {
      var (side, act) := steps[0];
      UnbrokenBefore(WireStep(w, side, act), steps[1..]);
      if CanAct(w.a, w.b, act) { EndpointResetsCountUp(w.a, w.b, act); }
      if CanAct(w.b, w.a, act) { EndpointResetsCountUp(w.b, w.a, act); }
    }
  }

  lemma {:induction false} WireRunIsPairRun(w: Link, steps: seq<(Side, WireAct)>) returns (s: seq<(Side, Act)>)
    requires WireOk(w) && Unbroken(WirePlay(w, steps))
    ensures WireOk(WirePlay(w, steps)) && PairOf(WirePlay(w, steps)) == Play(PairOf(w), s)
    ensures |s| <= |steps|
    decreases |steps|
  {
    s := [];
    if steps != [] {
      var (side, act) := steps[0];
      UnbrokenBefore(w, steps);
      UnbrokenBefore(WireStep(w, side, act), steps[1..]);
      WireStepIsPairStep(w, side, act);
      s := WireRunIsPairRun(WireStep(w, side, act), steps[1..]);
      match WireShadow(w, side, act) {
        case None =>
        case Some(a) =>
          assert ([(side, a)] + s)[1..] == s;
          s := [(side, a)] + s;
      }
    }
  }

  /** Main result: up to its first reset every run over the wire is a run of the pair. */
  lemma WireRefinesPair(w: Link)
    requires OverWire(w) && Unbroken(w)
    ensures WireOk(w) && Reachable(PairOf(w)) && NeverReset(PairOf(w))
  {
    var a, maxA, b, maxB, steps :|
      SaneCap(a, maxA) && SaneCap(b, maxB) && w == WirePlay(PowerOnLink(a, maxA, b, maxB), steps);
    PowerOnIsPowerUp(a, maxA, b, maxB);
    var s := WireRunIsPairRun(PowerOnLink(a, maxA, b, maxB), steps);
    assert PairOf(w) == Play(PowerUp(a, maxA, b, maxB), s);
  }

  // ----- what follows for the wire ----------------------------------------------------------------

  /** Main result: with real characters, codecs and line levels between the ends, the first
      reset still happens exactly at a line error, such as one of the disconnect watchdog, a
      timeout or a disable command, in the states where these are errors. */
  lemma FirstWireResetComesFromOutside(w: Link, side: Side, act: WireAct)
    requires OverWire(w) && Unbroken(w)
    ensures !Unbroken(WireStep(w, side, act)) <==>
              act.Outside? && IsExternal(act.ev) && Resets(Mine(w, side).ep.fsm.state, act.ev)
  {
    WireRefinesPair(w);
    WireStepIsPairStep(w, side, act);
    ShadowOfOutside(w, side, act);
    match WireShadow(w, side, act)
    case None =>
    case Some(a) => FirstResetComesFromOutside(PairOf(w), side, a);
  }

  /** An outside event is its own shadow, and nothing else has one as its shadow. */
  lemma ShadowOfOutside(w: Link, side: Side, act: WireAct)
    ensures StateAt(PairOf(w), side) == Mine(w, side).ep.fsm.state
    ensures act.Outside? && IsExternal(act.ev) ==> WireShadow(w, side, act) == Some(ExternalAct(act.ev))
    ensures WireShadow(w, side, act).Some? && WireShadow(w, side, act).value.ExternalAct? ==>
              act.Outside? && IsExternal(act.ev) && WireShadow(w, side, act).value.ev == act.ev
  {
  }

  lemma ReaderSeesPrefix(x: Node, y: Node, ps: seq<Packet>)
    requires Transported(x, y) && x.queued == SerializeAll(ps)
    ensures ReadAll(NEW_READER, y.taken).done <= ps
    ensures y.taken == x.queued ==> ReadAll(NEW_READER, y.taken) == Reader(ps, [])
  {
    assert y.taken <= x.queued;
    ReadPrefix(ps, y.taken);
  }

  /** Main result, end to end: whatever interleaving of NULLs, FCTs and bits carries them,
      the packets received at one end are, in order and with their terminators, the first
      of the packets sent at the other, and all of them once everything is taken. */
  lemma PacketsArriveInOrder(w: Link, fromA: seq<Packet>, fromB: seq<Packet>)
    requires OverWire(w) && Unbroken(w)
    requires w.a.queued == SerializeAll(fromA) && w.b.queued == SerializeAll(fromB)
    ensures ReadAll(NEW_READER, w.b.taken).done <= fromA && ReadAll(NEW_READER, w.a.taken).done <= fromB
    ensures w.b.taken == w.a.queued ==> ReadAll(NEW_READER, w.b.taken) == Reader(fromA, [])
    ensures w.a.taken == w.b.queued ==> ReadAll(NEW_READER, w.a.taken) == Reader(fromB, [])
  {
    WireRefinesPair(w);
    var p := PairOf(w);
    ReachableIsJoined(p);
    ReaderSeesPrefix(p.a, p.b, fromA);
    ReaderSeesPrefix(p.b, p.a, fromB);
  }

  // ----- playing a run of the pair over the wire ----------------------------------------------------

  function Mine(w: Link, side: Side): Station {
    if side.A? then w.a else w.b
  }

  function Theirs(w: Link, side: Side): Station {
    if side.A? then w.b else w.a
  }

  /** `steps` play the pair step `act` from `w`. */
  ghost predicate Plays(w: Link, steps: seq<(Side, WireAct)>, q: Pair) {
    var v := WirePlay(w, steps);
    WireOk(v) && Unbroken(v) && PairOf(v) == q
  }

  /** Steps of the link engines and the readers only. */
  predicate EnginesOnly(steps: seq<(Side, WireAct)>) {
    forall i :: 0 <= i < |steps| ==> !steps[i].1.Outside? && !steps[i].1.SendChars?
  }

  lemma PlayedByOne(w: Link, side: Side, act: WireAct) returns (steps: seq<(Side, WireAct)>)
    requires WireOk(w) && Unbroken(w) && NeverReset(Shadowed(w, side, act))
    ensures Plays(w, steps, Shadowed(w, side, act)) && steps == [(side, act)]
  {
    WireStepIsPairStep(w, side, act);
    steps := [(side, act)];
    var v := WireStep(w, side, act);
    assert WirePlay(v, []) == v;
  }

  lemma PlaysLater(w: Link, side: Side, act: WireAct, steps: seq<(Side, WireAct)>, q: Pair)
    requires Plays(WireStep(w, side, act), steps, q)
    ensures Plays(w, [(side, act)] + steps, q)
    ensures EnginesOnly(steps) && !act.Outside? && !act.SendChars? ==> EnginesOnly([(side, act)] + steps)
  {
    assert ([(side, act)] + steps)[1..] == steps;
  }

  /** A bit that is not the last one changes nothing that the pair sees. */
  lemma DriveStutters(w: Link, side: Side)
    requires WireOk(w) && Unbroken(w) && Mine(w, side).ep.slot.Driving? && |Mine(w, side).todo| != 1
    ensures var v := WireStep(w, side, DriveBit);
            && WireOk(v) && Unbroken(v) && PairOf(v) == PairOf(w)
            && |Mine(v, side).todo| < |Mine(w, side).todo| && Mine(v, side).ep.slot.Driving?
  {
    BusyHasBits(Mine(w, side), Arriving(Mine(w, side), Theirs(w, side)).state);
    WireStepIsPairStep(w, side, DriveBit);
    DriveShortens(Mine(w, side));
  }

  lemma LastBitCompletes(w: Link, side: Side)
    requires Mine(w, side).ep.slot.Driving? && |Mine(w, side).todo| == 1
    ensures Shadowed(w, side, DriveBit) == Step(PairOf(w), side, CompleteAct)
  {
  }

  /** Driving all the bits left of a character completes it. */
  lemma {:induction false} CompletePlayed(w: Link, side: Side, q: Pair) returns (steps: seq<(Side, WireAct)>)
    requires WireOk(w) && Unbroken(w) && Mine(w, side).ep.slot.Driving?
    requires q == Step(PairOf(w), side, CompleteAct) && NeverReset(q)
    ensures Plays(w, steps, q) && EnginesOnly(steps)
    decreases |Mine(w, side).todo|
  {
    if |Mine(w, side).todo| == 1 {
      LastBitCompletes(w, side);
      steps := PlayedByOne(w, side, DriveBit);
    } else {
      DriveStutters(w, side);
      steps := CompletePlayed(WireStep(w, side, DriveBit), side, q);
      PlaysLater(w, side, DriveBit, steps, q);
      steps := [(side, DriveBit)] + steps;
    }
  }

  lemma BusyHasBits(x: Station, d: Decoder)
    requires InStep(x, d) && x.ep.slot.Driving?
    ensures x.todo != []
  {
  }

  lemma DriveShortens(x: Station)
    requires |x.todo| > 1 && x.ep.slot.Driving?
    ensures |DriveOne(x).todo| < |x.todo| && DriveOne(x).ep == x.ep
  {
  }

  /** A sample that completes no character changes nothing that the pair sees. */
  lemma SampleStutters(w: Link, side: Side)
    requires WireOk(w) && Unbroken(w) && Theirs(w, side).air != [] && WireShadow(w, side, SampleBit).None?
    ensures var v := WireStep(w, side, SampleBit);
            && WireOk(v) && Unbroken(v) && PairOf(v) == PairOf(w)
            && |Theirs(v, side).air| < |Theirs(w, side).air|
  {
    WireStepIsPairStep(w, side, SampleBit);
  }

  lemma SampleDelivers(w: Link, side: Side)
    requires WireShadow(w, side, SampleBit).Some?
    ensures Shadowed(w, side, SampleBit) == Step(PairOf(w), side, DeliverAct)
  {
  }

  /** Sampling until a character comes out delivers the first one on its way. */
  lemma {:induction false} DeliverPlayed(w: Link, side: Side, q: Pair) returns (steps: seq<(Side, WireAct)>)
    requires WireOk(w) && Unbroken(w) && Arriving(Theirs(w, side), Mine(w, side)).chars != []
    requires q == Step(PairOf(w), side, DeliverAct) && NeverReset(q)
    ensures Plays(w, steps, q) && EnginesOnly(steps)
    decreases |Theirs(w, side).air|
  {
    ArrivalNeedsAir(Theirs(w, side), Mine(w, side));
    if WireShadow(w, side, SampleBit).Some? {
      SampleDelivers(w, side);
      steps := PlayedByOne(w, side, SampleBit);
    } else {
      SampleStutters(w, side);
      var v := WireStep(w, side, SampleBit);
      SameArrivals(w, v, side);
      steps := DeliverPlayed(v, side, q);
      PlaysLater(w, side, SampleBit, steps, q);
      steps := [(side, SampleBit)] + steps;
    }
  }

  lemma ArrivalNeedsAir(y: Station, x: Station)
    requires Arriving(y, x).chars != []
    ensures y.air != []
  {
  }

  lemma SameArrivals(w: Link, v: Link, side: Side)
    requires PairOf(v) == PairOf(w)
    ensures |Arriving(Theirs(v, side), Mine(v, side)).chars| == |Arriving(Theirs(w, side), Mine(w, side)).chars|
  {
    assert |PairOf(v).a.out| == |PairOf(w).a.out| && |PairOf(v).b.out| == |PairOf(w).b.out|;
  }

  lemma DirectStep(w: Link, side: Side, act: WireAct)
    requires !act.DriveBit? && !act.SampleBit?
    ensures Shadowed(w, side, act) == Step(PairOf(w), side, Directly(act))
  {
    match side
    case A => if CanAct(w.a, w.b, act) { DirectShadow(w.a, w.b, act); }
    case B => if CanAct(w.b, w.a, act) { DirectShadow(w.b, w.a, act); }
  }

  /** The step of the pair that a step other than of a single bit amounts to. */
  function Directly(act: WireAct): Act
    requires !act.DriveBit? && !act.SampleBit?
  {
    match act
    case PickChar => PickAct
    case TakeChar => TakeAct
    case SendChars(ns) => SendAct(ns)
    case Outside(ev) => ExternalAct(ev)
  }

  lemma DirectShadow(x: Station, y: Station, act: WireAct)
    requires !act.DriveBit? && !act.SampleBit? && CanAct(x, y, act)
    ensures Shadow(x, y, act) == Some(Directly(act))
  {
  }

  lemma PlayedDirectly(w: Link, side: Side, act: WireAct) returns (steps: seq<(Side, WireAct)>)
    requires !act.DriveBit? && !act.SampleBit?
    requires WireOk(w) && Unbroken(w) && NeverReset(Step(PairOf(w), side, Directly(act)))
    ensures Plays(w, steps, Step(PairOf(w), side, Directly(act)))
    ensures EngineStep(Directly(act)) ==> EnginesOnly(steps)
  {
    DirectStep(w, side, act);
    steps := PlayedByOne(w, side, act);
  }

  lemma CompletionPlayed(w: Link, side: Side) returns (steps: seq<(Side, WireAct)>)
    requires WireOk(w) && Unbroken(w) && NeverReset(Step(PairOf(w), side, CompleteAct))
    ensures Plays(w, steps, Step(PairOf(w), side, CompleteAct)) && EnginesOnly(steps)
  {
    if Mine(w, side).ep.slot.Driving? {
      steps := CompletePlayed(w, side, Step(PairOf(w), side, CompleteAct));
    } else {
      steps := [];
    }
  }

  lemma DeliveryPlayed(w: Link, side: Side) returns (steps: seq<(Side, WireAct)>)
    requires WireOk(w) && Unbroken(w) && NeverReset(Step(PairOf(w), side, DeliverAct))
    ensures Plays(w, steps, Step(PairOf(w), side, DeliverAct)) && EnginesOnly(steps)
  {
    if Arriving(Theirs(w, side), Mine(w, side)).chars != [] {
      steps := DeliverPlayed(w, side, Step(PairOf(w), side, DeliverAct));
    } else {
      steps := [];
    }
  }

  /** The wire step that is such a step of the pair. */
  function DirectlyPlayed(act: Act): (w: WireAct)
    requires !act.CompleteAct? && !act.DeliverAct?
    ensures !w.DriveBit? && !w.SampleBit? && Directly(w) == act
  {
    match act
    case PickAct => PickChar
    case TakeAct => TakeChar
    case SendAct(ns) => SendChars(ns)
    case ExternalAct(ev) => Outside(ev)
  }

  /** A step of the pair that resets nothing can be played over the wire. */
  lemma StepPlayed(w: Link, side: Side, act: Act) returns (steps: seq<(Side, WireAct)>)
    requires WireOk(w) && Unbroken(w) && NeverReset(Step(PairOf(w), side, act))
    ensures Plays(w, steps, Step(PairOf(w), side, act))
    ensures EngineStep(act) ==> EnginesOnly(steps)
  {
    if act.CompleteAct? {
      steps := CompletionPlayed(w, side);
    } else if act.DeliverAct? {
      steps := DeliveryPlayed(w, side);
    } else {
      steps := PlayedDirectly(w, side, DirectlyPlayed(act));
    }
  }

  lemma {:induction false} WirePlaySplits(w: Link, s: seq<(Side, WireAct)>, t: seq<(Side, WireAct)>)
    ensures WirePlay(w, s + t) == WirePlay(WirePlay(w, s), t)
    decreases |s|
  {
    if s == [] {
      assert s + t == t;
    } else {
      assert (s + t)[1..] == s[1..] + t;
      WirePlaySplits(WireStep(w, s[0].0, s[0].1), s[1..], t);
    }
  }

  /** Main result, the converse of refinement: every run of the pair without a reset can be
      played over the wire, bit by bit. */
  lemma {:induction false} RunPlayed(w: Link, run: seq<(Side, Act)>) returns (steps: seq<(Side, WireAct)>)
    requires WireOk(w) && Unbroken(w) && NeverReset(Play(PairOf(w), run))
    ensures Plays(w, steps, Play(PairOf(w), run))
    ensures (forall i :: 0 <= i < |run| ==> EngineStep(run[i].1)) ==> EnginesOnly(steps)
    decreases |run|
  {
    steps := [];
    if run != [] {
      var (side, act) := run[0];
      NeverResetBefore(Step(PairOf(w), side, act), run[1..]);
      var first := StepPlayed(w, side, act);
      var v := WirePlay(w, first);
      var rest := RunPlayed(v, run[1..]);
      WirePlaySplits(w, first, rest);
      steps := first + rest;
    }
  }

  lemma PairRunsOverWire(q: Pair)
    requires Reachable(q) && NeverReset(q)
    ensures exists w :: OverWire(w) && Unbroken(w) && PairOf(w) == q
  {
    var a, maxA, b, maxB, run :|
      SaneCap(a, maxA) && SaneCap(b, maxB) && q == Play(PowerUp(a, maxA, b, maxB), run);
    PowerOnIsPowerUp(a, maxA, b, maxB);
    var w := PowerOnLink(a, maxA, b, maxB);
    var steps := RunPlayed(w, run);
    assert OverWire(WirePlay(w, steps));
  }

  /** Steps of the engines and readers alone reset nothing. */
  lemma {:induction false} EnginesResetNothing(p: Pair, run: seq<(Side, Act)>)
    requires Reachable(p) && NeverReset(p)
    requires forall i :: 0 <= i < |run| ==> EngineStep(run[i].1)
    ensures NeverReset(Play(p, run))
    decreases |run|
  {
    if run != [] {
      var (side, act) := run[0];
      assert EngineStep(run[0].1);
      if !NeverReset(Step(p, side, act)) {
        FirstResetComesFromOutside(p, side, act);
      }
      ReachableStep(p, side, act);
      EnginesResetNothing(Step(p, side, act), run[1..]);
    }
  }

  /** Main result: from every state over the wire in which both ends run, there are bit-level
      steps of the engines and readers alone after which every packet sent has been received at the other end. */
  lemma EveryPacketCanArrive(w: Link, fromA: seq<Packet>, fromB: seq<Packet>)
    requires OverWire(w) && Unbroken(w) && w.a.ep.fsm.state.Run? && w.b.ep.fsm.state.Run?
    requires w.a.queued == SerializeAll(fromA) && w.b.queued == SerializeAll(fromB)
    ensures exists steps :: var v := WirePlay(w, steps);
              && EnginesOnly(steps) && Unbroken(v)
              && ReadAll(NEW_READER, v.b.taken) == Reader(fromA, [])
              && ReadAll(NEW_READER, v.a.taken) == Reader(fromB, [])
  {
    WireRefinesPair(w);
    var p := PairOf(w);
    NoDeadlock(p);
    var q :| Leads(p, q) && q.b.taken == p.a.queued && q.a.taken == p.b.queued;
    var run: seq<(Side, Act)> :| q == Play(p, run) && forall i :: 0 <= i < |run| ==> EngineStep(run[i].1);
    EnginesResetNothing(p, run);
    var steps := RunPlayed(w, run);
    ReadPrefix(fromA, q.b.taken);
    ReadPrefix(fromB, q.a.taken);
    var v := WirePlay(w, steps);
    assert PairOf(v).a.taken == v.a.taken && PairOf(v).b.taken == v.b.taken;
  }

  /** Two links that may send FCTs do reach Run over the wire. */
  lemma HandshakeOverWire(a: Config, maxA: nat, b: Config, maxB: nat)
    requires SaneCap(a, maxA) && SaneCap(b, maxB) && !a.onlyNulls && !b.onlyNulls
    ensures exists w :: OverWire(w) && Unbroken(w) && w.a.ep.cfg == a && w.b.ep.cfg == b
              && w.a.ep.fsm.state.Run? && w.b.ep.fsm.state.Run?
  {
    HandshakeReachesRun(a, maxA, b, maxB);
    var q := Pair(RunningNode(a, maxA), RunningNode(b, maxB));
    PairRunsOverWire(q);
    var w :| OverWire(w) && Unbroken(w) && PairOf(w) == q;
    assert PairOf(w).a.ep == w.a.ep && PairOf(w).b.ep == w.b.ep;
  }
}
