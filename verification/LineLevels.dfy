/**
 The levels of the lines over whole runs, resets included.  The signal-level rule wants both
 lines low in ErrorReset; nothing in the program drives them there, so whether they are low
 is decided by the bits driven since power-up alone.
 */
module LineLevels {
  import opened Wrappers
  import opened Bits
  import opened LinkFsm
  import opened Packets
  import opened Endpoints
  import opened Sessions
  import opened LinkPair
  import opened Characters
  import opened CodecRoundTrip
  import opened DataStrobe
  import opened SpaceWireLinks
  import opened Wire
  import opened WireRefinement

  const LOW := Levels(0, 0)

  predicate Drives(x: Station, act: WireAct) {
    act.DriveBit? && x.todo != [] && x.ep.slot.Driving?
  }

  /** The bits that one side drives in a run. */
  function BitsDriven(w: Link, steps: seq<(Side, WireAct)>, side: Side): seq<Bit>
    decreases |steps|
  {
    if steps == [] then []
    else
      var (s, act) := steps[0];
      var x := Mine(w, side);
      (if s == side && Drives(x, act) then [x.todo[0]] else [])
      + BitsDriven(WireStep(w, s, act), steps[1..], side)
  }

  lemma ActingLine(x: Station, y: Station, act: WireAct)
    requires CanAct(x, y, act)
    ensures Acting(x, y, act).line == if Drives(x, act) then Drive(x.line, x.todo[0]) else x.line
    ensures Passive(x, y, act).line == y.line
  {
    match act
    case PickChar =>
    case DriveBit =>
    case SampleBit => SampleKeepsLine(x, y.air[0]);
    case TakeChar =>
    case SendChars(_) =>
    case Outside(_) =>
  }

  lemma SampleKeepsLine(x: Station, l: Levels)
    ensures SampleOne(x, l).line == x.line
  {
  }

  lemma StepLine(w: Link, s: Side, act: WireAct, side: Side)
    ensures Mine(WireStep(w, s, act), side).line
            == if s == side && Drives(Mine(w, side), act)
               then Drive(Mine(w, side).line, Mine(w, side).todo[0]) else Mine(w, side).line
  {
    match s
    case A => if CanAct(w.a, w.b, act) { ActingLine(w.a, w.b, act); }
    case B => if CanAct(w.b, w.a, act) { ActingLine(w.b, w.a, act); }
  }

  /** The lines of a side are the encoding of what it has driven, whatever has happened. */
  lemma {:induction false} LineOfRun(w: Link, steps: seq<(Side, WireAct)>, side: Side)
    ensures var l := Mine(w, side).line;
            Mine(WirePlay(w, steps), side).line == LastLevels(l, Line(l, BitsDriven(w, steps, side)))
    decreases |steps|
  {
    if steps != [] {
      var (s, act) := steps[0];
      var v := WireStep(w, s, act);
      var l := Mine(w, side).line;
      StepLine(w, s, act, side);
      LineOfRun(v, steps[1..], side);
      var rest := BitsDriven(v, steps[1..], side);
      if s == side && Drives(Mine(w, side), act) {
        LineOfMore(l, Mine(w, side).todo[0], rest);
      } else {
        assert [] + rest == rest;
      }
    }
  }

  lemma LineOfMore(l: Levels, bit: Bit, rest: seq<Bit>)
    ensures var m := Drive(l, bit);
            LastLevels(l, Line(l, [bit] + rest)) == LastLevels(m, Line(m, rest))
  {
    OneBitLine(l, bit);
    LineSplits(l, [bit], rest);
  }

  /** Main result: after every run, in every state and so in ErrorReset, both lines of a side
      are low if and only if it has driven nothing yet, or an even number of bits of which
      the last is 0. */
  lemma LowExactly(a: Config, maxA: nat, b: Config, maxB: nat, steps: seq<(Side, WireAct)>, side: Side)
    ensures var w := PowerOnLink(a, maxA, b, maxB);
            var bits := BitsDriven(w, steps, side);
            Mine(WirePlay(w, steps), side).line == LOW
            <==> bits == [] || (bits[|bits| - 1] == 0 && |bits| % 2 == 0)
  {
    var w := PowerOnLink(a, maxA, b, maxB);
    var bits := BitsDriven(w, steps, side);
    LineOfRun(w, steps, side);
    if bits != [] {
      ClosedForm(LOW, bits, |bits|);
    }
  }

  // ----- a run that breaks the rule --------------------------------------------------------------

  const START: seq<(Side, WireAct)> := [
    (A, Outside(LinkStart)), (A, Outside(Tick6400)), (A, Outside(Tick12800))]

  const BROKEN_NULL: seq<(Side, WireAct)> := [(A, PickChar), (A, DriveBit), (A, Outside(RxErr))]

  lemma BecameQuietly(x: Station, e: Endpoint)
    requires e.resets == x.ep.resets
    ensures Became(x, e) == x.(ep := e)
  {
  }

  /** A step of A in which B has no part. */
  lemma PlayA(x: Station, z: Station, y: Station, act: WireAct, rest: seq<(Side, WireAct)>)
    requires !act.SampleBit? && CanAct(x, y, act) && z == Acting(x, y, act)
    ensures WirePlay(Link(x, y), [(A, act)] + rest) == WirePlay(Link(z, y), rest)
  {
    assert ([(A, act)] + rest)[1..] == rest;
  }

  lemma PlayBecame(x: Station, y: Station, ev: Event, e: Endpoint, rest: seq<(Side, WireAct)>)
    requires IsExternal(ev) && e == FeedFsm(x.ep, ev)
    ensures WirePlay(Link(x, y), [(A, Outside(ev))] + rest) == WirePlay(Link(Became(x, e), y), rest)
  {
    OutsideParts(x, y, ev, e);
    PlayA(x, Became(x, e), y, Outside(ev), rest);
  }

  lemma PlayOutside(x: Station, y: Station, ev: Event, g: Fsm, rest: seq<(Side, WireAct)>)
    requires IsExternal(ev) && g == TableRow(x.ep.fsm, ev)
    requires g.state == x.ep.fsm.state || !(g.state.ErrorReset? || g.state.Connecting?)
    ensures WirePlay(Link(x, y), [(A, Outside(ev))] + rest) == WirePlay(Link(x.(ep := x.ep.(fsm := g)), y), rest)
  {
    var e := x.ep.(fsm := g);
    FedQuietly(x.ep, ev, g);
    PlayBecame(x, y, ev, e, rest);
    BecameQuietly(x, e);
  }

  /** The first bit of the first NULL is its parity bit, a 0: the strobe goes high. */
  lemma FirstNullBit(x: Station)
    requires x.enc == Encoder([], []) && CanPick(x.ep) && Chosen(x.ep).Null? && x.line == LOW
    ensures var z := PickBits(x);
            && |z.todo| == 8 && z.todo[0] == 0 && z.ep == Pick(x.ep)
            && DriveOne(z).line == Levels(0, 1) && DriveOne(z).ep == z.ep
  {
    TwoPrims(x.enc, ESC_PRIM, FCT_PRIM);
    var f, g := FrameFor(x.enc, ESC_PRIM), FrameFor(AfterPrim(x.enc, ESC_PRIM), FCT_PRIM);
    FlattenTwo(f, g);
    assert f[0] == 0 && |f| == 4 && |g| == 4;
  }

  lemma PlayStart(x: Station, y: Station, rest: seq<(Side, WireAct)>)
    requires x.ep.fsm == POWER_ON
    ensures WirePlay(Link(x, y), START + rest)
            == WirePlay(Link(x.(ep := x.ep.(fsm := At(Started, false, false, false, false, false))), y), rest)
  {
    var commanded := At(ErrorReset, false, false, false, false, false);
    var waiting := At(ErrorWait, false, false, false, false, false);
    var x1, x2 := x.(ep := x.ep.(fsm := commanded)), x.(ep := x.ep.(fsm := waiting));
    var third := [(A, Outside(Tick12800))] + rest;
    var second := [(A, Outside(Tick6400))] + third;
    PlayOutside(x, y, LinkStart, commanded, second);
    PlayOutside(x1, y, Tick6400, waiting, third);
    PlayOutside(x2, y, Tick12800, At(Started, false, false, false, false, false), rest);
    assert START + rest == [(A, Outside(LinkStart))] + second;
  }

  lemma PlayBrokenNull(x: Station, y: Station)
    requires x.enc == Encoder([], []) && x.line == LOW && x.ep.fsm.state.Started? && x.ep.slot.Idle?
    ensures var w := WirePlay(Link(x, y), BROKEN_NULL);
            w.a.ep.fsm.state == ErrorReset && w.a.ep.resets == x.ep.resets + 1 && w.a.line == Levels(0, 1)
  {
    FirstNullBit(x);
    var p := PickBits(x);
    var d := DriveOne(p);
    var e := FeedFsm(d.ep, RxErr);
    RxErrDrops(d);
    PlayA(x, p, y, PickChar, BROKEN_NULL[1..]);
    PlayA(p, d, y, DriveBit, BROKEN_NULL[2..]);
    PlayBecame(d, y, RxErr, e, []);
    assert BROKEN_NULL == [(A, PickChar)] + BROKEN_NULL[1..];
    assert BROKEN_NULL[1..] == [(A, DriveBit)] + BROKEN_NULL[2..];
    assert BROKEN_NULL[2..] == [(A, Outside(RxErr))] + [];
  }

  lemma RxErrDrops(x: Station)
    requires x.ep.fsm.state.Started?
    ensures var z := Became(x, FeedFsm(x.ep, RxErr));
            z.ep.fsm.state == ErrorReset && z.ep.resets == x.ep.resets + 1 && z.line == x.line
  {
    FeedInStarted(x.ep.fsm, RxErr);
  }

  /** A run from power-up: a line error breaks off the first NULL after one bit, and the end
      stands in ErrorReset with its strobe high. */
  lemma HighInErrorReset(a: Config, maxA: nat, b: Config, maxB: nat)
    ensures var w := WirePlay(PowerOnLink(a, maxA, b, maxB), START + BROKEN_NULL);
            w.a.ep.fsm.state == ErrorReset && w.a.ep.resets == 1 && w.a.line == Levels(0, 1)
  {
    var x, y := NewStation(a, maxA), NewStation(b, maxB);
    PlayStart(x, y, BROKEN_NULL);
    PlayBrokenNull(x.(ep := x.ep.(fsm := At(Started, false, false, false, false, false))), y);
  }
}
