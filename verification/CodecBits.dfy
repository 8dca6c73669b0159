/**
 The bits themselves: what every request, and every character of the link, puts on the line,
 and where in a character its parity checks are.
 */
module CodecBits {
  import opened Wrappers
  import opened Bits
  import opened Packets
  import opened Endpoints
  import opened Characters
  import opened CodecRoundTrip
  import opened CodecErrors
  import opened SpaceWireLinks

  /** The number of ones in the previous content, the parity bit and the flag is odd. */
  predicate OddParity(prev: seq<Bit>, p: Bit, flag: Bit) {
    (Ones(prev) + p + flag) % 2 == 1
  }

  /** The four bits of a control primitive after a content `prev`. */
  predicate IsControl(prev: seq<Bit>, bits: seq<Bit>, c0: Bit, c1: Bit) {
    |bits| == 4 && bits[1] == 1 && bits[2] == c0 && bits[3] == c1 && OddParity(prev, bits[0], 1)
  }

  const WEIGHTS: seq<nat> := [1, 2, 4, 8, 16, 32, 64, 128]

  /** The ten bits of a data primitive after a content `prev`: the byte least significant
      bit first. */
  predicate IsData(prev: seq<Bit>, bits: seq<Bit>, v: Byte) {
    && |bits| == 10 && bits[1] == 0 && OddParity(prev, bits[0], 0)
    && forall i :: 0 <= i < 8 ==> bits[2 + i] == (v / WEIGHTS[i]) % 2
  }

  /** The bits of a request: FCT 00, EOP 01, EEP 10 and ESC 11 behind a flag of 1; a data byte
      behind a flag of 0; a NULL as ESC and FCT; a code as ESC and a data byte. */
  predicate IsRequest(prev: seq<Bit>, bits: seq<Bit>, r: Request) {
    match r
    case AskFct => IsControl(prev, bits, 0, 0)
    case AskEop => IsControl(prev, bits, 0, 1)
    case AskEep => IsControl(prev, bits, 1, 0)
    case AskEsc => IsControl(prev, bits, 1, 1)
    case AskData(v) => IsData(prev, bits, v)
    case AskNull =>
      |bits| == 8 && IsControl(prev, bits[..4], 1, 1) && IsControl([1, 1], bits[4..], 0, 0)
    case AskTimeCode(v) =>
      |bits| == 14 && IsControl(prev, bits[..4], 1, 1) && IsData([1, 1], bits[4..], v)
    case AskBroadcast(v) =>
      |bits| == 14 && IsControl(prev, bits[..4], 1, 1) && IsData([1, 1], bits[4..], v)
  }

  function Halved(v: nat, i: nat): nat
    decreases i
  {
    if i == 0 then v else Halved(v / 2, i - 1)
  }

  lemma {:induction false} BitIsHalved(v: nat, n: nat, i: nat)
    requires i < n
    ensures ToBits(v, n)[i] == Halved(v, i) % 2
    decreases n
  {
    if i > 0 {
      BitIsHalved(v / 2, n - 1, i - 1);
    }
  }

  lemma {:induction false} HalvedAgain(v: nat, i: nat)
    ensures Halved(v, i + 1) == Halved(v, i) / 2
    decreases i
  {
    if i > 0 {
      HalvedAgain(v / 2, i - 1);
    }
  }

  lemma HalvedByWeight(v: nat, i: nat)
    requires i < 8
    ensures Halved(v, i) == v / WEIGHTS[i]
    decreases i
  {
    if i > 0 {
      HalvedByWeight(v, i - 1);
      HalvedAgain(v, i - 1);
      HalfOf(v, i - 1);
    }
  }

  lemma HalfOf(v: nat, i: nat)
    requires i < 7
    ensures v / WEIGHTS[i] / 2 == v / WEIGHTS[i + 1]
  {
    if i == 0 { assert v / 1 / 2 == v / 2; }
    else if i == 1 { assert v / 2 / 2 == v / 4; }
    else if i == 2 { assert v / 4 / 2 == v / 8; }
    else if i == 3 { assert v / 8 / 2 == v / 16; }
    else if i == 4 { assert v / 16 / 2 == v / 32; }
    else if i == 5 { assert v / 32 / 2 == v / 64; }
    else { assert v / 64 / 2 == v / 128; }
  }

  lemma ByteBitAt(v: Byte, i: nat)
    requires i < 8
    ensures ByteToBits(v)[i] == (v / WEIGHTS[i]) % 2
  {
    BitIsHalved(v, 8, i);
    HalvedByWeight(v, i);
  }

  lemma ControlFrame(e: Encoder, c0: Bit, c1: Bit)
    requires e.badOffsets == []
    ensures IsControl(e.prev, FrameFor(e, Prim(1, [c0, c1])), c0, c1)
  {
  }

  lemma DataFrame(e: Encoder, v: Byte)
    requires e.badOffsets == []
    ensures IsData(e.prev, FrameFor(e, DataPrim(v)), v)
  {
    var f := FrameFor(e, DataPrim(v));
    forall i | 0 <= i < 8 ensures f[2 + i] == (v / WEIGHTS[i]) % 2 {
      ByteBitAt(v, i);
      assert f[2 + i] == ByteToBits(v)[i];
    }
  }

  lemma OneFrame(e: Encoder, p: Prim)
    requires PrimOk(p)
    ensures Flatten(Frames(e, [p])) == FrameFor(e, p)
  {
    OnePrim(e, p);
    assert Flatten([FrameFor(e, p)]) == FrameFor(e, p) + Flatten([]);
  }

  lemma EscFrames(e: Encoder, p: Prim)
    requires e.badOffsets == [] && PrimOk(p)
    ensures var bits := Flatten(Frames(e, [ESC_PRIM, p]));
            && IsControl(e.prev, bits[..4], 1, 1)
            && bits[4..] == FrameFor(Encoder([1, 1], []), p)
  {
    TwoPrims(e, ESC_PRIM, p);
    ControlFrame(e, 1, 1);
    FlattenTwo(FrameFor(e, ESC_PRIM), FrameFor(Encoder([1, 1], []), p));
  }

  /** Main result: the bits of every request from every encoder without injection pending,
      and the content that the next parity bit covers. */
  lemma BitsOfRequests(e: Encoder, r: Request)
    requires e.badOffsets == []
    ensures IsRequest(e.prev, Encode(e, r), r)
  {
    var inner := Encoder([1, 1], []);
    match r
    case AskFct => OneFrame(e, FCT_PRIM); ControlFrame(e, 0, 0);
    case AskEop => OneFrame(e, EOP_PRIM); ControlFrame(e, 0, 1);
    case AskEep => OneFrame(e, EEP_PRIM); ControlFrame(e, 1, 0);
    case AskEsc => OneFrame(e, ESC_PRIM); ControlFrame(e, 1, 1);
    case AskData(v) => OneFrame(e, DataPrim(v)); DataFrame(e, v);
    case AskNull => EscFrames(e, FCT_PRIM); ControlFrame(inner, 0, 0);
    case AskTimeCode(v) => EscFrames(e, DataPrim(v)); DataFrame(inner, v);
    case AskBroadcast(v) => EscFrames(e, DataPrim(v)); DataFrame(inner, v);
  }

  /** The content that the next parity bit covers is the last two or eight bits sent. */
  lemma NextParityCovers(e: Encoder, r: Request)
    requires e.badOffsets == []
    ensures var bits := Encode(e, r);
            var n := if r.AskData? || r.AskTimeCode? || r.AskBroadcast? then 8 else 2;
            |bits| >= n && After(e, r) == Encoder(bits[|bits| - n..], [])
  {
    var ps := PrimsOf(r);
    if |ps| == 1 {
      assert ps == [ps[0]];
      OneContent(e, ps[0]);
    } else {
      assert ps == [ESC_PRIM, ps[1]];
      EscContent(e, ps[1]);
    }
  }

  lemma OneContent(e: Encoder, p: Prim)
    requires e.badOffsets == [] && PrimOk(p)
    ensures var bits := Flatten(Frames(e, [p]));
            |bits| >= |p.content| && AfterPrims(e, [p]) == Encoder(bits[|bits| - |p.content|..], [])
  {
    OneFrame(e, p);
    OnePrim(e, p);
    GoodFrame(e, p);
    var bits := FrameFor(e, p);
    assert bits[|bits| - |p.content|..] == p.content;
  }

  lemma EscContent(e: Encoder, p: Prim)
    requires e.badOffsets == [] && PrimOk(p)
    ensures var bits := Flatten(Frames(e, [ESC_PRIM, p]));
            && |bits| >= |p.content| && AfterPrims(e, [ESC_PRIM, p]) == Encoder(bits[|bits| - |p.content|..], [])
  {
    TwoPrims(e, ESC_PRIM, p);
    FlattenTwo(FrameFor(e, ESC_PRIM), FrameFor(Encoder([1, 1], []), p));
  }

  /** What each character of the link puts on the line: the terminators in particular are not
      exchanged anywhere between the packet and the bits. */
  lemma BitsOfLineChars(e: Encoder, ch: LineChar)
    requires e.badOffsets == []
    ensures var bits := Encode(e, RequestFor(ch));
            match ch
            case Null => IsRequest(e.prev, bits, AskNull)
            case Fct => IsControl(e.prev, bits, 0, 0)
            case Normal(Data(v)) => IsData(e.prev, bits, v)
            case Normal(End(t)) => IsControl(e.prev, bits, if t.Eop? then 0 else 1, if t.Eop? then 1 else 0)
  {
    BitsOfRequests(e, RequestFor(ch));
  }

  // ----- the checks of a character ------------------------------------------------------------

  /** A check as recorded: where its parity bit and flag are in the raw bits, and the parity
      bit that would make the number of ones odd. */
  predicate IsRecorded(k: Check, raw: seq<Bit>) {
    && k.bitIndex + 1 < |raw| && raw[k.bitIndex] == k.got && raw[k.bitIndex + 1] == k.flag
    && OddParity(k.prev, k.expected, k.flag)
  }

  /** Every check of a character is at the place of a parity bit of its raw bits, the second
      one behind the four bits of an ESC, whose content it covers; and the verdicts agree with
      the checks. */
  predicate ChecksInPlace(c: Character) {
    && 1 <= |c.checks| <= 2 && c.checks[0].bitIndex == 0
    && (|c.checks| == 2 ==> c.checks[1].bitIndex == 4 && |c.raw| >= 4 && c.checks[1].prev == c.raw[2..4])
    && (forall i :: 0 <= i < |c.checks| ==> IsRecorded(c.checks[i], c.raw))
    && (c.parityOk <==> forall i :: 0 <= i < |c.checks| ==> Passes(c.checks[i]))
    && (c.parityOk <==> ParityError !in c.faults)
  }

  predicate HeldInPlace(d: Decoder) {
    d.pending.Some? ==>
      var esc := d.pending.value;
      ChecksInPlace(esc) && |esc.checks| == 1 && |esc.raw| == 4 && d.prev == esc.raw[2..]
  }

  lemma ParsedInPlace(prev: seq<Bit>, raw: seq<Bit>)
    requires IsFrame(raw)
    ensures var c := ParsePrimitive(prev, raw);
            ChecksInPlace(c) && |c.checks| == 1 && c.raw == raw && c.checks[0].prev == prev
            && (c.kind.EscKind? ==> |raw| == 4)
  {
    var c := ParsePrimitive(prev, raw);
    assert c.checks == [CheckOf(prev, raw)];
    assert c.parityOk <==> Passes(c.checks[0]);
  }

  lemma CombinedFaults(esc: Character, c: Character, extra: seq<Fault>)
    requires ParityError !in extra
    ensures ParityError in CombineFaults(CombineFaults(esc.faults, c.faults), extra)
            <==> ParityError in esc.faults || ParityError in c.faults
  {
    CombineKeepsFaults(esc.faults, c.faults);
    CombineKeepsFaults(CombineFaults(esc.faults, c.faults), extra);
  }

  lemma CombinedInPlace(esc: Character, c: Character, kind: Kind, tf: Option<nat>, cv: Option<nat>, extra: seq<Fault>)
    requires ChecksInPlace(esc) && |esc.checks| == 1 && |esc.raw| == 4
    requires ChecksInPlace(c) && |c.checks| == 1 && c.checks[0].prev == esc.raw[2..] && ParityError !in extra
    ensures var x := CombineEscaped(esc, c, kind, tf, cv, extra);
            ChecksInPlace(x) && |x.checks| == 2
  {
    var x := CombineEscaped(esc, c, kind, tf, cv, extra);
    CombinedFaults(esc, c, extra);
    assert x.checks == [esc.checks[0], c.checks[0].(bitIndex := 4)];
    assert x.raw[0] == esc.raw[0] && x.raw[1] == esc.raw[1] && x.raw[2..4] == esc.raw[2..];
    assert x.raw[4] == c.raw[0] && x.raw[5] == c.raw[1];
    assert Passes(x.checks[0]) == Passes(esc.checks[0]) && Passes(x.checks[1]) == Passes(c.checks[0]);
  }

  lemma ResolvedInPlace(esc: Character, c: Character)
    requires ChecksInPlace(esc) && |esc.checks| == 1 && |esc.raw| == 4
    requires ChecksInPlace(c) && |c.checks| == 1 && c.checks[0].prev == esc.raw[2..]
    ensures ChecksInPlace(ResolveEscaped(esc, c)) && |ResolveEscaped(esc, c).checks| == 2
  {
    if c.kind.FctKind? {
      CombinedInPlace(esc, c, NullKind, None, None, []);
    } else if c.kind.DataKind? && c.value.Some? {
      var field, code := c.value.value / 64, c.value.value % 64;
      CombinedInPlace(esc, c, if field == 0 then TimeCodeKind else BroadcastKind, Some(field), Some(code),
                      if field == 0 || field == 2 then [] else [ReservedCode]);
    } else {
      CombinedInPlace(esc, c, c.kind, None, None, [EscapeError]);
    }
  }

  lemma FeedInPlace(d: Decoder, bit: Bit)
    requires HeldInPlace(d)
    ensures var t := FeedBit(d, bit);
            HeldInPlace(t.state) && forall c :: c in t.chars ==> ChecksInPlace(c)
  {
    var raw := d.buffer + [bit];
    if IsFrame(raw) {
      ParsedInPlace(d.prev, raw);
      if d.pending.Some? {
        ResolvedInPlace(d.pending.value, ParsePrimitive(d.prev, raw));
      }
    }
  }

  /** Main result: in every stream, well formed or not, each check of each character points at
      the parity bit it checked, and the verdicts of the character agree with its checks. */
  lemma {:induction false} ChecksPointAtParityBits(d: Decoder, bits: seq<Bit>)
    requires HeldInPlace(d)
    ensures var t := Push(d, bits);
            HeldInPlace(t.state) && forall c :: c in t.chars ==> ChecksInPlace(c)
    decreases |bits|
  {
    if bits != [] {
      FeedInPlace(d, bits[0]);
      ChecksPointAtParityBits(FeedBit(d, bits[0]).state, bits[1..]);
    }
  }
}
