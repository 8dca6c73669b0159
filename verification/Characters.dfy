/**
 The stateful character codec of characters.py.  Bits are sent as parity bit,
 data-control flag, content; the odd parity of a primitive character covers the
 content of the one before it, its own parity bit and its own flag.
 */
module Characters {
  import opened Wrappers
  import opened Bits

  datatype Kind = FctKind | EopKind | EepKind | EscKind | DataKind | NullKind | TimeCodeKind | BroadcastKind

  datatype Fault = ParityError | EscapeError | ReservedCode

  /** One parity check of one primitive: where its parity bit is, and what it should be. */
  datatype Check = Check(bitIndex: nat, expected: Bit, got: Bit, prev: seq<Bit>, flag: Bit)

  datatype Character = Character(
    kind: Kind,
    value: Option<Byte>,
    raw: seq<Bit>,
    parityOk: bool,
    faults: seq<Fault>,
    typeField: Option<nat>,
    codeValue: Option<nat>,
    checks: seq<Check>)

  /** The parity bit that makes the number of ones in the previous content, the parity
      bit and the flag odd. */
  function ComputeParity(prev: seq<Bit>, flag: Bit): (p: Bit)
    ensures (Ones(prev) + p + flag) % 2 == 1
  {
    if (Ones(prev) + flag) % 2 == 0 then 1 else 0
  }

  function FrameLength(flag: Bit): nat {
    if flag == 1 then 4 else 10
  }

  /** A whole primitive on the line. */
  predicate IsFrame(raw: seq<Bit>) {
    |raw| >= 2 && |raw| == FrameLength(raw[1])
  }

  predicate AllFrames(fs: seq<seq<Bit>>) {
    forall i :: 0 <= i < |fs| ==> IsFrame(fs[i])
  }

  /** The first bits of a primitive that is not whole yet. */
  predicate IsPartial(raw: seq<Bit>) {
    |raw| >= 2 ==> |raw| < FrameLength(raw[1])
  }

  // ----- encoder -----------------------------------------------------------------------

  datatype Encoder = Encoder(prev: seq<Bit>, badOffsets: seq<nat>)

  /** What a caller may ask the encoder for. */
  datatype Request =
    | AskFct | AskEop | AskEep | AskEsc
    | AskData(value: Byte)
    | AskNull
    | AskTimeCode(code: Byte)
    | AskBroadcast(value: Byte)

  /** A primitive to be encoded. */
  datatype Prim = Prim(flag: Bit, content: seq<Bit>)

  predicate PrimOk(p: Prim) {
    |p.content| == if p.flag == 1 then 2 else 8
  }

  predicate AllPrimsOk(ps: seq<Prim>) {
    forall i :: 0 <= i < |ps| ==> PrimOk(ps[i])
  }

  const FCT_PRIM := Prim(1, [0, 0])
  const EOP_PRIM := Prim(1, [0, 1])
  const EEP_PRIM := Prim(1, [1, 0])
  const ESC_PRIM := Prim(1, [1, 1])

  function DataPrim(v: Byte): Prim {
    Prim(0, ByteToBits(v))
  }

  /** The primitives of a request: escaped codes take two. */
  function PrimsOf(r: Request): (ps: seq<Prim>)
    ensures 1 <= |ps| <= 2 && AllPrimsOk(ps)
  {
    match r
    case AskFct => [FCT_PRIM]
    case AskEop => [EOP_PRIM]
    case AskEep => [EEP_PRIM]
    case AskEsc => [ESC_PRIM]
    case AskData(v) => [DataPrim(v)]
    case AskNull => [ESC_PRIM, FCT_PRIM]
    case AskTimeCode(c) => [ESC_PRIM, DataPrim(c)]
    case AskBroadcast(v) => [ESC_PRIM, DataPrim(v)]
  }

  function ForceBadParity(e: Encoder, offset: nat): Encoder {
    e.(badOffsets := e.badOffsets + [offset])
  }

  /** Pending requests one primitive later: those due now are used up. */
  function Advance(offsets: seq<nat>): seq<nat>
    decreases |offsets|
  {
    if offsets == [] then []
    else (if offsets[0] > 0 then [offsets[0] - 1] else []) + Advance(offsets[1..])
  }

  function ParityFor(e: Encoder, flag: Bit): Bit {
    if 0 in e.badOffsets then Flip(ComputeParity(e.prev, flag)) else ComputeParity(e.prev, flag)
  }

  function FrameFor(e: Encoder, p: Prim): seq<Bit> {
    [ParityFor(e, p.flag), p.flag] + p.content
  }

  function AfterPrim(e: Encoder, p: Prim): Encoder {
    Encoder(p.content, Advance(e.badOffsets))
  }

  function Frames(e: Encoder, ps: seq<Prim>): (fs: seq<seq<Bit>>)
    requires AllPrimsOk(ps)
    ensures |fs| == |ps| && AllFrames(fs)
    decreases |ps|
  {
    if ps == [] then [] else [FrameFor(e, ps[0])] + Frames(AfterPrim(e, ps[0]), ps[1..])
  }

  function AfterPrims(e: Encoder, ps: seq<Prim>): Encoder
    decreases |ps|
  {
    if ps == [] then e else AfterPrims(AfterPrim(e, ps[0]), ps[1..])
  }

  function Flatten(fs: seq<seq<Bit>>): seq<Bit>
    decreases |fs|
  {
    if fs == [] then [] else fs[0] + Flatten(fs[1..])
  }

  function Encode(e: Encoder, r: Request): seq<Bit>
  {
    Flatten(Frames(e, PrimsOf(r)))
  }

  // ----- decoder -----------------------------------------------------------------------

  datatype Decoder = Decoder(prev: seq<Bit>, buffer: seq<Bit>, pending: Option<Character>)

  const NEW_DECODER := Decoder([], [], None)

  /** A decoder and the characters it has just produced. */
  datatype Decoded = Decoded(state: Decoder, chars: seq<Character>)

  function ControlKind(content: seq<Bit>): Kind
    requires |content| == 2
  {
    if content[0] == 0 then (if content[1] == 0 then FctKind else EopKind)
    else (if content[1] == 0 then EepKind else EscKind)
  }

  function CheckOf(prev: seq<Bit>, raw: seq<Bit>): Check
    requires IsFrame(raw)
  {
    Check(0, ComputeParity(prev, raw[1]), raw[0], prev, raw[1])
  }

  predicate Passes(c: Check) {
    c.expected == c.got
  }

  function ParsePrimitive(prev: seq<Bit>, raw: seq<Bit>): Character
    requires IsFrame(raw)
  {
    var check := CheckOf(prev, raw);
    var data := raw[1] == 0;
    Character(
      if data then DataKind else ControlKind(raw[2..]),
      if data then Some(BitsToByte(raw[2..])) else None,
      raw,
      Passes(check),
      if Passes(check) then [] else [ParityError],
      None, None,
      [check])
  }

  /** Each fault once, in the order first seen. */
  function CombineFaults(a: seq<Fault>, b: seq<Fault>): seq<Fault>
    decreases |b|
  {
    if b == [] then a
    else CombineFaults(if b[0] in a then a else a + [b[0]], b[1..])
  }

  function OffsetChecks(cs: seq<Check>, offset: nat): seq<Check> {
    seq(|cs|, i requires 0 <= i < |cs| => cs[i].(bitIndex := cs[i].bitIndex + offset))
  }

  /** An ESC and the primitive after it, as one character. */
  function CombineEscaped(esc: Character, c: Character, kind: Kind,
                          typeField: Option<nat>, codeValue: Option<nat>, extra: seq<Fault>): Character {
    Character(
      kind,
      c.value,
      esc.raw + c.raw,
      esc.parityOk && c.parityOk,
      CombineFaults(CombineFaults(esc.faults, c.faults), extra),
      typeField, codeValue,
      OffsetChecks(esc.checks, 0) + OffsetChecks(c.checks, |esc.raw|))
  }

  function DecodeEscapedData(esc: Character, c: Character, v: Byte): Character {
    var field, code := v / 64, v % 64;
    CombineEscaped(
      esc, c,
      if field == 0 then TimeCodeKind else BroadcastKind,
      Some(field), Some(code),
      if field == 0 || field == 2 then [] else [ReservedCode])
  }

  /** What an ESC makes of the primitive that follows it. */
  function ResolveEscaped(esc: Character, c: Character): Character {
    if c.kind.FctKind? then CombineEscaped(esc, c, NullKind, None, None, [])
    else if c.kind.DataKind? && c.value.Some? then DecodeEscapedData(esc, c, c.value.value)
    else CombineEscaped(esc, c, c.kind, None, None, [EscapeError])
  }

  function TakeFrame(d: Decoder, raw: seq<Bit>): Decoded
    requires IsFrame(raw)
  {
    var c := ParsePrimitive(d.prev, raw);
    match d.pending
    case None =>
      if c.kind.EscKind? then Decoded(Decoder(raw[2..], [], Some(c)), [])
      else Decoded(Decoder(raw[2..], [], None), [c])
    case Some(esc) =>
      Decoded(Decoder(raw[2..], [], None), [ResolveEscaped(esc, c)])
  }

  /** One bit. */
  function FeedBit(d: Decoder, bit: Bit): Decoded {
    var raw := d.buffer + [bit];
    if IsFrame(raw) then TakeFrame(d, raw) else Decoded(d.(buffer := raw), [])
  }

  function Push(d: Decoder, bits: seq<Bit>): Decoded
    decreases |bits|
  {
    if bits == [] then Decoded(d, [])
    else
      var first := FeedBit(d, bits[0]);
      var rest := Push(first.state, bits[1..]);
      Decoded(rest.state, first.chars + rest.chars)
  }

  /** The framing state of every decoder between two bits. */
  predicate DecoderOk(d: Decoder) {
    && IsPartial(d.buffer)
    && (d.pending.Some? ==> d.pending.value.kind.EscKind?)
  }

  lemma FeedKeepsDecoderOk(d: Decoder, bit: Bit)
    requires DecoderOk(d)
    ensures DecoderOk(FeedBit(d, bit).state)
  {
  }

  // ----- chunking, losslessness, one character at a time ------------------------------------

  /** Main result: it makes no difference how a bit stream is cut into pushes. */
  lemma {:induction false} PushSplits(d: Decoder, a: seq<Bit>, b: seq<Bit>)
    ensures var first := Push(d, a);
            var second := Push(first.state, b);
            Push(d, a + b) == Decoded(second.state, first.chars + second.chars)
    decreases |a|
  {
    if a == [] {
      assert a + b == b;
    } else {
      assert (a + b)[1..] == a[1..] + b && (a + b)[0] == a[0];
      var head := FeedBit(d, a[0]);
      PushSplits(head.state, a[1..], b);
      var first := Push(head.state, a[1..]);
      var second := Push(first.state, b);
      assert head.chars + (first.chars + second.chars) == (head.chars + first.chars) + second.chars;
    }
  }

  function RawOf(cs: seq<Character>): seq<Bit>
    decreases |cs|
  {
    if cs == [] then [] else cs[0].raw + RawOf(cs[1..])
  }

  lemma {:induction false} RawOfSplits(a: seq<Character>, b: seq<Character>)
    ensures RawOf(a + b) == RawOf(a) + RawOf(b)
    decreases |a|
  {
    if a == [] {
      assert a + b == b;
    } else {
      assert (a + b)[1..] == a[1..] + b;
      RawOfSplits(a[1..], b);
    }
  }

  /** The bits a decoder holds back: a pending ESC, then a partial primitive. */
  function Held(d: Decoder): seq<Bit> {
    (if d.pending.Some? then d.pending.value.raw else []) + d.buffer
  }

  lemma FeedIsLossless(d: Decoder, bit: Bit)
    ensures Held(d) + [bit] == RawOf(FeedBit(d, bit).chars) + Held(FeedBit(d, bit).state)
  {
    var raw := d.buffer + [bit];
    if IsFrame(raw) {
      FrameIsLossless(d, raw);
    } else {
      assert RawOf([]) + Held(FeedBit(d, bit).state) == Held(d) + [bit];
    }
  }

  lemma FrameIsLossless(d: Decoder, raw: seq<Bit>)
    requires IsFrame(raw)
    ensures (if d.pending.Some? then d.pending.value.raw else []) + raw
            == RawOf(TakeFrame(d, raw).chars) + Held(TakeFrame(d, raw).state)
  {
    var t := TakeFrame(d, raw);
    if t.chars != [] {
      RawOfOne(t.chars[0]);
      assert Held(t.state) == [];
      assert t.chars == [t.chars[0]];
    }
  }

  lemma RawOfOne(c: Character)
    ensures RawOf([c]) == c.raw
  {
    assert RawOf([c]) == c.raw + RawOf([]);
  }

  lemma Regroup<T>(h: seq<T>, bits: seq<T>, r: seq<T>, h1: seq<T>, r2: seq<T>, h2: seq<T>)
    requires bits != [] && h + [bits[0]] == r + h1 && h1 + bits[1..] == r2 + h2
    ensures h + bits == (r + r2) + h2
  {
    assert h + bits == (h + [bits[0]]) + bits[1..];
    assert (r + h1) + bits[1..] == r + (h1 + bits[1..]);
    assert r + (r2 + h2) == (r + r2) + h2;
  }

  /** Main result: whatever the bits, well formed or not, the raw bits of the characters
      produced, then the bits still held back, are the bits fed. */
  lemma {:induction false} DecodingIsLossless(d: Decoder, bits: seq<Bit>)
    ensures Held(d) + bits == RawOf(Push(d, bits).chars) + Held(Push(d, bits).state)
    decreases |bits|
  {
    if bits != [] {
      var first := FeedBit(d, bits[0]);
      FeedIsLossless(d, bits[0]);
      DecodingIsLossless(first.state, bits[1..]);
      var rest := Push(first.state, bits[1..]);
      RawOfSplits(first.chars, rest.chars);
      Regroup(Held(d), bits, RawOf(first.chars), Held(first.state), RawOf(rest.chars), Held(rest.state));
    }
  }

  lemma CombineKeepsFaults(a: seq<Fault>, b: seq<Fault>)
    ensures forall f :: f in CombineFaults(a, b) <==> f in a || f in b
    decreases |b|
  {
    if b != [] {
      CombineKeepsFaults(if b[0] in a then a else a + [b[0]], b[1..]);
    }
  }

  /** One bit completes at most one character, and a character of kind ESC is only ever
      produced with an escape error. */
  lemma FeedProducesAtMostOne(d: Decoder, bit: Bit)
    ensures var cs := FeedBit(d, bit).chars;
            |cs| <= 1 && (|cs| == 1 && cs[0].kind.EscKind? ==> EscapeError in cs[0].faults)
  {
    var raw := d.buffer + [bit];
    if IsFrame(raw) && d.pending.Some? {
      var c := ParsePrimitive(d.prev, raw);
      var own := CombineFaults(d.pending.value.faults, c.faults);
      CombineKeepsFaults(own, [EscapeError]);
    }
  }

  // ----- whole frames ---------------------------------------------------------------------

  /** Until its last bit, a primitive only fills the buffer. */
  lemma {:induction false} PartialFillsBuffer(d: Decoder, bits: seq<Bit>)
    requires IsPartial(d.buffer + bits)
    ensures Push(d, bits) == Decoded(d.(buffer := d.buffer + bits), [])
    decreases |bits|
  {
    if bits == [] {
      assert d.buffer + bits == d.buffer;
    } else {
      var raw := d.buffer + [bits[0]];
      assert d.buffer + bits == raw + bits[1..];
      assert !IsFrame(raw);
      PartialFillsBuffer(d.(buffer := raw), bits[1..]);
    }
  }

  lemma FramePush(d: Decoder, raw: seq<Bit>)
    requires d.buffer == [] && IsFrame(raw)
    ensures Push(d, raw) == TakeFrame(d, raw)
  {
    var n := |raw| - 1;
    assert raw == raw[..n] + [raw[n]];
    assert d.buffer + raw[..n] == raw[..n];
    PartialFillsBuffer(d, raw[..n]);
    var full := d.(buffer := raw[..n]);
    PushSplits(d, raw[..n], [raw[n]]);
    assert Push(full, [raw[n]]) == FeedBit(full, raw[n]) by {
      var f := FeedBit(full, raw[n]);
      assert Push(f.state, []) == Decoded(f.state, []);
      assert f.chars + [] == f.chars;
    }
    assert TakeFrame(full, raw) == TakeFrame(d, raw);
  }

  function TakeFrames(d: Decoder, fs: seq<seq<Bit>>): Decoded
    requires AllFrames(fs)
    decreases |fs|
  {
    if fs == [] then Decoded(d, [])
    else
      var first := TakeFrame(d, fs[0]);
      var rest := TakeFrames(first.state, fs[1..]);
      Decoded(rest.state, first.chars + rest.chars)
  }

  /** A stream of whole primitives is decoded primitive by primitive. */
  lemma {:induction false} FramesPush(d: Decoder, fs: seq<seq<Bit>>)
    requires d.buffer == [] && AllFrames(fs)
    ensures Push(d, Flatten(fs)) == TakeFrames(d, fs)
    decreases |fs|
  {
    if fs != [] {
      FramePush(d, fs[0]);
      PushSplits(d, fs[0], Flatten(fs[1..]));
      FramesPush(TakeFrame(d, fs[0]).state, fs[1..]);
    }
  }

  lemma {:induction false} FlattenSplits(a: seq<seq<Bit>>, b: seq<seq<Bit>>)
    ensures Flatten(a + b) == Flatten(a) + Flatten(b)
    decreases |a|
  {
    if a == [] {
      assert a + b == b;
    } else {
      assert (a + b)[1..] == a[1..] + b;
      FlattenSplits(a[1..], b);
    }
  }

  lemma {:induction false} FramesSplit(e: Encoder, a: seq<Prim>, b: seq<Prim>)
    requires AllPrimsOk(a) && AllPrimsOk(b)
    ensures Frames(e, a + b) == Frames(e, a) + Frames(AfterPrims(e, a), b)
    ensures AfterPrims(e, a + b) == AfterPrims(AfterPrims(e, a), b)
    decreases |a|
  {
    if a == [] {
      assert a + b == b;
    } else {
      assert (a + b)[1..] == a[1..] + b;
      FramesSplit(AfterPrim(e, a[0]), a[1..], b);
    }
  }
}
