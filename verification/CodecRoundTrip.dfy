/**
 The character codec loses nothing: what is encoded is decoded, and what is decoded
 without error is encoded to the very same bits.
 */
module CodecRoundTrip {
  import opened Wrappers
  import opened Bits
  import opened Characters

  /** The requests of the program's builders whose codes have a meaning of their own:
      everything but a bare ESC, a time-code of more than six bits and the broadcast types
      other than 0b10. */
  predicate Legal(r: Request) {
    match r
    case AskEsc => false
    case AskTimeCode(c) => c < 64
    case AskBroadcast(v) => v / 64 == 2
    case _ => true
  }

  /** The character a request should be decoded as: same type, same values, no fault. */
  predicate Matches(c: Character, r: Request) {
    && c.faults == [] && c.parityOk
    && match r
       case AskFct => c.kind.FctKind? && c.value == None
       case AskEop => c.kind.EopKind? && c.value == None
       case AskEep => c.kind.EepKind? && c.value == None
       case AskEsc => false
       case AskData(v) => c.kind.DataKind? && c.value == Some(v)
       case AskNull => c.kind.NullKind? && c.value == None
       case AskTimeCode(t) =>
         c.kind.TimeCodeKind? && c.value == Some(t) && c.typeField == Some(0) && c.codeValue == Some(t)
       case AskBroadcast(v) =>
         c.kind.BroadcastKind? && c.value == Some(v) && c.typeField == Some(v / 64)
         && c.codeValue == Some(v % 64)
  }

  /** Encoder and decoder agree on the content that the next parity covers, with nothing
      half sent and no injection pending. */
  predicate Synced(e: Encoder, d: Decoder) {
    e.badOffsets == [] && d == Decoder(e.prev, [], None)
  }

  function After(e: Encoder, r: Request): Encoder
  {
    AfterPrims(e, PrimsOf(r))
  }

  // ----- encode, then decode ------------------------------------------------------------

  /** A primitive encoded without injection passes its parity check. */
  lemma GoodFrame(e: Encoder, p: Prim)
    requires e.badOffsets == [] && PrimOk(p)
    ensures var raw := FrameFor(e, p);
            && IsFrame(raw) && raw[1] == p.flag && raw[2..] == p.content
            && raw[0] == ComputeParity(e.prev, p.flag)
    ensures AfterPrim(e, p) == Encoder(p.content, [])
  {
    assert FrameFor(e, p)[2..] == p.content;
  }

  lemma OnePrim(e: Encoder, p: Prim)
    requires PrimOk(p)
    ensures Frames(e, [p]) == [FrameFor(e, p)]
    ensures AfterPrims(e, [p]) == AfterPrim(e, p)
  {
    assert Frames(AfterPrim(e, p), []) == [];
    assert AfterPrims(AfterPrim(e, p), []) == AfterPrim(e, p);
  }

  lemma TwoPrims(e: Encoder, p: Prim, q: Prim)
    requires PrimOk(p) && PrimOk(q)
    ensures Frames(e, [p, q]) == [FrameFor(e, p), FrameFor(AfterPrim(e, p), q)]
    ensures AfterPrims(e, [p, q]) == AfterPrim(AfterPrim(e, p), q)
  {
    assert [p, q][1..] == [q];
    OnePrim(AfterPrim(e, p), q);
  }

  lemma TakeOneFrame(d: Decoder, f: seq<Bit>)
    requires IsFrame(f)
    ensures TakeFrames(d, [f]) == TakeFrame(d, f)
  {
    var t := TakeFrame(d, f);
    assert TakeFrames(t.state, []) == Decoded(t.state, []);
    assert t.chars + [] == t.chars;
  }

  lemma TakeTwoFrames(d: Decoder, f: seq<Bit>, g: seq<Bit>)
    requires IsFrame(f) && IsFrame(g)
    ensures var t := TakeFrame(d, f);
            var u := TakeFrame(t.state, g);
            TakeFrames(d, [f, g]) == Decoded(u.state, t.chars + u.chars)
  {
    assert [f, g][1..] == [g];
    TakeOneFrame(TakeFrame(d, f).state, g);
  }

  /** A request of a single primitive. */
  lemma PlainRequest(e: Encoder, d: Decoder, r: Request)
    requires Legal(r) && Synced(e, d) && |PrimsOf(r)| == 1
    ensures var t := TakeFrames(d, Frames(e, PrimsOf(r)));
            Synced(After(e, r), t.state) && |t.chars| == 1 && Matches(t.chars[0], r)
  {
    var p := PrimsOf(r)[0];
    assert PrimsOf(r) == [p];
    OnePrim(e, p);
    GoodFrame(e, p);
    TakeOneFrame(d, FrameFor(e, p));
    if r.AskData? { ByteRoundTrip(r.value); }
  }

  /** The ESC that a synchronised encoder sends. */
  function CleanEsc(e: Encoder): Character {
    ParsePrimitive(e.prev, [ComputeParity(e.prev, 1), 1, 1, 1])
  }

  /** The primitive that follows it. */
  function CleanSecond(p: Prim): Character
    requires PrimOk(p)
  {
    ParsePrimitive([1, 1], [ComputeParity([1, 1], p.flag), p.flag] + p.content)
  }

  lemma EscThenPrim(e: Encoder, d: Decoder, p: Prim)
    requires Synced(e, d) && PrimOk(p)
    ensures TakeFrames(d, Frames(e, [ESC_PRIM, p]))
            == Decoded(Decoder(p.content, [], None), [ResolveEscaped(CleanEsc(e), CleanSecond(p))])
    ensures AfterPrims(e, [ESC_PRIM, p]) == Encoder(p.content, [])
  {
    TwoPrims(e, ESC_PRIM, p);
    GoodFrame(e, ESC_PRIM);
    var e1 := AfterPrim(e, ESC_PRIM);
    GoodFrame(e1, p);
    var f, g := FrameFor(e, ESC_PRIM), FrameFor(e1, p);
    assert f == [ComputeParity(e.prev, 1), 1, 1, 1];
    assert g == [ComputeParity([1, 1], p.flag), p.flag] + p.content;
    TakeTwoFrames(d, f, g);
    assert TakeFrame(d, f) == Decoded(Decoder([1, 1], [], Some(CleanEsc(e))), []);
  }

  lemma CleanParts(e: Encoder, p: Prim)
    requires PrimOk(p)
    ensures CleanEsc(e).faults == [] && CleanEsc(e).parityOk
    ensures CleanSecond(p).faults == [] && CleanSecond(p).parityOk
    ensures p.flag == 0 ==> CleanSecond(p).kind == DataKind && CleanSecond(p).value == Some(BitsToByte(p.content))
    ensures p.flag == 1 ==> CleanSecond(p).kind == ControlKind(p.content) && CleanSecond(p).value == None
  {
    assert ([ComputeParity([1, 1], p.flag), p.flag] + p.content)[2..] == p.content;
  }

  lemma NullDecoded(e: Encoder)
    ensures Matches(ResolveEscaped(CleanEsc(e), CleanSecond(FCT_PRIM)), AskNull)
  {
    CleanParts(e, FCT_PRIM);
  }

  lemma TimeCodeDecoded(e: Encoder, c: Byte)
    requires c < 64
    ensures Matches(ResolveEscaped(CleanEsc(e), CleanSecond(DataPrim(c))), AskTimeCode(c))
  {
    CleanParts(e, DataPrim(c));
    ByteRoundTrip(c);
  }

  lemma LegalBroadcastDecoded(e: Encoder, v: Byte)
    requires v / 64 == 2
    ensures Matches(ResolveEscaped(CleanEsc(e), CleanSecond(DataPrim(v))), AskBroadcast(v))
  {
    CleanParts(e, DataPrim(v));
    ByteRoundTrip(v);
  }

  /** A request of ESC and a second primitive. */
  lemma EscapedRequest(e: Encoder, d: Decoder, r: Request)
    requires Legal(r) && Synced(e, d) && |PrimsOf(r)| == 2
    ensures var t := TakeFrames(d, Frames(e, PrimsOf(r)));
            Synced(After(e, r), t.state) && |t.chars| == 1 && Matches(t.chars[0], r)
  {
    var p := PrimsOf(r)[1];
    assert PrimsOf(r) == [ESC_PRIM, p];
    EscThenPrim(e, d, p);
    match r
    case AskNull => NullDecoded(e);
    case AskTimeCode(c) => TimeCodeDecoded(e, c);
    case AskBroadcast(v) => LegalBroadcastDecoded(e, v);
  }

  lemma EncodeThenDecodeOne(e: Encoder, d: Decoder, r: Request)
    requires Legal(r) && Synced(e, d)
    ensures var t := Push(d, Encode(e, r));
            Synced(After(e, r), t.state) && |t.chars| == 1 && Matches(t.chars[0], r)
  {
    FramesPush(d, Frames(e, PrimsOf(r)));
    if |PrimsOf(r)| == 1 { PlainRequest(e, d, r); } else { EscapedRequest(e, d, r); }
  }

  predicate AllLegal(rs: seq<Request>) {
    forall i :: 0 <= i < |rs| ==> Legal(rs[i])
  }

  function EncodeAll(e: Encoder, rs: seq<Request>): seq<Bit>
    decreases |rs|
  {
    if rs == [] then [] else Encode(e, rs[0]) + EncodeAll(After(e, rs[0]), rs[1..])
  }

  function AfterAll(e: Encoder, rs: seq<Request>): Encoder
    decreases |rs|
  {
    if rs == [] then e else AfterAll(After(e, rs[0]), rs[1..])
  }

  predicate AllMatch(cs: seq<Character>, rs: seq<Request>) {
    |cs| == |rs| && forall i :: 0 <= i < |rs| ==> Matches(cs[i], rs[i])
  }

  /** Main result: every sequence of legal requests is decoded as itself, character by
      character, without fault and with nothing pending. */
  lemma {:induction false} EncodeThenDecode(e: Encoder, d: Decoder, rs: seq<Request>)
    requires AllLegal(rs) && Synced(e, d)
    ensures var t := Push(d, EncodeAll(e, rs));
            Synced(AfterAll(e, rs), t.state) && AllMatch(t.chars, rs)
    decreases |rs|
  {
    if rs != [] {
      EncodeThenDecodeOne(e, d, rs[0]);
      var t := Push(d, Encode(e, rs[0]));
      EncodeThenDecode(After(e, rs[0]), t.state, rs[1..]);
      PushSplits(d, Encode(e, rs[0]), EncodeAll(After(e, rs[0]), rs[1..]));
    }
  }

  lemma BroadcastDecoded(e: Encoder, d: Decoder, v: Byte)
    requires Synced(e, d)
    ensures Push(d, Encode(e, AskBroadcast(v))).chars
            == [ResolveEscaped(CleanEsc(e), CleanSecond(DataPrim(v)))]
  {
    FramesPush(d, Frames(e, PrimsOf(AskBroadcast(v))));
    EscThenPrim(e, d, DataPrim(v));
  }

  /** Which broadcast types survive: a broadcast comes back as a broadcast without fault
      exactly when its type field is 0b10. */
  lemma BroadcastSurvives(e: Encoder, d: Decoder, v: Byte)
    requires Synced(e, d)
    ensures var t := Push(d, Encode(e, AskBroadcast(v)));
            |t.chars| == 1 &&
            (t.chars[0].kind.BroadcastKind? && t.chars[0].faults == [] <==> v / 64 == 2)
  {
    BroadcastDecoded(e, d, v);
    CleanParts(e, DataPrim(v));
    ByteRoundTrip(v);
    DataCode(CleanEsc(e), CleanSecond(DataPrim(v)), v);
  }

  /** A time-code with a value of more than six bits is not one at the far end. */
  lemma TimeCodeSurvives(e: Encoder, d: Decoder, v: Byte)
    requires Synced(e, d)
    ensures var t := Push(d, Encode(e, AskTimeCode(v)));
            |t.chars| == 1 && (t.chars[0].kind.TimeCodeKind? <==> v < 64)
  {
    assert Encode(e, AskTimeCode(v)) == Encode(e, AskBroadcast(v));
    BroadcastDecoded(e, d, v);
    CleanParts(e, DataPrim(v));
    ByteRoundTrip(v);
  }

  lemma DataCode(esc: Character, c: Character, v: Byte)
    requires esc.faults == [] && c.faults == []
    ensures var x := DecodeEscapedData(esc, c, v);
            x.kind.BroadcastKind? && x.faults == [] <==> v / 64 == 2
  {
    assert CombineFaults([], [ReservedCode]) == CombineFaults([ReservedCode], []);
  }

  // ----- decode, then encode ------------------------------------------------------------

  /** The request with which the program re-encodes a decoded character. */
  function RequestOf(c: Character): (r: Request)
  {
    var v := if c.value.Some? then c.value.value else 0;
    match c.kind
    case FctKind => AskFct
    case EopKind => AskEop
    case EepKind => AskEep
    case EscKind => AskEsc
    case DataKind => AskData(v)
    case NullKind => AskNull
    case TimeCodeKind => AskTimeCode((if c.codeValue.Some? then c.codeValue.value else 0) % 64)
    case BroadcastKind => AskBroadcast(v)
  }

  function RequestsOf(cs: seq<Character>): (rs: seq<Request>)
    ensures |rs| == |cs| && forall i :: 0 <= i < |rs| ==> rs[i] == RequestOf(cs[i])
    decreases |cs|
  {
    if cs == [] then [] else [RequestOf(cs[0])] + RequestsOf(cs[1..])
  }

  predicate Sound(c: Character) {
    ParityError !in c.faults && EscapeError !in c.faults
  }

  predicate AllSound(cs: seq<Character>) {
    forall i :: 0 <= i < |cs| ==> Sound(cs[i])
  }

  /** The primitive inside a frame. */
  function PrimIn(raw: seq<Bit>): (p: Prim)
    requires IsFrame(raw)
    ensures PrimOk(p)
  {
    Prim(raw[1], raw[2..])
  }

  /** A frame that passes its check is the frame its own primitive is encoded to. */
  lemma PassingFrame(e: Encoder, raw: seq<Bit>)
    requires e.badOffsets == [] && IsFrame(raw) && raw[0] == ComputeParity(e.prev, raw[1])
    ensures FrameFor(e, PrimIn(raw)) == raw
  {
    assert raw == [raw[0], raw[1]] + raw[2..];
  }

  /** The primitive of a parsed character is the one its type and value are encoded to. */
  lemma ParsedPrim(prev: seq<Bit>, raw: seq<Bit>)
    requires IsFrame(raw)
    ensures PrimsOf(RequestOf(ParsePrimitive(prev, raw))) == [PrimIn(raw)]
  {
    if raw[1] == 0 {
      BitsRoundTrip(raw[2..]);
    } else {
      assert raw[2..] == [raw[2], raw[3]];
    }
  }

  lemma PlainFrame(e: Encoder, d: Decoder, raw: seq<Bit>)
    requires Synced(e, d) && IsFrame(raw) && !ParsePrimitive(d.prev, raw).kind.EscKind?
    requires Sound(ParsePrimitive(d.prev, raw))
    ensures var c := ParsePrimitive(d.prev, raw);
            && TakeFrame(d, raw) == Decoded(Decoder(raw[2..], [], None), [c])
            && Encode(e, RequestOf(c)) == raw
            && Synced(After(e, RequestOf(c)), Decoder(raw[2..], [], None))
  {
    ParsedPrim(d.prev, raw);
    PassingFrame(e, raw);
    OnePrim(e, PrimIn(raw));
    assert Flatten([raw]) == raw + Flatten([]);
  }

  /** An escaped character without parity or escape error had two primitives without
      parity error, the second an FCT or a data character. */
  lemma ResolvedFaults(esc: Character, c: Character)
    requires Sound(ResolveEscaped(esc, c))
    ensures ParityError !in esc.faults && ParityError !in c.faults
    ensures c.kind.FctKind? || (c.kind.DataKind? && c.value.Some?)
  {
    var own := CombineFaults(esc.faults, c.faults);
    CombineKeepsFaults(esc.faults, c.faults);
    CombineKeepsFaults(own, []);
    CombineKeepsFaults(own, [EscapeError]);
    CombineKeepsFaults(own, [ReservedCode]);
  }

  /** The byte an escaped code is re-encoded from is that of its second primitive. */
  lemma EscapedByte(esc: Character, c: Character, v: Byte)
    ensures PrimsOf(RequestOf(DecodeEscapedData(esc, c.(value := Some(v)), v))) == [ESC_PRIM, DataPrim(v)]
  {
  }

  /** The second primitive of an escaped character is the one its code is encoded to. */
  lemma ResolvedPrims(esc: Character, prev: seq<Bit>, raw: seq<Bit>)
    requires IsFrame(raw)
    requires Sound(ResolveEscaped(esc, ParsePrimitive(prev, raw)))
    ensures PrimsOf(RequestOf(ResolveEscaped(esc, ParsePrimitive(prev, raw)))) == [ESC_PRIM, PrimIn(raw)]
  {
    var c := ParsePrimitive(prev, raw);
    ResolvedFaults(esc, c);
    ParsedPrim(prev, raw);
    if c.kind.DataKind? {
      assert c == c.(value := Some(c.value.value));
      EscapedByte(esc, c, c.value.value);
    }
  }

  lemma EscapedFrames(e: Encoder, d: Decoder, f: seq<Bit>, g: seq<Bit>)
    requires Synced(e, d) && IsFrame(f) && IsFrame(g) && ParsePrimitive(d.prev, f).kind.EscKind?
    requires Sound(ResolveEscaped(ParsePrimitive(d.prev, f), ParsePrimitive(f[2..], g)))
    ensures var esc := ParsePrimitive(d.prev, f);
            var c := ResolveEscaped(esc, ParsePrimitive(f[2..], g));
            && TakeFrame(d, f) == Decoded(Decoder(f[2..], [], Some(esc)), [])
            && TakeFrame(Decoder(f[2..], [], Some(esc)), g) == Decoded(Decoder(g[2..], [], None), [c])
            && Encode(e, RequestOf(c)) == f + g
            && Synced(After(e, RequestOf(c)), Decoder(g[2..], [], None))
  {
    var esc := ParsePrimitive(d.prev, f);
    ResolvedFaults(esc, ParsePrimitive(f[2..], g));
    ResolvedPrims(esc, f[2..], g);
    assert PrimIn(f) == ESC_PRIM by { assert f[2..] == [f[2], f[3]]; }
    PassingFrame(e, f);
    var e1 := AfterPrim(e, ESC_PRIM);
    PassingFrame(e1, g);
    TwoPrims(e, ESC_PRIM, PrimIn(g));
    FlattenTwo(f, g);
  }

  lemma FlattenTwo(f: seq<Bit>, g: seq<Bit>)
    ensures Flatten([f, g]) == f + g
  {
    assert [f, g][1..] == [g];
    assert Flatten([g]) == g + Flatten([]);
  }

  /** The first whole primitive of a stream, or the empty sequence when there is none. */
  function FirstFrame(bits: seq<Bit>): (f: seq<Bit>)
    ensures f == [] || (IsFrame(f) && f <= bits)
  {
    if |bits| >= 2 && |bits| >= FrameLength(bits[1]) then bits[..FrameLength(bits[1])] else []
  }

  lemma NoFirstFrame(d: Decoder, bits: seq<Bit>)
    requires d.buffer == [] && FirstFrame(bits) == []
    ensures Push(d, bits) == Decoded(d.(buffer := bits), [])
  {
    assert d.buffer + bits == bits;
    PartialFillsBuffer(d, bits);
  }

  lemma WithFirstFrame(d: Decoder, bits: seq<Bit>)
    requires d.buffer == [] && FirstFrame(bits) != []
    ensures var f := FirstFrame(bits);
            var t := TakeFrame(d, f);
            var u := Push(t.state, bits[|f|..]);
            Push(d, bits) == Decoded(u.state, t.chars + u.chars)
  {
    var f := FirstFrame(bits);
    assert bits == f + bits[|f|..];
    FramePush(d, f);
    PushSplits(d, f, bits[|f|..]);
  }

  /** The bits of the first character of a stream that leaves nothing pending. */
  lemma FirstCharacter(e: Encoder, d: Decoder, bits: seq<Bit>) returns (n: nat)
    requires Synced(e, d) && bits != []
    requires Push(d, bits).state.buffer == [] && Push(d, bits).state.pending == None
    ensures 0 < n <= |bits|
    ensures var t := Push(d, bits[..n]);
            && |t.chars| == 1
            && (Sound(t.chars[0]) ==>
                  && Encode(e, RequestOf(t.chars[0])) == bits[..n]
                  && Synced(After(e, RequestOf(t.chars[0])), t.state))
  {
    var f := FirstFrame(bits);
    if f == [] {
      NoFirstFrame(d, bits);
    }
    n := |f|;
    assert bits[..n] == f;
    FramePush(d, f);
    var c := ParsePrimitive(d.prev, f);
    if c.kind.EscKind? {
      n := EscapedCharacter(e, d, bits);
    } else if Sound(c) {
      PlainFrame(e, d, f);
    }
  }

  lemma EscapedCharacter(e: Encoder, d: Decoder, bits: seq<Bit>) returns (n: nat)
    requires Synced(e, d) && FirstFrame(bits) != []
    requires ParsePrimitive(d.prev, FirstFrame(bits)).kind.EscKind?
    requires Push(d, bits).state.pending == None
    ensures 0 < n <= |bits|
    ensures var t := Push(d, bits[..n]);
            && |t.chars| == 1
            && (Sound(t.chars[0]) ==>
                  && Encode(e, RequestOf(t.chars[0])) == bits[..n]
                  && Synced(After(e, RequestOf(t.chars[0])), t.state))
  {
    var f := FirstFrame(bits);
    WithFirstFrame(d, bits);
    var d1 := TakeFrame(d, f).state;
    var rest := bits[|f|..];
    var g := FirstFrame(rest);
    if g == [] {
      NoFirstFrame(d1, rest);
    }
    n := |f| + |g|;
    assert bits[..n] == f + g;
    FramePush(d, f);
    FramePush(d1, g);
    PushSplits(d, f, g);
    var c := ResolveEscaped(ParsePrimitive(d.prev, f), ParsePrimitive(f[2..], g));
    if Sound(c) {
      EscapedFrames(e, d, f, g);
    }
  }

  lemma SoundParts(a: seq<Character>, b: seq<Character>)
    requires AllSound(a + b)
    ensures AllSound(a) && AllSound(b)
  {
    forall i | 0 <= i < |a| ensures Sound(a[i]) { assert a[i] == (a + b)[i]; }
    forall i | 0 <= i < |b| ensures Sound(b[i]) { assert b[i] == (a + b)[|a| + i]; }
  }

  /** Main result: a stream that decodes without parity or escape error, and leaves nothing
      pending, is exactly what its characters encode to. */
  lemma {:induction false} DecodeThenEncode(e: Encoder, d: Decoder, bits: seq<Bit>)
    requires Synced(e, d)
    requires AllSound(Push(d, bits).chars)
    requires Push(d, bits).state.buffer == [] && Push(d, bits).state.pending == None
    ensures EncodeAll(e, RequestsOf(Push(d, bits).chars)) == bits
    ensures Synced(AfterAll(e, RequestsOf(Push(d, bits).chars)), Push(d, bits).state)
    decreases |bits|
  {
    if bits != [] {
      var n := FirstCharacter(e, d, bits);
      assert bits == bits[..n] + bits[n..];
      PushSplits(d, bits[..n], bits[n..]);
      var t := Push(d, bits[..n]);
      var u := Push(t.state, bits[n..]);
      SoundParts(t.chars, u.chars);
      DecodeThenEncode(After(e, RequestOf(t.chars[0])), t.state, bits[n..]);
      assert (t.chars + u.chars)[1..] == u.chars;
    }
  }
}
