/**
 The encoder and decoder objects of characters.py, proved against the functions of
 module Characters.
 */
module CodecObjects {
  import opened Wrappers
  import opened Bits
  import opened Characters

  /** The primitives still to be encoded, the next one first. */
  lemma FirstOfRest(e: Encoder, ps: seq<Prim>, i: nat)
    requires AllPrimsOk(ps) && i < |ps|
    ensures AfterPrims(e, ps[i..]) == AfterPrims(AfterPrim(e, ps[i]), ps[i + 1..])
    ensures forall bits: seq<Bit> ::
              bits + Flatten(Frames(e, ps[i..]))
              == (bits + FrameFor(e, ps[i])) + Flatten(Frames(AfterPrim(e, ps[i]), ps[i + 1..]))
  {
    assert ps[i..][1..] == ps[i + 1..];
    var rest := Flatten(Frames(AfterPrim(e, ps[i]), ps[i + 1..]));
    assert Flatten(Frames(e, ps[i..])) == FrameFor(e, ps[i]) + rest;
    assert forall bits: seq<Bit> :: bits + (FrameFor(e, ps[i]) + rest) == (bits + FrameFor(e, ps[i])) + rest;
  }

  class CharEncoder {
    var prevContentBits: seq<Bit>
    var badParityOffsets: seq<nat>

    constructor (initial: seq<Bit>)
      ensures View() == Encoder(initial, [])
    {
      prevContentBits, badParityOffsets := initial, [];
    }

    function View(): Encoder
      reads this
    {
      Encoder(prevContentBits, badParityOffsets)
    }

    method Reset(initial: seq<Bit>)
      modifies this
      ensures View() == Encoder(initial, [])
    {
      prevContentBits, badParityOffsets := initial, [];
    }

    /** A negative offset is refused and changes nothing. */
    method DoForceBadParity(offset: int) returns (accepted: bool)
      modifies this
      ensures accepted <==> offset >= 0
      ensures View() == if offset >= 0 then ForceBadParity(old(View()), offset) else old(View())
    {
      if offset < 0 {
        return false;
      }
      badParityOffsets := badParityOffsets + [offset];
      accepted := true;
    }

    method EncodePrimitive(p: Prim) returns (bits: seq<Bit>)
      modifies this
      ensures bits == FrameFor(old(View()), p) && View() == AfterPrim(old(View()), p)
    {
      var parity := ComputeParity(prevContentBits, p.flag);
      if 0 in badParityOffsets {
        parity := Flip(parity);
      }
      bits := [parity, p.flag] + p.content;
      prevContentBits := p.content;
      badParityOffsets := Advance(badParityOffsets);
    }

    method DoEncode(r: Request) returns (bits: seq<Bit>)
      modifies this
      ensures bits == Encode(old(View()), r) && View() == AfterPrims(old(View()), PrimsOf(r))
    {
      var ps := PrimsOf(r);
      bits := [];
      ghost var e := View();
      for i := 0 to |ps|
        invariant bits + Flatten(Frames(View(), ps[i..])) == Encode(e, r)
        invariant AfterPrims(View(), ps[i..]) == AfterPrims(e, ps)
      {
        FirstOfRest(View(), ps, i);
        var more := EncodePrimitive(ps[i]);
        bits := bits + more;
      }
      assert bits + [] == bits;
    }
  }

  class CharDecoder {
    const initialPrev: seq<Bit>
    var prevContentBits: seq<Bit>
    var buffer: seq<Bit>
    var expectedLen: Option<nat>
    var pendingEscape: Option<Character>

    /** The remembered length is that of the primitive being collected, from its second
        bit on. */
    predicate Valid()
      reads this
    {
      && DecoderOk(View())
      && expectedLen == if |buffer| < 2 then None else Some(FrameLength(buffer[1]))
    }

    function View(): Decoder
      reads this
    {
      Decoder(prevContentBits, buffer, pendingEscape)
    }

    constructor (initial: seq<Bit>)
      ensures Valid() && View() == Decoder(initial, [], None) && initialPrev == initial
    {
      initialPrev, prevContentBits := initial, initial;
      buffer, expectedLen, pendingEscape := [], None, None;
    }

    method Reset()
      modifies this
      ensures Valid() && View() == Decoder(initialPrev, [], None)
    {
      prevContentBits := initialPrev;
      buffer, expectedLen, pendingEscape := [], None, None;
    }

    method ResolvePrimitive(c: Character) returns (chars: seq<Character>)
      modifies this
      ensures unchanged(`prevContentBits) && unchanged(`buffer) && unchanged(`expectedLen)
      ensures old(pendingEscape) == None && c.kind.EscKind? ==>
                chars == [] && pendingEscape == Some(c)
      ensures old(pendingEscape) == None && !c.kind.EscKind? ==>
                chars == [c] && pendingEscape == None
      ensures old(pendingEscape) != None ==>
                chars == [ResolveEscaped(old(pendingEscape).value, c)] && pendingEscape == None
    {
      if pendingEscape == None {
        if c.kind.EscKind? {
          pendingEscape := Some(c);
          return [];
        }
        return [c];
      }
      var escaped := pendingEscape.value;
      pendingEscape := None;
      chars := [ResolveEscaped(escaped, c)];
    }

    method DoFeed(bit: Bit) returns (chars: seq<Character>)
      requires Valid()
      modifies this
      ensures Valid() && Decoded(View(), chars) == FeedBit(old(View()), bit)
    {
      ghost var d := View();
      buffer := buffer + [bit];
      if |buffer| == 2 {
        expectedLen := Some(FrameLength(buffer[1]));
      }
      if expectedLen == None || |buffer| < expectedLen.value {
        return [];
      }
      var raw := buffer;
      buffer := [];
      expectedLen := None;
      var c := ParsePrimitive(prevContentBits, raw);
      prevContentBits := raw[2..];
      chars := ResolvePrimitive(c);
      assert TakeFrame(d, raw) == Decoded(View(), chars);
    }

    method DoPush(bits: seq<Bit>) returns (chars: seq<Character>)
      requires Valid()
      modifies this
      ensures Valid() && Decoded(View(), chars) == Push(old(View()), bits)
    {
      chars := [];
      ghost var d := View();
      for i := 0 to |bits|
        invariant Valid()
        invariant Decoded(View(), chars) == Push(d, bits[..i])
      {
        PushOneMore(d, bits[..i], bits[i]);
        assert bits[..i] + [bits[i]] == bits[..i + 1];
        var more := DoFeed(bits[i]);
        chars := chars + more;
      }
      assert bits[..|bits|] == bits;
    }
  }

  lemma PushOneMore(d: Decoder, bits: seq<Bit>, bit: Bit)
    ensures var t := Push(d, bits);
            var u := FeedBit(t.state, bit);
            Push(d, bits + [bit]) == Decoded(u.state, t.chars + u.chars)
  {
    PushSplits(d, bits, [bit]);
    var t := Push(d, bits);
    var u := FeedBit(t.state, bit);
    assert Push(u.state, []) == Decoded(u.state, []);
    assert u.chars + [] == u.chars;
  }
}
