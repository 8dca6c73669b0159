/** Line bits, bytes, and the least-significant-bit-first order between them. */
module Bits {

  type Bit = b: int | 0 <= b <= 1

  type Byte = v: int | 0 <= v <= 0xFF

  function Flip(b: Bit): Bit {
    1 - b
  }

  /** Exclusive or. */
  function Xor(a: Bit, b: Bit): Bit {
    if a == b then 0 else 1
  }

  /** Number of ones. */
  function Ones(bits: seq<Bit>): nat
    decreases |bits|
  {
    if bits == [] then 0 else bits[0] + Ones(bits[1..])
  }

  function Pow2(n: nat): nat {
    if n == 0 then 1 else 2 * Pow2(n - 1)
  }

  /** The `n` low bits of a value, least significant first. */
  function ToBits(v: nat, n: nat): (bits: seq<Bit>)
    ensures |bits| == n
    decreases n
  {
    if n == 0 then [] else [v % 2] + ToBits(v / 2, n - 1)
  }

  function FromBits(bits: seq<Bit>): (v: nat)
    ensures v < Pow2(|bits|)
    decreases |bits|
  {
    if bits == [] then 0 else bits[0] + 2 * FromBits(bits[1..])
  }

  lemma {:induction false} ToFromBits(v: nat, n: nat)
    requires v < Pow2(n)
    ensures FromBits(ToBits(v, n)) == v
    decreases n
  {
    if n > 0 {
      ToFromBits(v / 2, n - 1);
      assert ToBits(v, n)[1..] == ToBits(v / 2, n - 1);
    }
  }

  lemma {:induction false} FromToBits(bits: seq<Bit>)
    ensures ToBits(FromBits(bits), |bits|) == bits
    decreases |bits|
  {
    if bits != [] {
      FromToBits(bits[1..]);
      assert bits == [bits[0]] + bits[1..];
    }
  }

  lemma EightBits()
    ensures Pow2(8) == 256
  {
    assert Pow2(4) == 16;
  }

  function ByteToBits(v: Byte): (bits: seq<Bit>)
    ensures |bits| == 8
  {
    ToBits(v, 8)
  }

  function BitsToByte(bits: seq<Bit>): Byte
    requires |bits| == 8
  {
    EightBits();
    FromBits(bits)
  }

  lemma ByteRoundTrip(v: Byte)
    ensures BitsToByte(ByteToBits(v)) == v
  {
    EightBits();
    ToFromBits(v, 8);
  }

  lemma BitsRoundTrip(bits: seq<Bit>)
    requires |bits| == 8
    ensures ByteToBits(BitsToByte(bits)) == bits
  {
    FromToBits(bits);
  }

  lemma {:induction false} TopBit(bits: seq<Bit>, b: Bit)
    ensures FromBits(bits + [b]) == FromBits(bits) + b * Pow2(|bits|)
    decreases |bits|
  {
    if bits == [] {
      assert bits + [b] == [b];
    } else {
      assert (bits + [b])[1..] == bits[1..] + [b];
      TopBit(bits[1..], b);
    }
  }

  /** The program's accumulation loop, each bit added at its own weight. */
  method LsbBitsToInt(bits: seq<Bit>) returns (value: nat)
    ensures value == FromBits(bits)
  {
    value := 0;
    var weight: nat := 1;
    for i := 0 to |bits|
      invariant value == FromBits(bits[..i]) && weight == Pow2(i)
    {
      TopBit(bits[..i], bits[i]);
      assert bits[..i] + [bits[i]] == bits[..i + 1];
      value := value + bits[i] * weight;
      weight := 2 * weight;
    }
    assert bits[..|bits|] == bits;
  }
}
