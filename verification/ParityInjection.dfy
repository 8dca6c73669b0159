/**
 The encoder's error injection: which primitives come out with wrong parity, for any
 interleaving of requests and encodings, and what a decoder sees of them.
 */
module ParityInjection {
  import opened Wrappers
  import opened Bits
  import opened Characters
  import opened CodecRoundTrip
  import opened CodecErrors

  /** A call on the encoder: ask for a bad parity, or encode one primitive. */
  datatype Call = Force(offset: nat) | Put(prim: Prim)

  predicate CallsOk(cs: seq<Call>) {
    forall i :: 0 <= i < |cs| && cs[i].Put? ==> PrimOk(cs[i].prim)
  }

  function Emitted(e: Encoder, cs: seq<Call>): (fs: seq<seq<Bit>>)
    requires CallsOk(cs)
    ensures AllFrames(fs) && |fs| == Puts(cs)
    decreases |cs|
  {
    if cs == [] then []
    else
      match cs[0]
      case Force(k) => Emitted(ForceBadParity(e, k), cs[1..])
      case Put(p) => [FrameFor(e, p)] + Emitted(AfterPrim(e, p), cs[1..])
  }

  /** Number of primitives encoded. */
  function Puts(cs: seq<Call>): nat
    decreases |cs|
  {
    if cs == [] then 0 else (if cs[0].Put? then 1 else 0) + Puts(cs[1..])
  }

  /** Some request made after exactly m - k primitives carried the offset k. */
  ghost predicate Requested(cs: seq<Call>, m: nat) {
    exists i :: 0 <= i < |cs| && cs[i].Force? && Puts(cs[..i]) + cs[i].offset == m
  }

  lemma RequestedStep(cs: seq<Call>, m: nat)
    requires cs != []
    ensures cs[0].Force? ==> (Requested(cs, m) <==> cs[0].offset == m || Requested(cs[1..], m))
    ensures cs[0].Put? ==> (Requested(cs, m) <==> m > 0 && Requested(cs[1..], m - 1))
  {
    var rest := cs[1..];
    var first := if cs[0].Put? then 1 else 0;
    forall i | 0 < i < |cs| ensures Puts(cs[..i]) == first + Puts(rest[..i - 1]) {
      assert cs[..i][1..] == rest[..i - 1];
    }
    assert Puts(cs[..0]) == 0;
    if Requested(cs, m) {
      var i :| 0 <= i < |cs| && cs[i].Force? && Puts(cs[..i]) + cs[i].offset == m;
      if i > 0 {
        assert rest[i - 1] == cs[i] && Puts(rest[..i - 1]) + rest[i - 1].offset == m - first;
      }
    }
    if m >= first && Requested(rest, m - first) {
      var i :| 0 <= i < |rest| && rest[i].Force? && Puts(rest[..i]) + rest[i].offset == m - first;
      assert cs[i + 1] == rest[i] && Puts(cs[..i + 1]) + cs[i + 1].offset == m;
    }
  }

  lemma WrongHead(e: Encoder, p: Prim, fs: seq<seq<Bit>>, m: nat)
    requires PrimOk(p) && AllFrames(fs) && m <= |fs|
    ensures AllFrames([FrameFor(e, p)] + fs)
    ensures m == 0 ==> (Wrong(e.prev, [FrameFor(e, p)] + fs, m) <==> 0 in e.badOffsets)
    ensures m > 0 ==> (Wrong(e.prev, [FrameFor(e, p)] + fs, m) <==> Wrong(p.content, fs, m - 1))
  {
    assert FrameFor(e, p)[2..] == p.content;
  }

  /** Main result: primitive `m` comes out with wrong parity exactly when it was asked for,
      by the requests pending at the start or by some request made since; repeated
      requests for the same primitive count once. */
  lemma {:induction false} InjectionIsExact(e: Encoder, cs: seq<Call>, m: nat)
    requires CallsOk(cs) && m < Puts(cs)
    ensures Wrong(e.prev, Emitted(e, cs), m) <==> m in e.badOffsets || Requested(cs, m)
    decreases |cs|
  {
    RequestedStep(cs, m);
    match cs[0]
    case Force(k) =>
      InjectionIsExact(ForceBadParity(e, k), cs[1..], m);
    case Put(p) =>
      WrongHead(e, p, Emitted(AfterPrim(e, p), cs[1..]), m);
      if m > 0 {
        InjectionIsExact(AfterPrim(e, p), cs[1..], m - 1);
        AdvanceShifts(e.badOffsets, m - 1);
      }
  }

  /** Main result: the checks a synchronised decoder reports, those of a pending ESC last,
      fail at exactly the primitives that were asked for. */
  lemma DecoderSeesInjection(e: Encoder, d: Decoder, cs: seq<Call>)
    requires CallsOk(cs) && Synced(e, d)
    ensures var t := Push(d, Flatten(Emitted(e, cs)));
            var seen := Fails(t.chars) + HeldFails(t.state);
            |seen| == Puts(cs) && forall m :: 0 <= m < Puts(cs) ==> (seen[m] <==> Requested(cs, m))
  {
    var fs := Emitted(e, cs);
    FramesPush(d, fs);
    ChecksAreFrameChecks(d, fs);
    var t := TakeFrames(d, fs);
    assert HeldFails(d) + FrameFails(d.prev, fs) == FrameFails(d.prev, fs);
    forall m | 0 <= m < Puts(cs) ensures FrameFails(d.prev, fs)[m] <==> Requested(cs, m) {
      InjectionIsExact(e, cs, m);
    }
  }
}
