/**
 What the parity chain detects: every single flipped bit, and, for the error injection
 of the encoder, exactly the primitives that were asked for.
 */
module CodecErrors {
  import opened Wrappers
  import opened Bits
  import opened Characters
  import opened CodecRoundTrip

  // ----- parity checks, frame by frame ------------------------------------------------------

  /** Frame `m` of a stream fails its check, the content before the stream being `prev`. */
  predicate Wrong(prev: seq<Bit>, fs: seq<seq<Bit>>, m: nat)
    requires m < |fs| && AllFrames(fs)
  {
    fs[m][0] != ComputeParity(if m == 0 then prev else fs[m - 1][2..], fs[m][1])
  }

  function FrameFails(prev: seq<Bit>, fs: seq<seq<Bit>>): seq<bool>
    requires AllFrames(fs)
  {
    seq(|fs|, m requires 0 <= m < |fs| => Wrong(prev, fs, m))
  }

  function CheckFails(cs: seq<Check>): seq<bool> {
    seq(|cs|, i requires 0 <= i < |cs| => !Passes(cs[i]))
  }

  /** The outcome of every parity check reported by a sequence of characters, in order. */
  function Fails(cs: seq<Character>): seq<bool>
    decreases |cs|
  {
    if cs == [] then [] else CheckFails(cs[0].checks) + Fails(cs[1..])
  }

  function HeldFails(d: Decoder): seq<bool> {
    if d.pending.Some? then CheckFails(d.pending.value.checks) else []
  }

  lemma FrameFailsStep(prev: seq<Bit>, fs: seq<seq<Bit>>)
    requires AllFrames(fs) && fs != []
    ensures FrameFails(prev, fs) == [Wrong(prev, fs, 0)] + FrameFails(fs[0][2..], fs[1..])
  {
    var rest := fs[1..];
    forall m | 0 <= m < |rest| ensures Wrong(fs[0][2..], rest, m) == Wrong(prev, fs, m + 1) {
    }
  }

  lemma {:induction false} FailsSplits(a: seq<Character>, b: seq<Character>)
    ensures Fails(a + b) == Fails(a) + Fails(b)
    decreases |a|
  {
    if a == [] {
      assert a + b == b;
    } else {
      assert (a + b)[1..] == a[1..] + b;
      FailsSplits(a[1..], b);
    }
  }

  lemma CombinedChecks(esc: Character, c: Character)
    ensures CheckFails(ResolveEscaped(esc, c).checks) == CheckFails(esc.checks) + CheckFails(c.checks)
  {
  }

  lemma FrameCheck(d: Decoder, f: seq<Bit>)
    requires IsFrame(f)
    ensures var t := TakeFrame(d, f);
            HeldFails(d) + [f[0] != ComputeParity(d.prev, f[1])] == Fails(t.chars) + HeldFails(t.state)
  {
    var c := ParsePrimitive(d.prev, f);
    assert CheckFails(c.checks) == [f[0] != ComputeParity(d.prev, f[1])];
    if d.pending.Some? {
      CombinedChecks(d.pending.value, c);
      var r := ResolveEscaped(d.pending.value, c);
      assert Fails([r]) == CheckFails(r.checks) + Fails([]);
    } else if !c.kind.EscKind? {
      assert Fails([c]) == CheckFails(c.checks) + Fails([]);
    }
  }

  /** The checks that the decoded characters carry are the checks of the frames, each once,
      in order; those of a pending ESC are still held. */
  lemma {:induction false} ChecksAreFrameChecks(d: Decoder, fs: seq<seq<Bit>>)
    requires AllFrames(fs)
    ensures var t := TakeFrames(d, fs);
            HeldFails(d) + FrameFails(d.prev, fs) == Fails(t.chars) + HeldFails(t.state)
    decreases |fs|
  {
    if fs != [] {
      var first := TakeFrame(d, fs[0]);
      var rest := TakeFrames(first.state, fs[1..]);
      FrameCheck(d, fs[0]);
      ChecksAreFrameChecks(first.state, fs[1..]);
      FrameFailsStep(d.prev, fs);
      FailsSplits(first.chars, rest.chars);
      Chain(HeldFails(d), [Wrong(d.prev, fs, 0)], Fails(first.chars), HeldFails(first.state),
            FrameFails(fs[0][2..], fs[1..]), Fails(rest.chars), HeldFails(rest.state));
    }
  }

  lemma Chain<T>(h: seq<T>, w: seq<T>, a: seq<T>, h1: seq<T>, ws: seq<T>, b: seq<T>, h2: seq<T>)
    requires h + w == a + h1 && h1 + ws == b + h2
    ensures h + (w + ws) == (a + b) + h2
  {
    assert h + (w + ws) == (h + w) + ws;
    assert (a + h1) + ws == a + (h1 + ws);
    assert a + (b + h2) == (a + b) + h2;
  }

  // ----- what an encoder without injection sends ----------------------------------------------

  function PrevAt(e: Encoder, ps: seq<Prim>, m: nat): seq<Bit>
    requires m <= |ps|
  {
    if m == 0 then e.prev else ps[m - 1].content
  }

  lemma {:induction false} FrameAt(e: Encoder, ps: seq<Prim>, m: nat)
    requires AllPrimsOk(ps) && m < |ps|
    ensures Frames(e, ps)[m][1..] == [ps[m].flag] + ps[m].content
    ensures Frames(e, ps)[m][0] == ComputeParity(PrevAt(e, ps, m), ps[m].flag)
            <==> m !in e.badOffsets
    decreases m
  {
    if m > 0 {
      FrameAt(AfterPrim(e, ps[0]), ps[1..], m - 1);
      AdvanceShifts(e.badOffsets, m - 1);
    }
  }

  lemma {:induction false} AdvanceShifts(offsets: seq<nat>, k: nat)
    ensures k in Advance(offsets) <==> k + 1 in offsets
    decreases |offsets|
  {
    if offsets != [] {
      AdvanceShifts(offsets[1..], k);
    }
  }

  /** The frames that fail are those whose distance was requested, and no others. */
  lemma InjectedFrames(e: Encoder, ps: seq<Prim>, m: nat)
    requires AllPrimsOk(ps) && m < |ps|
    ensures Wrong(e.prev, Frames(e, ps), m) <==> m in e.badOffsets
  {
    FrameAt(e, ps, m);
    var fs := Frames(e, ps);
    assert fs[m][1] == fs[m][1..][0] == ps[m].flag;
    if m > 0 {
      FrameAt(e, ps, m - 1);
      assert fs[m - 1][2..] == fs[m - 1][1..][1..];
    }
  }

  // ----- single flipped bits: where the checks fail --------------------------------------------

  lemma {:induction false} OnesFlip(bits: seq<Bit>, j: nat)
    requires j < |bits|
    ensures (Ones(bits[j := Flip(bits[j])]) + Ones(bits)) % 2 == 1
    decreases j
  {
    var flipped := bits[j := Flip(bits[j])];
    if j == 0 {
      assert flipped[1..] == bits[1..];
    } else {
      assert flipped[1..] == bits[1..][j - 1 := Flip(bits[j])];
      OnesFlip(bits[1..], j - 1);
    }
  }

  function FlipIn(f: seq<Bit>, j: nat): seq<Bit>
    requires j < |f|
  {
    f[j := Flip(f[j])]
  }

  predicate NoneWrong(prev: seq<Bit>, fs: seq<seq<Bit>>)
    requires AllFrames(fs)
  {
    forall m: nat :: m < |fs| ==> !Wrong(prev, fs, m)
  }

  /** The parity expected after a content changes when one bit of the content does. */
  lemma FlipChangesParity(f: seq<Bit>, j: nat, flag: Bit)
    requires 2 <= j < |f|
    ensures ComputeParity(FlipIn(f, j)[2..], flag) != ComputeParity(f[2..], flag)
  {
    assert FlipIn(f, j)[2..] == f[2..][j - 2 := Flip(f[j])];
    OnesFlip(f[2..], j - 2);
  }

  lemma FlipKeepsFrames(fs: seq<seq<Bit>>, i: nat, j: nat)
    requires AllFrames(fs) && i < |fs| && j < |fs[i]| && j != 1
    ensures AllFrames(fs[i := FlipIn(fs[i], j)])
  {
  }

  /** Flipping the parity bit of frame `i` fails that frame; flipping a content bit fails the
      next one; every other check still passes. */
  lemma FlipFailsOnce(prev: seq<Bit>, fs: seq<seq<Bit>>, i: nat, j: nat, m: nat)
    requires AllFrames(fs) && NoneWrong(prev, fs) && i < |fs| && m < |fs| && j < |fs[i]| && j != 1
    ensures AllFrames(fs[i := FlipIn(fs[i], j)])
    ensures Wrong(prev, fs[i := FlipIn(fs[i], j)], m) <==> m == if j == 0 then i else i + 1
  {
    FlipKeepsFrames(fs, i, j);
    var gs := fs[i := FlipIn(fs[i], j)];
    assert !Wrong(prev, fs, m);
    if m == i + 1 {
      if j == 0 {
        assert gs[i][2..] == fs[i][2..];
      } else {
        FlipChangesParity(fs[i], j, fs[m][1]);
      }
    }
  }

  lemma TakeFramesSplits(d: Decoder, a: seq<seq<Bit>>, b: seq<seq<Bit>>)
    requires AllFrames(a) && AllFrames(b)
    ensures AllFrames(a + b)
    ensures var t := TakeFrames(d, a);
            var u := TakeFrames(t.state, b);
            TakeFrames(d, a + b) == Decoded(u.state, t.chars + u.chars)
    decreases |a|
  {
    if a == [] {
      assert a + b == b;
    } else {
      assert (a + b)[1..] == a[1..] + b;
      var head := TakeFrame(d, a[0]);
      TakeFramesSplits(head.state, a[1..], b);
      var t := TakeFrames(head.state, a[1..]);
      var u := TakeFrames(t.state, b);
      assert head.chars + (t.chars + u.chars) == (head.chars + t.chars) + u.chars;
    }
  }

  /** A data primitive resolves whatever was pending. */
  lemma DataClears(d: Decoder, fs: seq<seq<Bit>>)
    requires AllFrames(fs) && fs != [] && fs[|fs| - 1][1] == 0
    ensures TakeFrames(d, fs).state.pending == None && TakeFrames(d, fs).state.buffer == []
  {
    var n := |fs| - 1;
    assert fs == fs[..n] + [fs[n]];
    TakeFramesSplits(d, fs[..n], [fs[n]]);
    TakeOneFrame(TakeFrames(d, fs[..n]).state, fs[n]);
  }

  /** Main result: after a flip of a parity or content bit before the final data primitive,
      the primitives are framed as before and exactly one parity check fails, that of the
      primitive itself or of the next. */
  lemma OneCheckFails(e: Encoder, d: Decoder, ps: seq<Prim>, v: Byte, i: nat, j: nat)
    requires Synced(e, d) && AllPrimsOk(ps) && i < |ps|
    requires j < |Frames(e, ps + [DataPrim(v)])[i]| && j != 1
    ensures var fs := Frames(e, ps + [DataPrim(v)]);
            var gs := fs[i := FlipIn(fs[i], j)];
            var t := Push(d, Flatten(gs));
            && AllFrames(gs) && t == TakeFrames(d, gs)
            && t.state.pending == None && t.state.buffer == []
            && |Fails(t.chars)| == |fs|
            && forall m :: 0 <= m < |fs| ==> (Fails(t.chars)[m] <==> m == if j == 0 then i else i + 1)
  {
    var all := ps + [DataPrim(v)];
    var fs := Frames(e, all);
    CleanFrames(e, all);
    FrameAt(e, all, |ps|);
    assert fs[|ps|][1] == fs[|ps|][1..][0] == 0;
    OneFlip(d, fs, i, j);
  }

  lemma CleanFrames(e: Encoder, ps: seq<Prim>)
    requires e.badOffsets == [] && AllPrimsOk(ps)
    ensures NoneWrong(e.prev, Frames(e, ps))
  {
    forall m: nat | m < |ps| ensures !Wrong(e.prev, Frames(e, ps), m) {
      InjectedFrames(e, ps, m);
    }
  }

  lemma NothingHeld(d: Decoder, fs: seq<seq<Bit>>)
    requires AllFrames(fs) && d.pending == None && TakeFrames(d, fs).state.pending == None
    ensures Fails(TakeFrames(d, fs).chars) == FrameFails(d.prev, fs)
  {
    ChecksAreFrameChecks(d, fs);
    var t := TakeFrames(d, fs);
    assert HeldFails(d) == [] && HeldFails(t.state) == [];
    assert [] + FrameFails(d.prev, fs) == FrameFails(d.prev, fs);
    assert Fails(t.chars) + [] == Fails(t.chars);
  }

  lemma OneFlip(d: Decoder, fs: seq<seq<Bit>>, i: nat, j: nat)
    requires d.buffer == [] && d.pending == None && AllFrames(fs) && NoneWrong(d.prev, fs)
    requires i < |fs| - 1 && j < |fs[i]| && j != 1 && fs[|fs| - 1][1] == 0
    ensures var gs := fs[i := FlipIn(fs[i], j)];
            var t := Push(d, Flatten(gs));
            && AllFrames(gs) && t == TakeFrames(d, gs)
            && t.state.pending == None && t.state.buffer == []
            && |Fails(t.chars)| == |fs|
            && forall m :: 0 <= m < |fs| ==> (Fails(t.chars)[m] <==> m == if j == 0 then i else i + 1)
  {
    var gs := fs[i := FlipIn(fs[i], j)];
    FlipKeepsFrames(fs, i, j);
    FramesPush(d, gs);
    DataClears(d, gs);
    NothingHeld(d, gs);
    var t := TakeFrames(d, gs);
    forall m | 0 <= m < |fs| ensures Fails(t.chars)[m] <==> m == if j == 0 then i else i + 1 {
      FlipFailsOnce(d.prev, fs, i, j, m);
      assert Fails(t.chars)[m] == Wrong(d.prev, gs, m);
    }
  }

  // ----- single flipped bits: every one is reported -------------------------------------------------

  predicate Reports(cs: seq<Character>) {
    exists i :: 0 <= i < |cs| && ParityError in cs[i].faults
  }

  lemma ReportsInPart(a: seq<Character>, b: seq<Character>)
    requires Reports(a) || Reports(b)
    ensures Reports(a + b)
  {
    if Reports(a) {
      var i :| 0 <= i < |a| && ParityError in a[i].faults;
      assert (a + b)[i] == a[i];
    } else {
      var i :| 0 <= i < |b| && ParityError in b[i].faults;
      assert (a + b)[|a| + i] == b[i];
    }
  }

  lemma ResolvedKeepsParityError(esc: Character, c: Character)
    requires ParityError in esc.faults || ParityError in c.faults
    ensures ParityError in ResolveEscaped(esc, c).faults
  {
    var own := CombineFaults(esc.faults, c.faults);
    CombineKeepsFaults(esc.faults, c.faults);
    CombineKeepsFaults(own, []);
    CombineKeepsFaults(own, [EscapeError]);
    CombineKeepsFaults(own, [ReservedCode]);
  }

  /** A pending ESC that failed its check is reported with the next primitive. */
  lemma PendingSurfaces(d: Decoder, bits: seq<Bit>)
    requires d.buffer == [] && d.pending.Some? && ParityError in d.pending.value.faults
    requires |bits| >= 10
    ensures Reports(Push(d, bits).chars)
  {
    var f := FirstFrame(bits);
    WithFirstFrame(d, bits);
    var c := ParsePrimitive(d.prev, f);
    ResolvedKeepsParityError(d.pending.value, c);
    var t := TakeFrame(d, f);
    assert t.chars[0] == ResolveEscaped(d.pending.value, c);
    ReportsInPart(t.chars, Push(t.state, bits[|f|..]).chars);
  }

  /** A first primitive that fails its check is reported, provided enough bits follow to
      resolve it should it be an ESC. */
  lemma BadFrameIsReported(d: Decoder, bits: seq<Bit>)
    requires d.buffer == [] && FirstFrame(bits) != []
    requires bits[0] != ComputeParity(d.prev, bits[1])
    requires bits[1] == 1 ==> |bits| >= 14
    ensures Reports(Push(d, bits).chars)
  {
    var f := FirstFrame(bits);
    WithFirstFrame(d, bits);
    var c := ParsePrimitive(d.prev, f);
    assert ParityError in c.faults;
    var t := TakeFrame(d, f);
    var rest := bits[|f|..];
    if d.pending.Some? {
      ResolvedKeepsParityError(d.pending.value, c);
      assert t.chars[0] == ResolveEscaped(d.pending.value, c);
      ReportsInPart(t.chars, Push(t.state, rest).chars);
    } else if c.kind.EscKind? {
      PendingSurfaces(t.state, rest);
      ReportsInPart(t.chars, Push(t.state, rest).chars);
    } else {
      assert t.chars[0] == c;
      ReportsInPart(t.chars, Push(t.state, rest).chars);
    }
  }

  /** The bits of a stream that ends in a data primitive: at least ten, and at least
      fourteen when the first primitive is a control one. */
  lemma {:induction false} EnoughBits(fs: seq<seq<Bit>>)
    requires AllFrames(fs) && fs != [] && fs[|fs| - 1][1] == 0
    ensures |Flatten(fs)| >= 10 && FirstFrame(Flatten(fs)) == fs[0]
    ensures fs[0][1] == 1 ==> |Flatten(fs)| >= 14
    decreases |fs|
  {
    var bits := Flatten(fs);
    assert bits[1] == fs[0][1];
    assert bits[..|fs[0]|] == fs[0];
    if |fs| > 1 {
      EnoughBits(fs[1..]);
    }
  }

  lemma FlippedHeadFails(prev: seq<Bit>, f: seq<Bit>, j: nat)
    requires IsFrame(f) && f[0] == ComputeParity(prev, f[1]) && j < 2
    ensures |FlipIn(f, j)| >= 4 && FlipIn(f, j)[0] != ComputeParity(prev, FlipIn(f, j)[1])
  {
  }

  /** The first primitive of the tail is hit: its parity or flag bit. */
  lemma HeadHit(d: Decoder, f: seq<Bit>, rest: seq<Bit>, j: nat)
    requires d.buffer == [] && IsFrame(f) && f[0] == ComputeParity(d.prev, f[1]) && |rest| >= 10
    requires j < 2
    ensures Reports(Push(d, FlipIn(f, j) + rest).chars)
  {
    FlippedHeadFails(d.prev, f, j);
    FailingHeadIsReported(d, FlipIn(f, j), rest);
  }

  lemma FailingHeadIsReported(d: Decoder, g: seq<Bit>, rest: seq<Bit>)
    requires d.buffer == [] && |g| >= 4 && |rest| >= 10 && g[0] != ComputeParity(d.prev, g[1])
    ensures Reports(Push(d, g + rest).chars)
  {
    var bits := g + rest;
    assert bits[0] == g[0] && bits[1] == g[1];
    assert FirstFrame(bits) != [];
    BadFrameIsReported(d, bits);
  }

  /** A content bit of the first primitive is hit: the second primitive reports it. */
  lemma ContentHit(d: Decoder, f: seq<Bit>, fs: seq<seq<Bit>>, j: nat)
    requires d.buffer == [] && IsFrame(f) && AllFrames(fs) && fs != [] && fs[|fs| - 1][1] == 0
    requires fs[0][0] == ComputeParity(f[2..], fs[0][1])
    requires 2 <= j < |f|
    ensures Reports(Push(d, FlipIn(f, j) + Flatten(fs)).chars)
  {
    var g := FlipIn(f, j);
    FramePush(d, g);
    PushSplits(d, g, Flatten(fs));
    var t := TakeFrame(d, g);
    EnoughBits(fs);
    FlipChangesParity(f, j, fs[0][1]);
    BadFrameIsReported(t.state, Flatten(fs));
    ReportsInPart(t.chars, Push(t.state, Flatten(fs)).chars);
  }

  /** The content that the first frame after `fs` is checked against. */
  lemma {:induction false} PrevFollows(d: Decoder, fs: seq<seq<Bit>>)
    requires d.buffer == [] && AllFrames(fs)
    ensures TakeFrames(d, fs).state.buffer == []
    ensures TakeFrames(d, fs).state.prev == if fs == [] then d.prev else fs[|fs| - 1][2..]
    decreases |fs|
  {
    if fs != [] {
      PrevFollows(TakeFrame(d, fs[0]).state, fs[1..]);
    }
  }

  lemma FirstFrameHit(d: Decoder, f: seq<Bit>, rest: seq<seq<Bit>>, j: nat)
    requires d.buffer == [] && IsFrame(f) && AllFrames(rest) && rest != [] && rest[|rest| - 1][1] == 0
    requires f[0] == ComputeParity(d.prev, f[1]) && rest[0][0] == ComputeParity(f[2..], rest[0][1])
    requires j < |f|
    ensures Reports(Push(d, FlipIn(f, j) + Flatten(rest)).chars)
  {
    EnoughBits(rest);
    if j < 2 {
      HeadHit(d, f, Flatten(rest), j);
    } else {
      ContentHit(d, f, rest, j);
    }
  }

  lemma ReportedBehind(d: Decoder, front: seq<seq<Bit>>, tail: seq<Bit>)
    requires d.buffer == [] && AllFrames(front)
    requires Reports(Push(TakeFrames(d, front).state, tail).chars)
    ensures Reports(Push(d, Flatten(front) + tail).chars)
  {
    FramesPush(d, front);
    PushSplits(d, Flatten(front), tail);
    var t := TakeFrames(d, front);
    ReportsInPart(t.chars, Push(t.state, tail).chars);
  }

  /** A hit on any bit of frame `i` of a clean stream that ends in a data primitive. */
  lemma FrameHit(d: Decoder, fs: seq<seq<Bit>>, i: nat, j: nat)
    requires d.buffer == [] && AllFrames(fs) && NoneWrong(d.prev, fs)
    requires i < |fs| - 1 && j < |fs[i]| && fs[|fs| - 1][1] == 0
    ensures Reports(Push(d, Flatten(fs[..i]) + (FlipIn(fs[i], j) + Flatten(fs[i + 1..]))).chars)
  {
    PrevFollows(d, fs[..i]);
    assert !Wrong(d.prev, fs, i) && !Wrong(d.prev, fs, i + 1);
    FirstFrameHit(TakeFrames(d, fs[..i]).state, fs[i], fs[i + 1..], j);
    ReportedBehind(d, fs[..i], FlipIn(fs[i], j) + Flatten(fs[i + 1..]));
  }

  // ----- from frames to bit positions ------------------------------------------------------------

  /** Bit `k` of a stream of frames is bit `j` of frame `i`. */
  lemma {:induction false} Locate(fs: seq<seq<Bit>>, k: nat) returns (i: nat, j: nat)
    requires k < |Flatten(fs)|
    ensures i < |fs| && j < |fs[i]|
    ensures k == |Flatten(fs[..i])| + j
    ensures Flatten(fs) == Flatten(fs[..i]) + (fs[i] + Flatten(fs[i + 1..]))
    decreases |fs|
  {
    if k < |fs[0]| {
      i, j := 0, k;
      assert Flatten(fs[..0]) == [];
    } else {
      i, j := Locate(fs[1..], k - |fs[0]|);
      var i0 := i;
      i := i0 + 1;
      assert fs[..i][1..] == fs[1..][..i0] && fs[i + 1..] == fs[1..][i0 + 1..];
      assert Flatten(fs[..i]) == fs[0] + Flatten(fs[1..][..i0]);
    }
  }

  function PrimsOfAll(rs: seq<Request>): (ps: seq<Prim>)
    ensures AllPrimsOk(ps)
    decreases |rs|
  {
    if rs == [] then [] else PrimsOf(rs[0]) + PrimsOfAll(rs[1..])
  }

  lemma {:induction false} EncodeAllIsFrames(e: Encoder, rs: seq<Request>)
    ensures EncodeAll(e, rs) == Flatten(Frames(e, PrimsOfAll(rs)))
    ensures AfterAll(e, rs) == AfterPrims(e, PrimsOfAll(rs))
    decreases |rs|
  {
    if rs != [] {
      var ps, qs := PrimsOf(rs[0]), PrimsOfAll(rs[1..]);
      EncodeAllIsFrames(After(e, rs[0]), rs[1..]);
      FramesSplit(e, ps, qs);
      FlattenSplits(Frames(e, ps), Frames(AfterPrims(e, ps), qs));
    }
  }

  lemma HitsBeforeLast(fs: seq<seq<Bit>>, i: nat, j: nat)
    requires i < |fs| && j < |fs[i]|
    ensures |Flatten(fs[..i])| + j < |Flatten(fs[..|fs| - 1])| ==> i < |fs| - 1
  {
  }

  /** A flip anywhere before the last frame of a clean stream that ends in a data primitive. */
  lemma StreamHit(d: Decoder, fs: seq<seq<Bit>>, k: nat)
    requires d.buffer == [] && AllFrames(fs) && NoneWrong(d.prev, fs)
    requires fs != [] && fs[|fs| - 1][1] == 0
    requires k < |Flatten(fs[..|fs| - 1])| && k < |Flatten(fs)|
    ensures Reports(Push(d, FlipIn(Flatten(fs), k)).chars)
  {
    var i, j := Locate(fs, k);
    HitsBeforeLast(fs, i, j);
    FrameHit(d, fs, i, j);
    assert FlipIn(Flatten(fs), k) == Flatten(fs[..i]) + (FlipIn(fs[i], j) + Flatten(fs[i + 1..]));
  }

  /** The frames of a sequence of requests followed by one data character. */
  lemma SentinelStream(e: Encoder, rs: seq<Request>, v: Byte) returns (fs: seq<seq<Bit>>)
    requires e.badOffsets == []
    ensures AllFrames(fs) && NoneWrong(e.prev, fs) && fs != [] && fs[|fs| - 1][1] == 0
    ensures Flatten(fs) == EncodeAll(e, rs) + Encode(AfterAll(e, rs), AskData(v))
    ensures Flatten(fs[..|fs| - 1]) == EncodeAll(e, rs)
  {
    var ps := PrimsOfAll(rs);
    var last := [DataPrim(v)];
    fs := Frames(e, ps + last);
    EncodeAllIsFrames(e, rs);
    FramesSplit(e, ps, last);
    FlattenSplits(Frames(e, ps), Frames(AfterPrims(e, ps), last));
    assert fs[..|ps|] == Frames(e, ps);
    CleanFrames(e, ps + last);
    FrameAt(e, ps + last, |ps|);
    assert fs[|ps|][1] == fs[|ps|][1..][0] == 0;
  }

  /** Main result: for every sequence of requests followed by one data character, whichever
      single bit of the sequence is flipped, flag bits included, some decoded character
      reports a parity error. */
  lemma SingleFlipIsReported(e: Encoder, d: Decoder, rs: seq<Request>, v: Byte, k: nat)
    requires Synced(e, d)
    requires k < |EncodeAll(e, rs)|
    ensures var stream := EncodeAll(e, rs) + Encode(AfterAll(e, rs), AskData(v));
            Reports(Push(d, FlipIn(stream, k)).chars)
  {
    var fs := SentinelStream(e, rs, v);
    StreamHit(d, fs, k);
  }

  /** Why a following primitive is needed: whatever the stream, a flip in the content of its
      last primitive fails no parity check, not even one still held with a pending ESC. */
  lemma LastFlipFailsNoCheck(e: Encoder, d: Decoder, ps: seq<Prim>, j: nat)
    requires Synced(e, d) && AllPrimsOk(ps) && ps != []
    requires 2 <= j < |Frames(e, ps)[|ps| - 1]|
    ensures var fs := Frames(e, ps);
            var t := Push(d, Flatten(fs[|ps| - 1 := FlipIn(fs[|ps| - 1], j)]));
            var seen := Fails(t.chars) + HeldFails(t.state);
            |seen| == |ps| && forall m :: 0 <= m < |ps| ==> !seen[m]
  {
    var fs := Frames(e, ps);
    var i := |ps| - 1;
    var gs := fs[i := FlipIn(fs[i], j)];
    CleanFrames(e, ps);
    FlipKeepsFrames(fs, i, j);
    FramesPush(d, gs);
    ChecksAreFrameChecks(d, gs);
    assert HeldFails(d) + FrameFails(d.prev, gs) == FrameFails(d.prev, gs);
    forall m | 0 <= m < |ps| ensures !FrameFails(d.prev, gs)[m] {
      FlipFailsOnce(d.prev, fs, i, j, m);
    }
  }

  lemma LastDataIsUncovered(e: Encoder, d: Decoder, v: Byte, j: nat)
    requires Synced(e, d) && 2 <= j < 10
    ensures |Encode(e, AskData(v))| == 10
    ensures !Reports(Push(d, FlipIn(Encode(e, AskData(v)), j)).chars)
  {
    var p := DataPrim(v);
    OnePrim(e, p);
    assert Flatten([FrameFor(e, p)]) == FrameFor(e, p) + Flatten([]);
    assert Encode(e, AskData(v)) == FrameFor(e, p);
    var g := FlipIn(FrameFor(e, p), j);
    FramePush(d, g);
    GoodFrame(e, p);
    assert Passes(CheckOf(d.prev, g));
    assert Push(d, g).chars == [ParsePrimitive(d.prev, g)];
  }

  /** After any legal sequence, a flip in the content of the data character that ends it goes
      unreported. */
  lemma LastContentIsUncovered(e: Encoder, d: Decoder, rs: seq<Request>, v: Byte, j: nat)
    requires Synced(e, d) && AllLegal(rs) && 2 <= j < 10
    ensures var last := Encode(AfterAll(e, rs), AskData(v));
            |last| == 10 && !Reports(Push(d, FlipIn(EncodeAll(e, rs) + last, |EncodeAll(e, rs)| + j)).chars)
  {
    EncodeThenDecode(e, d, rs);
    LastContentBehind(d, EncodeAll(e, rs), AfterAll(e, rs), rs, v, j);
  }

  lemma LastContentBehind(d: Decoder, front: seq<Bit>, mid: Encoder, rs: seq<Request>, v: Byte, j: nat)
    requires Synced(mid, Push(d, front).state) && AllMatch(Push(d, front).chars, rs) && 2 <= j < 10
    ensures var last := Encode(mid, AskData(v));
            |last| == 10 && !Reports(Push(d, FlipIn(front + last, |front| + j)).chars)
  {
    LastDataIsUncovered(mid, Push(d, front).state, v, j);
    UncoveredBehind(d, front, Encode(mid, AskData(v)), rs, j);
  }

  lemma FlipBehind(d: Decoder, front: seq<Bit>, last: seq<Bit>, j: nat)
    requires j < |last|
    ensures var t := Push(d, front);
            Push(d, FlipIn(front + last, |front| + j)).chars == t.chars + Push(t.state, FlipIn(last, j)).chars
  {
    assert FlipIn(front + last, |front| + j) == front + FlipIn(last, j);
    PushSplits(d, front, FlipIn(last, j));
  }

  lemma NeitherReports(a: seq<Character>, b: seq<Character>)
    requires !Reports(a) && !Reports(b)
    ensures !Reports(a + b)
  {
    forall i | 0 <= i < |a + b| ensures ParityError !in (a + b)[i].faults {
      if i < |a| {
        assert (a + b)[i] == a[i];
      } else {
        assert (a + b)[i] == b[i - |a|];
      }
    }
  }

  lemma MatchingReportNothing(cs: seq<Character>, rs: seq<Request>)
    requires AllMatch(cs, rs)
    ensures !Reports(cs)
  {
    forall i | 0 <= i < |cs| ensures ParityError !in cs[i].faults {
      assert Matches(cs[i], rs[i]);
    }
  }

  lemma UncoveredBehind(d: Decoder, front: seq<Bit>, last: seq<Bit>, rs: seq<Request>, j: nat)
    requires AllMatch(Push(d, front).chars, rs) && j < |last|
    requires !Reports(Push(Push(d, front).state, FlipIn(last, j)).chars)
    ensures !Reports(Push(d, FlipIn(front + last, |front| + j)).chars)
  {
    FlipBehind(d, front, last, j);
    MatchingReportNothing(Push(d, front).chars, rs);
    NeitherReports(Push(d, front).chars, Push(Push(d, front).state, FlipIn(last, j)).chars);
  }
}
