/**
 Data-Strobe coding (ds_codec.py): the data line carries the bit, and the strobe line
 changes exactly when the data line does not.
 */
module DataStrobe {
  import opened Wrappers
  import opened Bits

  /** The levels of the two lines. */
  datatype Levels = Levels(d: Bit, s: Bit)

  /** The levels after one more bit: exactly one line has changed. */
  function Drive(l: Levels, bit: Bit): Levels {
    Levels(bit, if bit == l.d then Flip(l.s) else l.s)
  }

  /** The line levels while a bit sequence is sent from given levels. */
  function Line(l: Levels, bits: seq<Bit>): (ls: seq<Levels>)
    ensures |ls| == |bits|
    decreases |bits|
  {
    if bits == [] then [] else [Drive(l, bits[0])] + Line(Drive(l, bits[0]), bits[1..])
  }

  /** The levels at the end. */
  function LastLevels(l: Levels, ls: seq<Levels>): Levels {
    if ls == [] then l else ls[|ls| - 1]
  }

  predicate OneChanged(a: Levels, b: Levels) {
    (a.d != b.d) != (a.s != b.s)
  }

  /** Exactly one line changes at every sample. */
  predicate WellFormed(l: Levels, ls: seq<Levels>)
    decreases |ls|
  {
    ls != [] ==> OneChanged(l, ls[0]) && WellFormed(ls[0], ls[1..])
  }

  function DataOf(ls: seq<Levels>): (bits: seq<Bit>)
    ensures |bits| == |ls|
  {
    seq(|ls|, i requires 0 <= i < |ls| => ls[i].d)
  }

  lemma {:induction false} LineDrives(l: Levels, bits: seq<Bit>, i: nat)
    requires i < |bits|
    ensures Line(l, bits)[i] == Drive(if i == 0 then l else Line(l, bits)[i - 1], bits[i])
    decreases i
  {
    if i > 0 {
      LineDrives(Drive(l, bits[0]), bits[1..], i - 1);
    }
  }

  /** Main result, the closed form: after n bits the strobe is the data level xor the two
      initial levels xor the parity of n. */
  lemma {:induction false} ClosedForm(l: Levels, bits: seq<Bit>, n: nat)
    requires 0 < n <= |bits|
    ensures Line(l, bits)[n - 1].d == bits[n - 1]
    ensures Line(l, bits)[n - 1].s == Xor(Xor(bits[n - 1], Xor(l.d, l.s)), n % 2)
    decreases n
  {
    LineDrives(l, bits, n - 1);
    if n > 1 {
      ClosedForm(l, bits, n - 1);
    }
  }

  /** Encoding a concatenation is encoding the parts, the levels carried over. */
  lemma {:induction false} LineSplits(l: Levels, a: seq<Bit>, b: seq<Bit>)
    ensures Line(l, a + b) == Line(l, a) + Line(LastLevels(l, Line(l, a)), b)
    decreases |a|
  {
    if a == [] {
      assert a + b == b;
    } else {
      assert (a + b)[1..] == a[1..] + b;
      var l1 := Drive(l, a[0]);
      LineSplits(l1, a[1..], b);
      assert LastLevels(l, Line(l, a)) == LastLevels(l1, Line(l1, a[1..]));
    }
  }

  /** Main result: a pair of level sequences obeys the transition rule exactly when it is
      the encoding of its own data line from the same initial levels. */
  lemma {:induction false} WellFormedIsEncoding(l: Levels, ls: seq<Levels>)
    ensures WellFormed(l, ls) <==> ls == Line(l, DataOf(ls))
    decreases |ls|
  {
    if ls != [] {
      var rest := ls[1..];
      assert DataOf(ls)[1..] == DataOf(rest) && DataOf(ls)[0] == ls[0].d;
      WellFormedIsEncoding(ls[0], rest);
      assert ls == [ls[0]] + rest;
      if ls == Line(l, DataOf(ls)) {
        assert ls[0] == Drive(l, ls[0].d);
        assert rest == Line(l, DataOf(ls))[1..];
      }
    }
  }

  lemma {:induction false} WellFormedGrows(l: Levels, ls: seq<Levels>, x: Levels)
    ensures WellFormed(l, ls + [x]) <==> WellFormed(l, ls) && OneChanged(LastLevels(l, ls), x)
    decreases |ls|
  {
    if ls == [] {
      assert ls + [x] == [x];
    } else {
      assert (ls + [x])[1..] == ls[1..] + [x];
      WellFormedGrows(ls[0], ls[1..], x);
    }
  }

  /** A fault in the beginning of a sequence is a fault of the sequence. */
  lemma {:induction false} WellFormedPrefix(l: Levels, ls: seq<Levels>, n: nat)
    requires n <= |ls| && WellFormed(l, ls)
    ensures WellFormed(l, ls[..n])
    decreases n
  {
    if n > 0 {
      WellFormedPrefix(ls[0], ls[1..], n - 1);
      assert ls[..n][1..] == ls[1..][..n - 1];
    }
  }

  // ----- the program's two loops -------------------------------------------------------------

  function Zip(ds: seq<Bit>, ss: seq<Bit>): (ls: seq<Levels>)
    requires |ds| == |ss|
    ensures |ls| == |ds|
  {
    seq(|ds|, i requires 0 <= i < |ds| => Levels(ds[i], ss[i]))
  }

  method DsEncode(bits: seq<Bit>, initialD: Bit, initialS: Bit) returns (ds: seq<Bit>, ss: seq<Bit>)
    ensures |ds| == |ss| == |bits|
    ensures Zip(ds, ss) == Line(Levels(initialD, initialS), bits)
  {
    ghost var l := Levels(initialD, initialS);
    var previousD, strobe := initialD, initialS;
    ds, ss := [], [];
    for i := 0 to |bits|
      invariant |ds| == |ss| == i
      invariant Zip(ds, ss) == Line(l, bits[..i])
      invariant Levels(previousD, strobe) == LastLevels(l, Line(l, bits[..i]))
    {
      assert bits[..i] + [bits[i]] == bits[..i + 1];
      LineSplits(l, bits[..i], [bits[i]]);
      OneBitLine(Levels(previousD, strobe), bits[i]);
      if bits[i] == previousD {
        strobe := Flip(strobe);
      }
      ds := ds + [bits[i]];
      ss := ss + [strobe];
      previousD := bits[i];
    }
    assert bits[..|bits|] == bits;
  }

  lemma OneBitLine(l: Levels, bit: Bit)
    ensures Line(l, [bit]) == [Drive(l, bit)]
  {
    assert Line(Drive(l, bit), []) == [];
  }

  datatype DecodeError = LengthMismatch | BadTransition(index: nat)

  /** With validation the data bits are returned exactly when the samples are well formed;
      otherwise the index of the first bad transition is reported. */
  method DsDecode(ds: seq<Bit>, ss: seq<Bit>, initialD: Bit, initialS: Bit, validate: bool)
    returns (r: Result<seq<Bit>, DecodeError>)
    ensures |ds| != |ss| ==> r == Err(LengthMismatch)
    ensures |ds| == |ss| ==>
              (r == Ok(ds) <==> !validate || WellFormed(Levels(initialD, initialS), Zip(ds, ss)))
    ensures r.Err? && |ds| == |ss| ==>
              && r.error.BadTransition? && r.error.index < |ds|
              && var l := Levels(initialD, initialS);
                 var ls := Zip(ds, ss);
                 && WellFormed(l, ls[..r.error.index])
                 && !WellFormed(l, ls[..r.error.index + 1])
  {
    if |ds| != |ss| {
      return Err(LengthMismatch);
    }
    ghost var l := Levels(initialD, initialS);
    ghost var ls := Zip(ds, ss);
    var previousD, previousS := initialD, initialS;
    if validate {
      for i := 0 to |ds|
        invariant WellFormed(l, ls[..i])
        invariant Levels(previousD, previousS) == LastLevels(l, ls[..i])
      {
        assert ls[..i + 1] == ls[..i] + [ls[i]];
        WellFormedGrows(l, ls[..i], ls[i]);
        var dChanged := ds[i] != previousD;
        var sChanged := ss[i] != previousS;
        if dChanged == sChanged {
          if WellFormed(l, ls) {
            WellFormedPrefix(l, ls, i + 1);
          }
          return Err(BadTransition(i));
        }
        previousD, previousS := ds[i], ss[i];
      }
      assert ls[..|ds|] == ls;
    }
    r := Ok(ds);
  }

  /** Main result for the validating decoder, in the program's own terms: it accepts
      exactly the encodings of the data line. */
  lemma AcceptsExactlyEncodings(l: Levels, ds: seq<Bit>, ss: seq<Bit>)
    requires |ds| == |ss|
    ensures WellFormed(l, Zip(ds, ss)) <==> Zip(ds, ss) == Line(l, ds)
  {
    WellFormedIsEncoding(l, Zip(ds, ss));
    assert DataOf(Zip(ds, ss)) == ds;
  }

  /** Every encoding is accepted, and decoded to the bits it was made from. */
  lemma EncodingsAreAccepted(l: Levels, bits: seq<Bit>)
    ensures WellFormed(l, Line(l, bits)) && DataOf(Line(l, bits)) == bits
  {
    forall i | 0 <= i < |bits| ensures DataOf(Line(l, bits))[i] == bits[i] {
      LineDrives(l, bits, i);
    }
    assert DataOf(Line(l, bits)) == bits;
    WellFormedIsEncoding(l, Line(l, bits));
  }

  // ----- the monitor --------------------------------------------------------------------------

  /** A monitor takes one sample of the data line whenever either line has moved. */
  function Sampled(l: Levels, ls: seq<Levels>): seq<Bit>
    decreases |ls|
  {
    if ls == [] then []
    else (if ls[0] != l then [ls[0].d] else []) + Sampled(ls[0], ls[1..])
  }

  /** From a driven line the monitor samples exactly the bits sent. */
  lemma {:induction false} MonitorSeesBits(l: Levels, bits: seq<Bit>)
    ensures Sampled(l, Line(l, bits)) == bits
    decreases |bits|
  {
    if bits != [] {
      var l1 := Drive(l, bits[0]);
      MonitorSeesBits(l1, bits[1..]);
      assert Line(l, bits)[1..] == Line(l1, bits[1..]);
      assert bits == [bits[0]] + bits[1..];
    }
  }
}
