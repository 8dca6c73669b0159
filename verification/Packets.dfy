/**
 Packets and the N-Char streams that carry them: packet.py, and the framing half of
 `send_packet` and `recv_packet` in link.py.
 */
module Packets {
  import opened Wrappers
  import opened Bits

  datatype Terminator = Eop | Eep

  /** A normal character: a data byte or an end-of-packet marker. */
  datatype NChar = Data(value: Byte) | End(terminator: Terminator)

  datatype Packet = Packet(data: seq<Byte>, terminator: Terminator)

  /** Credit cost of a packet: the terminator counts too. */
  function Cost(p: Packet): nat {
    |p.data| + 1
  }

  function DataChars(data: seq<Byte>): (ns: seq<NChar>)
    ensures |ns| == |data|
  {
    seq(|data|, i requires 0 <= i < |data| => Data(data[i]))
  }

  function Serialize(p: Packet): (ns: seq<NChar>)
    ensures |ns| == Cost(p)
  {
    DataChars(p.data) + [End(p.terminator)]
  }

  /** A packet on its way: its bytes in order, then its own terminator. */
  lemma PacketOnItsWay(p: Packet)
    ensures |Serialize(p)| == |p.data| + 1
    ensures forall i :: 0 <= i < |p.data| ==> Serialize(p)[i] == Data(p.data[i])
    ensures Serialize(p)[|p.data|] == End(p.terminator)
  {
  }

  /** `ns` are the N-Chars that complete packet `p` when the bytes `partial` came before. */
  predicate Completes(partial: seq<Byte>, ns: seq<NChar>, p: Packet) {
    && |ns| >= 1 && ns[|ns| - 1] == End(p.terminator)
    && |p.data| == |partial| + |ns| - 1 && p.data[..|partial|] == partial
    && forall i :: 0 <= i < |ns| - 1 ==> ns[i] == Data(p.data[|partial| + i])
  }

  /** `ns` are all data, and with `partial` before them make up `bytes`. */
  predicate Collects(partial: seq<Byte>, ns: seq<NChar>, bytes: seq<Byte>) {
    && |bytes| == |partial| + |ns| && bytes[..|partial|] == partial
    && forall i :: 0 <= i < |ns| ==> ns[i] == Data(bytes[|partial| + i])
  }

  function SerializeAll(ps: seq<Packet>): seq<NChar>
    decreases |ps|
  {
    if ps == [] then [] else Serialize(ps[0]) + SerializeAll(ps[1..])
  }

  /** A reader: the packets it has returned and the data bytes of the one it is in. */
  datatype Reader = Reader(done: seq<Packet>, partial: seq<Byte>)

  const NEW_READER := Reader([], [])

  function ReadChar(r: Reader, n: NChar): Reader {
    match n
    case Data(v) => r.(partial := r.partial + [v])
    case End(t) => Reader(r.done + [Packet(r.partial, t)], [])
  }

  function ReadAll(r: Reader, ns: seq<NChar>): Reader
    decreases |ns|
  {
    if ns == [] then r else ReadAll(ReadChar(r, ns[0]), ns[1..])
  }

  lemma {:induction false} ReadAllSplits(r: Reader, a: seq<NChar>, b: seq<NChar>)
    ensures ReadAll(r, a + b) == ReadAll(ReadAll(r, a), b)
    decreases |a|
  {
    if a == [] {
      assert a + b == b;
    } else {
      assert (a + b)[1..] == a[1..] + b;
      ReadAllSplits(ReadChar(r, a[0]), a[1..], b);
    }
  }

  /** Reading only ever appends packets. */
  lemma {:induction false} ReadAllExtends(r: Reader, ns: seq<NChar>)
    ensures r.done <= ReadAll(r, ns).done
    decreases |ns|
  {
    if ns != [] {
      ReadAllExtends(ReadChar(r, ns[0]), ns[1..]);
    }
  }

  lemma {:induction false} ReadData(r: Reader, data: seq<Byte>)
    ensures ReadAll(r, DataChars(data)) == r.(partial := r.partial + data)
    decreases |data|
  {
    if data != [] {
      assert DataChars(data)[1..] == DataChars(data[1..]);
      ReadData(ReadChar(r, Data(data[0])), data[1..]);
      assert r.partial + [data[0]] + data[1..] == r.partial + data;
    } else {
      assert r.partial + data == r.partial;
    }
  }

  /** A reader returns a packet exactly when its terminator comes, with that terminator and
      the bytes before it. */
  lemma ReadsWhatCompletes(partial: seq<Byte>, ns: seq<NChar>, p: Packet)
    requires Completes(partial, ns, p)
    ensures ReadAll(Reader([], partial), ns) == Reader([p], [])
  {
    var data := p.data[|partial|..];
    assert ns == DataChars(data) + [End(p.terminator)];
    ReadAllSplits(Reader([], partial), DataChars(data), [End(p.terminator)]);
    ReadData(Reader([], partial), data);
    assert partial + data == p.data;
    var mid := Reader([], p.data);
    assert ReadAll(mid, [End(p.terminator)]) == ReadAll(ReadChar(mid, End(p.terminator)), []);
  }

  lemma ReadPacket(r: Reader, p: Packet)
    requires r.partial == []
    ensures ReadAll(r, Serialize(p)) == Reader(r.done + [p], [])
  {
    ReadAllSplits(r, DataChars(p.data), [End(p.terminator)]);
    ReadData(r, p.data);
    assert r.partial + p.data == p.data;
    var mid := r.(partial := p.data);
    assert ReadAll(mid, [End(p.terminator)]) == ReadAll(ReadChar(mid, End(p.terminator)), []);
  }

  /** Reading what was written gives the packets back, in order, with their
      terminators, and leaves nothing half read. */
  lemma {:induction false} ReadBack(r: Reader, ps: seq<Packet>)
    requires r.partial == []
    ensures ReadAll(r, SerializeAll(ps)) == Reader(r.done + ps, [])
    decreases |ps|
  {
    if ps == [] {
      assert r.done + ps == r.done;
    } else {
      ReadAllSplits(r, Serialize(ps[0]), SerializeAll(ps[1..]));
      ReadPacket(r, ps[0]);
      ReadBack(Reader(r.done + [ps[0]], []), ps[1..]);
      assert r.done + [ps[0]] + ps[1..] == r.done + ps;
    }
  }

  /** Whatever part of a written stream has been consumed, the packets returned so
      far are an initial part of the packets written. */
  lemma ReadPrefix(ps: seq<Packet>, consumed: seq<NChar>)
    requires consumed <= SerializeAll(ps)
    ensures ReadAll(NEW_READER, consumed).done <= ps
    ensures consumed == SerializeAll(ps) ==> ReadAll(NEW_READER, consumed) == Reader(ps, [])
  {
    var rest := SerializeAll(ps)[|consumed|..];
    assert consumed + rest == SerializeAll(ps);
    ReadAllSplits(NEW_READER, consumed, rest);
    ReadAllExtends(ReadAll(NEW_READER, consumed), rest);
    ReadBack(NEW_READER, ps);
    assert NEW_READER.done + ps == ps;
  }

  /** The validation loop of a packet's payload: the payload itself when every entry is
      a byte, otherwise the position of the first entry that is not. */
  method ValidateData(data: seq<int>) returns (r: Result<seq<Byte>, nat>)
    ensures r.Ok? <==> forall i :: 0 <= i < |data| ==> 0 <= data[i] <= 0xFF
    ensures r.Ok? ==> |r.value| == |data| && forall i :: 0 <= i < |data| ==> r.value[i] == data[i]
    ensures r.Err? ==> r.error < |data| && !(0 <= data[r.error] <= 0xFF)
                       && forall i :: 0 <= i < r.error ==> 0 <= data[i] <= 0xFF
  {
    var normalized: seq<Byte> := [];
    for i := 0 to |data|
      invariant |normalized| == i
      invariant forall j :: 0 <= j < i ==> 0 <= data[j] <= 0xFF && normalized[j] == data[j]
    {
      if !(0 <= data[i] <= 0xFF) {
        return Err(i);
      }
      normalized := normalized + [data[i]];
    }
    r := Ok(normalized);
  }
}
