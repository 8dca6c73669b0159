/**
 The raw-bit transmitter of driver.py: a queue of bits, the online Data-Strobe rule,
 and the ledger that releases a waiting sender when its last bit has been driven.
 */
module BitDriver {
  import opened Bits
  import opened DataStrobe

  /** A sender that waits until `target` bits have been driven since the start. */
  datatype Waiter = Waiter(id: nat, target: nat)

  function StillWaiting(ws: seq<Waiter>, driven: nat): seq<Waiter>
    decreases |ws|
  {
    if ws == [] then []
    else (if ws[0].target <= driven then [] else [ws[0]]) + StillWaiting(ws[1..], driven)
  }

  function Released(ws: seq<Waiter>, driven: nat): seq<nat>
    decreases |ws|
  {
    if ws == [] then []
    else (if ws[0].target <= driven then [ws[0].id] else []) + Released(ws[1..], driven)
  }

  lemma {:induction false} PartitionGrows(ws: seq<Waiter>, w: Waiter, driven: nat)
    ensures StillWaiting(ws + [w], driven)
            == StillWaiting(ws, driven) + if w.target <= driven then [] else [w]
    ensures Released(ws + [w], driven) == Released(ws, driven) + if w.target <= driven then [w.id] else []
    decreases |ws|
  {
    if ws == [] {
      assert ws + [w] == [w];
    } else {
      assert (ws + [w])[1..] == ws[1..] + [w];
      PartitionGrows(ws[1..], w, driven);
    }
  }

  /** Every waiter waits for a bit that has not been driven yet. */
  predicate AllAhead(ws: seq<Waiter>, driven: nat) {
    forall i :: 0 <= i < |ws| ==> ws[i].target > driven
  }

  predicate NoneBeyond(ws: seq<Waiter>, bound: nat) {
    forall i :: 0 <= i < |ws| ==> ws[i].target <= bound
  }

  lemma {:induction false} WaitersKept(ws: seq<Waiter>, driven: nat, bound: nat)
    ensures AllAhead(StillWaiting(ws, driven), driven)
    ensures NoneBeyond(ws, bound) ==> NoneBeyond(StillWaiting(ws, driven), bound)
    decreases |ws|
  {
    if ws != [] {
      WaitersKept(ws[1..], driven, bound);
    }
  }

  /** Main result for the ledger: with one more bit driven a waiter goes on waiting unless
      it was waiting for this very bit, and then it is released. */
  lemma {:induction false} ReleasedOnTime(ws: seq<Waiter>, driven: nat, w: Waiter)
    requires AllAhead(ws, driven) && w in ws
    ensures w in StillWaiting(ws, driven + 1) <==> w.target != driven + 1
    ensures w.target == driven + 1 ==> w.id in Released(ws, driven + 1)
    decreases |ws|
  {
    assert ws[0].target > driven;
    if w in ws[1..] {
      assert AllAhead(ws[1..], driven);
      ReleasedOnTime(ws[1..], driven, w);
    } else {
      assert w == ws[0];
      WaitersKept(ws[1..], driven + 1, 0);
    }
  }

  /** Nobody is released early: whoever is released was waiting for this very bit. */
  lemma {:induction false} ReleasedWereDue(ws: seq<Waiter>, driven: nat, id: nat)
    requires AllAhead(ws, driven) && id in Released(ws, driven + 1)
    ensures exists w :: w in ws && w.id == id && w.target == driven + 1
    decreases |ws|
  {
    if id in Released(ws[1..], driven + 1) {
      assert AllAhead(ws[1..], driven);
      ReleasedWereDue(ws[1..], driven, id);
    } else {
      assert ws[0] in ws;
    }
  }

  class SpaceWireDriver {
    var prevD: Bit
    var strobe: Bit
    var queue: seq<Bit>
    var enqueuedBits: nat
    var drivenBits: nat
    var driveWaiters: seq<Waiter>
    var released: seq<nat>

    // The levels before the first bit, and every bit accepted since.
    ghost const initial: Levels
    ghost var accepted: seq<Bit>

    constructor (initialD: Bit, initialS: Bit)
      ensures Valid() && accepted == [] && queue == [] && driveWaiters == [] && released == []
      ensures initial == Levels(initialD, initialS)
    {
      prevD, strobe, queue := initialD, initialS, [];
      enqueuedBits, drivenBits, driveWaiters, released := 0, 0, [], [];
      initial, accepted := Levels(initialD, initialS), [];
    }

    /** The bits driven so far. */
    ghost function Driven(): seq<Bit>
      requires drivenBits <= |accepted|
      reads this
    {
      accepted[..drivenBits]
    }

    ghost predicate Valid()
      reads this
    {
      && enqueuedBits == |accepted|
      && drivenBits + |queue| == enqueuedBits
      && queue == accepted[drivenBits..]
      && Levels(prevD, strobe) == LastLevels(initial, Line(initial, Driven()))
      && AllAhead(driveWaiters, drivenBits)
      && NoneBeyond(driveWaiters, enqueuedBits)
    }

    method EnqueueBit(bit: Bit)
      requires Valid()
      modifies this
      ensures Valid() && accepted == old(accepted) + [bit] && drivenBits == old(drivenBits)
      ensures driveWaiters == old(driveWaiters) && released == old(released)
    {
      assert (accepted + [bit])[..drivenBits] == accepted[..drivenBits];
      queue := queue + [bit];
      enqueuedBits := enqueuedBits + 1;
      accepted := accepted + [bit];
    }

    /** Queue bits and wait for the last of them; an empty request does not wait. */
    method SendBitsAndWait(id: nat, bits: seq<Bit>) returns (waiting: bool)
      requires Valid()
      modifies this
      ensures Valid() && accepted == old(accepted) + bits && drivenBits == old(drivenBits)
      ensures waiting <==> bits != []
      ensures driveWaiters == old(driveWaiters) + if waiting then [Waiter(id, |accepted|)] else []
      ensures released == old(released)
    {
      ghost var before := accepted;
      if bits == [] {
        return false;
      }
      for i := 0 to |bits|
        invariant Valid() && accepted == before + bits[..i] && drivenBits == old(drivenBits)
        invariant driveWaiters == old(driveWaiters) && released == old(released)
      {
        assert bits[..i + 1] == bits[..i] + [bits[i]];
        EnqueueBit(bits[i]);
      }
      assert bits[..|bits|] == bits;
      waiting := WaitUntilDriven(id, enqueuedBits);
    }

    method WaitUntilDriven(id: nat, target: nat) returns (waiting: bool)
      requires Valid() && target <= enqueuedBits
      modifies `driveWaiters
      ensures Valid() && (waiting <==> drivenBits < target)
      ensures driveWaiters == old(driveWaiters) + if waiting then [Waiter(id, target)] else []
    {
      if drivenBits >= target {
        return false;
      }
      driveWaiters := driveWaiters + [Waiter(id, target)];
      waiting := true;
    }

    /** Drive the next bit: the two lines obey the Data-Strobe rule over everything driven,
        and exactly the senders whose last bit this was are released. */
    method TxBit() returns (levels: Levels)
      requires Valid() && queue != []
      modifies this
      ensures Valid() && accepted == old(accepted) && drivenBits == old(drivenBits) + 1
      ensures levels == LastLevels(initial, Line(initial, accepted[..drivenBits]))
      ensures levels.d == accepted[drivenBits - 1]
      ensures driveWaiters == StillWaiting(old(driveWaiters), drivenBits)
      ensures released == old(released) + Released(old(driveWaiters), drivenBits)
    {
      ghost var l := Levels(prevD, strobe);
      var bit := queue[0];
      queue := queue[1..];
      if bit == prevD {
        strobe := Flip(strobe);
      }
      levels := Levels(bit, strobe);
      prevD := bit;
      assert levels == Drive(l, bit);
      assert accepted[..drivenBits + 1] == accepted[..drivenBits] + [bit];
      LineSplits(initial, accepted[..drivenBits], [bit]);
      OneBitLine(l, bit);
      WaitersKept(driveWaiters, drivenBits + 1, enqueuedBits);
      MarkBitDriven();
    }

    method MarkBitDriven()
      modifies `drivenBits, `driveWaiters, `released
      ensures drivenBits == old(drivenBits) + 1
      ensures driveWaiters == StillWaiting(old(driveWaiters), drivenBits)
      ensures released == old(released) + Released(old(driveWaiters), drivenBits)
    {
      drivenBits := drivenBits + 1;
      var waiters, driven := driveWaiters, drivenBits;
      var ready: seq<nat> := [];
      var pending: seq<Waiter> := [];
      for i := 0 to |waiters|
        invariant drivenBits == driven && released == old(released)
        invariant pending == StillWaiting(waiters[..i], driven)
        invariant ready == Released(waiters[..i], driven)
      {
        PartitionGrows(waiters[..i], waiters[i], driven);
        assert waiters[..i + 1] == waiters[..i] + [waiters[i]];
        if waiters[i].target <= driven {
          ready := ready + [waiters[i].id];
        } else {
          pending := pending + [waiters[i]];
        }
      }
      assert waiters[..|waiters|] == waiters;
      driveWaiters := pending;
      released := released + ready;
    }
  }
}
