/**
 Progress of the pair once both ends are in Run: a round-robin schedule drains every
 backlog, with a measure that falls in every round.
 */
module LinkProgress {
  import opened LinkFsm
  import opened FlowControl
  import opened Packets
  import opened Endpoints
  import opened LinkPair
  import opened LinkSafety

  /** Both ends in Run, nothing being driven, in flight or waiting to be taken. */
  predicate Resting(x: Node) {
    x.ep.fsm.state.Run? && x.ep.slot.Idle? && x.out == [] && x.ep.rxQueue == []
  }

  predicate Quiet(p: Pair) {
    PairJoined(p) && Resting(p.a) && Resting(p.b)
  }

  const SEND_STEPS: seq<(Side, Act)> := [(A, PickAct), (B, PickAct), (A, CompleteAct), (B, CompleteAct)]
  const RECEIVE_STEPS: seq<(Side, Act)> := [(A, DeliverAct), (B, DeliverAct)]
  const TAKE_STEPS: seq<(Side, Act)> := [(A, TakeAct), (B, TakeAct)]

  /** One round: both ends pick, finish driving, receive and consume, in turn. */
  function Round(p: Pair): Pair {
    Play(p, SEND_STEPS + RECEIVE_STEPS + TAKE_STEPS)
  }

  function Rounds(p: Pair, n: nat): Pair
    decreases n
  {
    if n == 0 then p else Rounds(Round(p), n - 1)
  }

  function Measure(p: Pair): int {
    2 * (|p.a.ep.txQueue| + |p.b.ep.txQueue|)
    + (MAX_CREDIT - p.a.ep.credit.rx) + (MAX_CREDIT - p.b.ep.credit.rx)
  }

  // ----- the effect of one round on one end ------------------------------------------------

  /** In Run the handshake events change nothing. */
  lemma RunIgnoresTraffic(f: Fsm, ev: Event)
    requires FlagsLegal(f) && f.state.Run?
    requires ev.GotNull? || ev.GotFct? || ev.GotNChar? || ev.SentNull? || ev.SentFct?
    ensures Feed(f, ev) == f
  {
  }

  /** An end in Run that has sent the character it chose. */
  function Sent(e: Endpoint): Endpoint {
    match Chosen(e)
    case Null => e
    case Fct => e.(credit := OnFctSent(e.credit))
    case Normal(_) =>
      if e.txQueue == [] then e
      else e.(credit := OnNCharSent(e.credit), txQueue := e.txQueue[1..], outstanding := e.outstanding - 1)
  }

  lemma PickThenComplete(e: Endpoint)
    requires FlagsLegal(e.fsm) && e.fsm.state.Run? && e.slot.Idle?
    ensures CanPick(e) && Pick(e).slot == Driving(Chosen(e))
    ensures Complete(Pick(e)) == Sent(e)
  {
    RunIgnoresTraffic(e.fsm, SentNull);
    RunIgnoresTraffic(e.fsm, SentFct);
  }

  /** An end in Run that has received and consumed one acceptable character. */
  function Received(e: Endpoint, ch: LineChar): Endpoint {
    match ch
    case Null => e
    case Fct => e.(credit := OnFctReceived(e.credit))
    case Normal(_) => e.(credit := OnNCharReceived(e.credit))
  }

  lemma DispatchInRun(e: Endpoint, ch: LineChar)
    requires FlagsLegal(e.fsm) && e.fsm.state.Run?
    requires ch.Fct? ==> FctFits(e.credit)
    requires ch.Normal? ==> NCharExpected(e.credit)
    ensures var d := Dispatch(e, HeardAs(ch));
            && d.fsm == e.fsm
            && d == Received(e, ch).(rxQueue := if ch.Normal? then e.rxQueue + [ch.n] else e.rxQueue)
  {
    RunIgnoresTraffic(e.fsm, GotNull);
    RunIgnoresTraffic(e.fsm, GotFct);
    RunIgnoresTraffic(e.fsm, GotNChar);
  }

  /** What one round makes of a node `x` whose peer is `y`. */
  function Exchanged(x: Node, y: Node): Node {
    var ch := Chosen(y.ep);
    x.(ep := Received(Sent(x.ep), ch), taken := x.taken + if ch.Normal? then [ch.n] else [])
  }

  lemma ProtocolActKeeps(x: Node, y: Node, act: Act)
    requires Joined(x, y) && Enabled(x, y, act) && !act.ExternalAct?
    ensures Joined(Actor(x, y, act), Other(x, y, act))
    ensures StepIsQuiet(x, y, act)
  {
    OnlyOutsideEventsReset(x, y, act);
    StepKeepsJoined(x, y, act);
  }

  lemma ProtocolStepKeeps(p: Pair, side: Side, act: Act)
    requires PairJoined(p) && !act.ExternalAct?
    ensures PairJoined(Step(p, side, act))
  {
    match side
    case A => if Enabled(p.a, p.b, act) { ProtocolActKeeps(p.a, p.b, act); }
    case B => if Enabled(p.b, p.a, act) { ProtocolActKeeps(p.b, p.a, act); }
  }

  function SendPhase(p: Pair): Pair {
    var p1 := Step(Step(p, A, PickAct), B, PickAct);
    Step(Step(p1, A, CompleteAct), B, CompleteAct)
  }

  function Transmitted(x: Node): Node {
    x.(ep := Sent(x.ep), out := [Chosen(x.ep)])
  }

  lemma SendPhaseEffect(p: Pair)
    requires Quiet(p)
    ensures SendPhase(p) == Pair(Transmitted(p.a), Transmitted(p.b))
    ensures PairJoined(SendPhase(p))
  {
    PickThenComplete(p.a.ep);
    PickThenComplete(p.b.ep);
    ProtocolStepKeeps(p, A, PickAct);
    ProtocolStepKeeps(Step(p, A, PickAct), B, PickAct);
    var p1 := Step(Step(p, A, PickAct), B, PickAct);
    ProtocolStepKeeps(p1, A, CompleteAct);
    ProtocolStepKeeps(Step(p1, A, CompleteAct), B, CompleteAct);
  }

  function ReceivePhase(p: Pair): Pair {
    Step(Step(p, A, DeliverAct), B, DeliverAct)
  }

  /** A delivery to a node in Run whose peer has exactly `ch` on its way. */
  function Delivered(x: Node, ch: LineChar): Node {
    x.(ep := Received(x.ep, ch).(rxQueue := x.ep.rxQueue + if ch.Normal? then [ch.n] else []),
       out := [])
  }

  lemma DeliverOne(x: Node, y: Node)
    requires Joined(x, y) && x.ep.fsm.state.Run? && |y.out| == 1
    ensures Actor(x, y, DeliverAct).(out := []) == Delivered(x, y.out[0])
  {
    if y.out[0].Fct? { FctFindsConnecting(x, y); }
    if y.out[0].Normal? { NCharFindsRun(x, y); }
    DispatchInRun(x.ep, y.out[0]);
  }

  lemma ReceivePhaseEffect(p: Pair)
    requires PairJoined(p) && p.a.ep.fsm.state.Run? && p.b.ep.fsm.state.Run?
    requires |p.a.out| == 1 && |p.b.out| == 1
    ensures ReceivePhase(p) == Pair(Delivered(p.a, p.b.out[0]), Delivered(p.b, p.a.out[0]))
    ensures PairJoined(ReceivePhase(p))
  {
    DeliverOne(p.a, p.b);
    var q := Step(p, A, DeliverAct);
    ProtocolStepKeeps(p, A, DeliverAct);
    DispatchInRunKeepsRun(p.a, p.b);
    DeliverOne(q.b, q.a);
    ProtocolStepKeeps(q, B, DeliverAct);
  }

  lemma DispatchInRunKeepsRun(x: Node, y: Node)
    requires Joined(x, y) && x.ep.fsm.state.Run? && y.out != []
    ensures Actor(x, y, DeliverAct).ep.fsm == x.ep.fsm
  {
    if y.out[0].Fct? { FctFindsConnecting(x, y); }
    if y.out[0].Normal? { NCharFindsRun(x, y); }
    DispatchInRun(x.ep, y.out[0]);
  }

  /** A node that has consumed its receive queue of at most one N-Char. */
  function Consumed(x: Node): Node {
    x.(ep := x.ep.(rxQueue := []), taken := x.taken + x.ep.rxQueue)
  }

  function TakePhase(p: Pair): Pair {
    Step(Step(p, A, TakeAct), B, TakeAct)
  }

  lemma TakePhaseEffect(p: Pair)
    requires PairJoined(p) && |p.a.ep.rxQueue| <= 1 && |p.b.ep.rxQueue| <= 1
    ensures TakePhase(p) == Pair(Consumed(p.a), Consumed(p.b))
    ensures PairJoined(TakePhase(p))
  {
    TakeOneConsumes(p.a);
    TakeOneConsumes(p.b);
    ProtocolStepKeeps(p, A, TakeAct);
    ProtocolStepKeeps(Step(p, A, TakeAct), B, TakeAct);
  }

  lemma TakeOneConsumes(x: Node)
    requires |x.ep.rxQueue| <= 1
    ensures |x.ep.rxQueue| == 0 ==> Consumed(x) == x
    ensures |x.ep.rxQueue| == 1 ==>
              x.(ep := TakeOne(x.ep), taken := x.taken + [x.ep.rxQueue[0]]) == Consumed(x)
  {
    assert x.taken + [] == x.taken;
  }

  lemma RoundOfNode(x: Node, y: Node)
    requires Resting(x)
    ensures Consumed(Delivered(Transmitted(x), Chosen(y.ep))) == Exchanged(x, y)
    ensures |Delivered(Transmitted(x), Chosen(y.ep)).ep.rxQueue| <= 1
  {
    assert Transmitted(x).ep.rxQueue == [];
  }

  lemma PlayTwo(p: Pair, s: (Side, Act), t: (Side, Act))
    ensures Play(p, [s, t]) == Step(Step(p, s.0, s.1), t.0, t.1)
  {
    var q := Step(p, s.0, s.1);
    assert [s, t][1..] == [t] && [t][1..] == [];
    assert Play(p, [s, t]) == Play(q, [t]);
    assert Play(q, [t]) == Play(Step(q, t.0, t.1), []);
  }

  lemma RoundIsThreePhases(p: Pair)
    ensures Round(p) == TakePhase(ReceivePhase(SendPhase(p)))
  {
    PlaySplits(p, SEND_STEPS + RECEIVE_STEPS, TAKE_STEPS);
    PlaySplits(p, SEND_STEPS, RECEIVE_STEPS);
    assert SEND_STEPS == SEND_STEPS[..2] + SEND_STEPS[2..];
    PlaySplits(p, SEND_STEPS[..2], SEND_STEPS[2..]);
    PlayTwo(p, SEND_STEPS[0], SEND_STEPS[1]);
    var p1 := Step(Step(p, A, PickAct), B, PickAct);
    PlayTwo(p1, SEND_STEPS[2], SEND_STEPS[3]);
    var p2 := SendPhase(p);
    PlayTwo(p2, RECEIVE_STEPS[0], RECEIVE_STEPS[1]);
    PlayTwo(ReceivePhase(p2), TAKE_STEPS[0], TAKE_STEPS[1]);
  }

  lemma RoundEffect(p: Pair)
    requires Quiet(p)
    ensures Round(p) == Pair(Exchanged(p.a, p.b), Exchanged(p.b, p.a))
    ensures PairJoined(Round(p))
  {
    RoundIsThreePhases(p);
    SendPhaseEffect(p);
    var p2 := SendPhase(p);
    ReceivePhaseEffect(p2);
    RoundOfNode(p.a, p.b);
    RoundOfNode(p.b, p.a);
    TakePhaseEffect(ReceivePhase(p2));
  }

  lemma RoundKeepsQuiet(p: Pair)
    requires Quiet(p)
    ensures Quiet(Round(p))
    ensures Round(p).a.queued == p.a.queued && Round(p).b.queued == p.b.queued
  {
    RoundEffect(p);
  }

  /** What one end contributes to the fall of the measure by what it sends. */
  function Fall(ch: LineChar): nat {
    match ch
    case Null => 0
    case Fct => 8
    case Normal(_) => 1
  }

  lemma RoundMeasure(p: Pair)
    requires Quiet(p)
    ensures Measure(Round(p)) == Measure(p) - Fall(Chosen(p.a.ep)) - Fall(Chosen(p.b.ep))
  {
    RoundEffect(p);
    NodeMeasure(p.a, p.b);
    NodeMeasure(p.b, p.a);
  }

  /** An N-Char chosen by the peer finds receive credit: the two counters agree. */
  lemma NodeMeasure(x: Node, y: Node)
    requires Joined(x, y) && Resting(x) && Resting(y)
    ensures var z := Exchanged(x, y);
            && |z.ep.txQueue| == |x.ep.txQueue| - (if Chosen(x.ep).Normal? then 1 else 0)
            && z.ep.credit.rx == x.ep.credit.rx + (if Chosen(x.ep).Fct? then 8 else 0)
                                 - (if Chosen(y.ep).Normal? then 1 else 0)
  {
    assert CreditConserved(y, x);
    assert FctsInFlight(x) == 0 && NCharsInFlight(y) == [];
  }

  /** An end with a backlog and nothing to send but NULLs has no credit; then its peer
      owes it an FCT and chooses to send it. */
  lemma SomebodyMoves(x: Node, y: Node)
    requires Joined(x, y) && Resting(x) && Resting(y)
    requires x.ep.txQueue != [] && Chosen(x.ep).Null?
    ensures Chosen(y.ep).Fct?
  {
    assert CreditConserved(x, y);
    assert FctsInFlight(y) == 0 && NCharsInFlight(x) == [];
  }

  /** Main result: while any N-Char is queued at either end, the measure falls in every
      round, and every round ends as it began, quiet. */
  lemma RoundMakesProgress(p: Pair)
    requires Quiet(p)
    ensures Quiet(Round(p)) && 0 <= Measure(Round(p)) <= Measure(p)
    ensures p.a.ep.txQueue != [] || p.b.ep.txQueue != [] ==> Measure(Round(p)) < Measure(p)
  {
    RoundKeepsQuiet(p);
    RoundMeasure(p);
    if p.a.ep.txQueue != [] && Chosen(p.a.ep).Null? { SomebodyMoves(p.a, p.b); }
    if p.b.ep.txQueue != [] && Chosen(p.b.ep).Null? { SomebodyMoves(p.b, p.a); }
  }

  lemma {:induction false} RoundsDrain(p: Pair, n: nat)
    requires Quiet(p) && Measure(p) <= n
    ensures var q := Rounds(p, n);
            && Quiet(q) && q.a.ep.txQueue == [] && q.b.ep.txQueue == []
            && q.a.queued == p.a.queued && q.b.queued == p.b.queued
    decreases n
  {
    RoundMakesProgress(p);
    if n == 0 {
      assert Measure(p) == 0;
    } else {
      RoundKeepsQuiet(p);
      if p.a.ep.txQueue == [] && p.b.ep.txQueue == [] {
        EmptyRoundsStayEmpty(p, n);
      } else {
        RoundsDrain(Round(p), n - 1);
      }
    }
  }

  lemma {:induction false} EmptyRoundsStayEmpty(p: Pair, n: nat)
    requires Quiet(p) && p.a.ep.txQueue == [] && p.b.ep.txQueue == []
    ensures var q := Rounds(p, n);
            && Quiet(q) && q.a.ep.txQueue == [] && q.b.ep.txQueue == []
            && q.a.queued == p.a.queued && q.b.queued == p.b.queued
    decreases n
  {
    if n > 0 {
      RoundEffect(p);
      RoundKeepsQuiet(p);
      EmptyRoundsStayEmpty(Round(p), n - 1);
    }
  }

  /** Main result: after as many rounds as the measure says, every N-Char queued at
      either end has been taken at the other, in order. */
  lemma EveryBacklogDrains(p: Pair)
    requires Quiet(p)
    ensures var q := Rounds(p, Measure(p));
            q.b.taken == p.a.queued && q.a.taken == p.b.queued
  {
    RoundsDrain(p, Measure(p));
    var q := Rounds(p, Measure(p));
    DeliveredInFull(q.a, q.b);
    DeliveredInFull(q.b, q.a);
  }

  lemma DeliveredInFull(x: Node, y: Node)
    requires Joined(x, y) && Resting(x) && Resting(y) && x.ep.txQueue == []
    ensures y.taken == x.queued
  {
    assert NCharsInFlight(x) == [];
    assert y.taken + [] + [] + [] == y.taken;
  }

  /** The sender `x` has no credit, with none on its way and no N-Char on its own way; the
      peer `y` that owes it some is in Run. */
  predicate Stalled(x: Node, y: Node) {
    x.ep.credit.tx == 0 && FctsInFlight(y) == 0 && NCharsInFlight(x) == [] && y.ep.fsm.state.Run?
  }

  lemma StalledNodeIsServed(x: Node, y: Node)
    requires Joined(x, y) && Stalled(x, y)
    ensures Chosen(y.ep).Fct? <==> Headroom(y.ep) >= 8
  {
    assert CreditConserved(x, y);
  }

  /** The peer of a stalled sender, at either end, picks an FCT next exactly when it has room
      for eight more N-Chars. */
  lemma StalledSenderIsServed(q: Pair)
    requires Reachable(q) && NeverReset(q)
    ensures Stalled(q.a, q.b) ==> (Chosen(q.b.ep).Fct? <==> Headroom(q.b.ep) >= 8)
    ensures Stalled(q.b, q.a) ==> (Chosen(q.a.ep).Fct? <==> Headroom(q.a.ep) >= 8)
  {
    ReachableIsJoined(q);
    if Stalled(q.a, q.b) { StalledNodeIsServed(q.a, q.b); }
    if Stalled(q.b, q.a) { StalledNodeIsServed(q.b, q.a); }
  }
}
