/**
 What the pair can reach: Run exactly when neither end is restricted to NULLs, the
 end of every backlog, and the exact peak of the receive queue.
 */
module LinkReach {
  import opened LinkFsm
  import opened FlowControl
  import opened Packets
  import opened Endpoints
  import opened LinkPair
  import opened LinkSafety
  import opened LinkProgress

  /** `q` can follow `p`. */
  ghost predicate Attained(p: Pair, q: Pair) {
    exists steps :: q == Play(p, steps)
  }

  lemma AttainedStep(p: Pair, q: Pair, side: Side, act: Act)
    requires Attained(p, q)
    ensures Attained(p, Step(q, side, act))
  {
    var steps :| q == Play(p, steps);
    PlaySplits(p, steps, [(side, act)]);
    PlayOne(q, side, act);
    assert Step(q, side, act) == Play(p, steps + [(side, act)]);
  }

  lemma ReachableStep(q: Pair, side: Side, act: Act)
    requires Reachable(q)
    ensures Reachable(Step(q, side, act))
  {
    var a, maxA, b, maxB, steps :|
      SaneCap(a, maxA) && SaneCap(b, maxB) && q == Play(PowerUp(a, maxA, b, maxB), steps);
    var p := PowerUp(a, maxA, b, maxB);
    PlaySplits(p, steps, [(side, act)]);
    PlayOne(q, side, act);
    assert Step(q, side, act) == Play(p, steps + [(side, act)]);
  }

  lemma PlayOne(q: Pair, side: Side, act: Act)
    ensures Play(q, [(side, act)]) == Step(q, side, act)
  {
    assert Play(Step(q, side, act), []) == Step(q, side, act);
  }

  // ----- continuations in which only the two link engines and the readers act --------------

  predicate EngineStep(act: Act) {
    !act.ExternalAct? && !act.SendAct?
  }

  ghost predicate Leads(p: Pair, q: Pair) {
    exists steps: seq<(Side, Act)> ::
      q == Play(p, steps) && forall i :: 0 <= i < |steps| ==> EngineStep(steps[i].1)
  }

  lemma LeadsNowhere(p: Pair)
    ensures Leads(p, p)
  {
    assert p == Play(p, []);
  }

  lemma LeadsOn(p: Pair, q: Pair, r: Pair)
    requires Leads(p, q) && Leads(q, r)
    ensures Leads(p, r)
  {
    var s: seq<(Side, Act)> :| q == Play(p, s) && forall i :: 0 <= i < |s| ==> EngineStep(s[i].1);
    var t: seq<(Side, Act)> :| r == Play(q, t) && forall i :: 0 <= i < |t| ==> EngineStep(t[i].1);
    PlaySplits(p, s, t);
    assert r == Play(p, s + t);
  }

  lemma LeadsByStep(p: Pair, side: Side, act: Act)
    requires EngineStep(act)
    ensures Leads(p, Step(p, side, act))
  {
    PlayOne(p, side, act);
    assert Step(p, side, act) == Play(p, [(side, act)]);
  }

  lemma LeadsByPlay(p: Pair, steps: seq<(Side, Act)>)
    requires forall i :: 0 <= i < |steps| ==> EngineStep(steps[i].1)
    ensures Leads(p, Play(p, steps))
  {
  }

  lemma LeadsByRound(p: Pair)
    ensures Leads(p, Round(p))
  {
    var steps := SEND_STEPS + RECEIVE_STEPS + TAKE_STEPS;
    assert forall i :: 0 <= i < 8 ==> EngineStep(steps[i].1);
    LeadsByPlay(p, steps);
  }

  lemma {:induction false} LeadsByRounds(p: Pair, n: nat)
    ensures Leads(p, Rounds(p, n))
    decreases n
  {
    if n == 0 {
      LeadsNowhere(p);
    } else {
      LeadsByRound(p);
      LeadsByRounds(Round(p), n - 1);
      LeadsOn(p, Round(p), Rounds(p, n));
    }
  }

  /** Work still to be done for what is being driven, in flight or waiting at a node. */
  function Load(x: Node): nat {
    (if x.ep.slot.Driving? then 3 else 0) + 2 * |x.out| + |x.ep.rxQueue|
  }

  predicate Unloads(x: Node, y: Node, act: Act) {
    Enabled(x, y, act) && (act.CompleteAct? || act.DeliverAct? || act.TakeAct?)
  }

  lemma UnloadingStep(x: Node, y: Node, act: Act)
    requires Joined(x, y) && x.ep.fsm.state.Run? && y.ep.fsm.state.Run? && Unloads(x, y, act)
    ensures var x', y' := Actor(x, y, act), Other(x, y, act);
            && x'.ep.fsm.state.Run? && y'.ep.fsm.state.Run?
            && x'.queued == x.queued && y'.queued == y.queued
            && Load(x') + Load(y') < Load(x) + Load(y)
  {
    match act
    case CompleteAct =>
      RunIgnoresTraffic(x.ep.fsm, SentNull);
      RunIgnoresTraffic(x.ep.fsm, SentFct);
    case DeliverAct =>
      if y.out[0].Fct? { FctFindsConnecting(x, y); }
      if y.out[0].Normal? { NCharFindsRun(x, y); }
      DispatchInRun(x.ep, y.out[0]);
    case TakeAct =>
  }

  lemma UnloadSide(p: Pair, side: Side, act: Act)
    requires PairJoined(p) && p.a.ep.fsm.state.Run? && p.b.ep.fsm.state.Run?
    requires match side case A => Unloads(p.a, p.b, act) case B => Unloads(p.b, p.a, act)
    ensures var q := Step(p, side, act);
            && PairJoined(q) && Leads(p, q)
            && q.a.ep.fsm.state.Run? && q.b.ep.fsm.state.Run?
            && q.a.queued == p.a.queued && q.b.queued == p.b.queued
            && Load(q.a) + Load(q.b) < Load(p.a) + Load(p.b)
  {
    ProtocolStepKeeps(p, side, act);
    LeadsByStep(p, side, act);
    match side
    case A => UnloadingStep(p.a, p.b, act);
    case B => UnloadingStep(p.b, p.a, act);
  }

  /** Some step that unloads a pair that is not at rest. */
  function NextUnload(p: Pair): (Side, Act) {
    if p.a.ep.slot.Driving? then (A, CompleteAct)
    else if p.b.ep.slot.Driving? then (B, CompleteAct)
    else if p.b.out != [] then (A, DeliverAct)
    else if p.a.out != [] then (B, DeliverAct)
    else if p.a.ep.rxQueue != [] then (A, TakeAct)
    else (B, TakeAct)
  }

  lemma {:induction false} UnloadAll(p: Pair) returns (q: Pair)
    requires PairJoined(p) && p.a.ep.fsm.state.Run? && p.b.ep.fsm.state.Run?
    ensures Leads(p, q) && Quiet(q) && q.a.queued == p.a.queued && q.b.queued == p.b.queued
    decreases Load(p.a) + Load(p.b)
  {
    if Quiet(p) {
      q := p;
      LeadsNowhere(p);
    } else {
      var (side, act) := NextUnload(p);
      UnloadSide(p, side, act);
      var r := Step(p, side, act);
      q := UnloadAll(r);
      LeadsOn(p, r, q);
    }
  }

  /** Main result: from every reachable state with both ends in Run, with no further help
      from outside, everything queued so far at either end can be taken at the other. */
  lemma NoDeadlock(p: Pair)
    requires Reachable(p) && NeverReset(p)
    requires p.a.ep.fsm.state.Run? && p.b.ep.fsm.state.Run?
    ensures exists q :: Leads(p, q) && q.b.taken == p.a.queued && q.a.taken == p.b.queued
  {
    ReachableIsJoined(p);
    var r := UnloadAll(p);
    EveryBacklogDrains(r);
    LeadsByRounds(r, Measure(r));
    LeadsOn(p, r, Rounds(r, Measure(r)));
  }

  // ----- reaching Run -----------------------------------------------------------------------

  /** A fresh endpoint whose state machine has come as far as `f`. */
  function NodeAt(cfg: Config, maxRx: nat, f: Fsm): Node {
    Node(NewEndpoint(cfg, maxRx).(fsm := f), [], [], [])
  }

  const COMMANDED := Fsm(ErrorReset, false, true, false, false, false, false, false)
  const WAITING := Fsm(ErrorWait, false, true, false, false, false, false, false)
  const STARTED := Fsm(Started, false, true, false, false, false, false, false)
  const NULL_SENT := Fsm(Started, false, true, false, false, true, false, false)
  const CONNECTING := Fsm(Connecting, true, true, false, false, true, false, false)
  const FCT_SENT := Fsm(Connecting, true, true, false, false, true, true, false)
  const RUNNING := Fsm(State.Run, true, true, false, false, true, true, true)

  lemma ReachByEvent(p: Pair, x: Node, y: Node, ev: Event, cfg: Config, maxRx: nat, f: Fsm, g: Fsm)
    requires x == NodeAt(cfg, maxRx, f) && IsExternal(ev)
    requires Feed(f, ev) == g && !g.state.Connecting? && (g.state.ErrorReset? ==> f.state.ErrorReset?)
    ensures Attained(p, Pair(x, y)) ==> Attained(p, Pair(NodeAt(cfg, maxRx, g), y))
    ensures Attained(p, Pair(y, x)) ==> Attained(p, Pair(y, NodeAt(cfg, maxRx, g)))
  {
    assert Actor(x, y, ExternalAct(ev)) == NodeAt(cfg, maxRx, g);
    if Attained(p, Pair(x, y)) { AttainedStep(p, Pair(x, y), A, ExternalAct(ev)); }
    if Attained(p, Pair(y, x)) { AttainedStep(p, Pair(y, x), B, ExternalAct(ev)); }
  }

  /** linkStart and the two dwell timers bring either end to Started. */
  lemma ReachByCommands(p: Pair, x: Node, y: Node, cfg: Config, maxRx: nat)
    requires x == NewNode(cfg, maxRx)
    ensures Attained(p, Pair(x, y)) ==> Attained(p, Pair(NodeAt(cfg, maxRx, STARTED), y))
    ensures Attained(p, Pair(y, x)) ==> Attained(p, Pair(y, NodeAt(cfg, maxRx, STARTED)))
  {
    ReachByEvent(p, x, y, LinkStart, cfg, maxRx, POWER_ON, COMMANDED);
    ReachByEvent(p, NodeAt(cfg, maxRx, COMMANDED), y, Tick6400, cfg, maxRx, COMMANDED, WAITING);
    ReachByEvent(p, NodeAt(cfg, maxRx, WAITING), y, Tick12800, cfg, maxRx, WAITING, STARTED);
  }

  lemma ReachStarted(a: Config, maxA: nat, b: Config, maxB: nat)
    ensures Attained(PowerUp(a, maxA, b, maxB), Pair(NodeAt(a, maxA, STARTED), NodeAt(b, maxB, STARTED)))
  {
    var p := PowerUp(a, maxA, b, maxB);
    assert p == Play(p, []);
    ReachByCommands(p, p.a, p.b, a, maxA);
    ReachByCommands(p, p.b, NodeAt(a, maxA, STARTED), b, maxB);
  }

  // One character each way: both ends pick, complete and deliver.

  function AfterPick(p: Pair): Pair {
    Step(Step(p, A, PickAct), B, PickAct)
  }

  function AfterComplete(p: Pair): Pair {
    Step(Step(p, A, CompleteAct), B, CompleteAct)
  }

  lemma ReachSwap(p: Pair, q: Pair)
    requires Attained(p, q)
    ensures Attained(p, AfterPick(q)) && Attained(p, AfterComplete(q)) && Attained(p, ReceivePhase(q))
  {
    AttainedStep(p, q, A, PickAct);
    AttainedStep(p, Step(q, A, PickAct), B, PickAct);
    AttainedStep(p, q, A, CompleteAct);
    AttainedStep(p, Step(q, A, CompleteAct), B, CompleteAct);
    AttainedStep(p, q, A, DeliverAct);
    AttainedStep(p, Step(q, A, DeliverAct), B, DeliverAct);
  }

  function NullDriving(cfg: Config, maxRx: nat): Node {
    var x := NodeAt(cfg, maxRx, STARTED);
    x.(ep := x.ep.(slot := Driving(Null)))
  }

  function NullDriven(cfg: Config, maxRx: nat): Node {
    NodeAt(cfg, maxRx, NULL_SENT).(out := [Null])
  }

  lemma NullsCross(a: Config, maxA: nat, b: Config, maxB: nat)
    ensures AfterPick(Pair(NodeAt(a, maxA, STARTED), NodeAt(b, maxB, STARTED)))
            == Pair(NullDriving(a, maxA), NullDriving(b, maxB))
    ensures AfterComplete(Pair(NullDriving(a, maxA), NullDriving(b, maxB)))
            == Pair(NullDriven(a, maxA), NullDriven(b, maxB))
    ensures ReceivePhase(Pair(NullDriven(a, maxA), NullDriven(b, maxB)))
            == Pair(NodeAt(a, maxA, CONNECTING), NodeAt(b, maxB, CONNECTING))
  {
    assert Feed(STARTED, SentNull) == NULL_SENT;
    assert Feed(NULL_SENT, GotNull) == CONNECTING;
  }

  function FctDriving(cfg: Config, maxRx: nat): Node {
    var x := NodeAt(cfg, maxRx, CONNECTING);
    x.(ep := x.ep.(slot := Driving(Fct), fctSentThisConnecting := true,
                   credit := OnFctSent(Fresh(maxRx))))
  }

  function FctDriven(cfg: Config, maxRx: nat): Node {
    var x := FctDriving(cfg, maxRx);
    x.(ep := x.ep.(slot := Idle, fsm := FCT_SENT), out := [Fct])
  }

  /** A node in Run with nothing to send, in flight or waiting, and the given credit. */
  function RunningWith(cfg: Config, credit: Credit): Node {
    var x := NodeAt(cfg, credit.maxRx, RUNNING);
    x.(ep := x.ep.(fctSentThisConnecting := true, credit := credit))
  }

  /** A node that has just entered Run: one FCT sent and one received. */
  function RunningNode(cfg: Config, maxRx: nat): Node {
    RunningWith(cfg, OnFctReceived(OnFctSent(Fresh(maxRx))))
  }

  lemma FctsCross(a: Config, maxA: nat, b: Config, maxB: nat)
    requires !a.onlyNulls && !b.onlyNulls
    ensures AfterPick(Pair(NodeAt(a, maxA, CONNECTING), NodeAt(b, maxB, CONNECTING)))
            == Pair(FctDriving(a, maxA), FctDriving(b, maxB))
    ensures AfterComplete(Pair(FctDriving(a, maxA), FctDriving(b, maxB)))
            == Pair(FctDriven(a, maxA), FctDriven(b, maxB))
    ensures ReceivePhase(Pair(FctDriven(a, maxA), FctDriven(b, maxB)))
            == Pair(RunningNode(a, maxA), RunningNode(b, maxB))
  {
    assert Feed(CONNECTING, SentFct) == FCT_SENT;
    assert Feed(FCT_SENT, GotFct) == RUNNING;
  }

  /** Whatever their caps, two commanded ends, neither restricted to NULLs, can bring each
      other to Run. */
  lemma AnyHandshake(a: Config, maxA: nat, b: Config, maxB: nat)
    requires !a.onlyNulls && !b.onlyNulls
    ensures Attained(PowerUp(a, maxA, b, maxB), Pair(RunningNode(a, maxA), RunningNode(b, maxB)))
  {
    var p := PowerUp(a, maxA, b, maxB);
    ReachStarted(a, maxA, b, maxB);
    NullsCross(a, maxA, b, maxB);
    ReachSwap(p, Pair(NodeAt(a, maxA, STARTED), NodeAt(b, maxB, STARTED)));
    ReachSwap(p, Pair(NullDriving(a, maxA), NullDriving(b, maxB)));
    ReachSwap(p, Pair(NullDriven(a, maxA), NullDriven(b, maxB)));
    FctsCross(a, maxA, b, maxB);
    ReachSwap(p, Pair(NodeAt(a, maxA, CONNECTING), NodeAt(b, maxB, CONNECTING)));
    ReachSwap(p, Pair(FctDriving(a, maxA), FctDriving(b, maxB)));
    ReachSwap(p, Pair(FctDriven(a, maxA), FctDriven(b, maxB)));
  }

  lemma HandshakeReachesRun(a: Config, maxA: nat, b: Config, maxB: nat)
    requires SaneCap(a, maxA) && SaneCap(b, maxB) && !a.onlyNulls && !b.onlyNulls
    ensures Reachable(Pair(RunningNode(a, maxA), RunningNode(b, maxB)))
  {
    AnyHandshake(a, maxA, b, maxB);
    var steps :| Pair(RunningNode(a, maxA), RunningNode(b, maxB)) == Play(PowerUp(a, maxA, b, maxB), steps);
  }

  /** Main result, with the lemma above: an end restricted to NULLs keeps both ends out of
      Run. */
  lemma RunNeedsFcts(q: Pair)
    requires Reachable(q) && NeverReset(q)
    requires q.a.ep.fsm.state.Run? || q.b.ep.fsm.state.Run?
    ensures !q.a.ep.cfg.onlyNulls && !q.b.ep.cfg.onlyNulls
  {
    ReachableIsJoined(q);
  }

  // ----- the peak of the receive queue ---------------------------------------------------------

  /** Both ends in Run with nothing queued, driven or on the line, and nothing waiting at `a`. */
  ghost predicate Still(q: Pair) {
    && Reachable(q) && PairJoined(q)
    && q.a.ep.fsm.state.Run? && q.b.ep.fsm.state.Run?
    && q.a.ep.slot.Idle? && q.b.ep.slot.Idle? && q.a.out == [] && q.b.out == []
    && q.a.ep.txQueue == [] && q.b.ep.txQueue == [] && q.a.ep.rxQueue == []
  }

  /** `a` sends to `b` and has no FCT of its own to send first. */
  ghost predicate Pumping(q: Pair) {
    Still(q) && q.a.ep.credit.rx > q.a.ep.credit.maxRx - 8
  }

  /** `side` picks, drives and delivers one character. */
  function Hop(q: Pair, side: Side): Pair {
    var r := Step(Step(q, side, PickAct), side, CompleteAct);
    Step(r, if side == A then B else A, DeliverAct)
  }

  lemma HopEffect(x: Node, y: Node)
    requires Joined(x, y) && x.ep.fsm.state.Run? && y.ep.fsm.state.Run?
    requires x.ep.slot.Idle? && x.out == [] && y.out == []
    ensures CanPick(x.ep)
    ensures var x1 := Actor(x, y, PickAct);
            && Enabled(x1, y, CompleteAct) && Actor(x1, y, CompleteAct) == Transmitted(x)
            && Actor(y, Transmitted(x), DeliverAct) == Delivered(y, Chosen(x.ep))
            && Joined(Delivered(y, Chosen(x.ep)), x.(ep := Sent(x.ep)))
  {
    PickThenComplete(x.ep);
    ProtocolActKeeps(x, y, PickAct);
    var x1 := Actor(x, y, PickAct);
    ProtocolActKeeps(x1, y, CompleteAct);
    assert Actor(x1, y, CompleteAct) == Transmitted(x);
    HopArrives(y, Transmitted(x));
  }

  lemma HopArrives(y: Node, x: Node)
    requires Joined(x, y) && y.ep.fsm.state.Run? && y.out == [] && |x.out| == 1
    ensures Actor(y, x, DeliverAct) == Delivered(y, x.out[0])
    ensures Joined(Delivered(y, x.out[0]), x.(out := []))
  {
    DeliverOne(y, x);
    ProtocolActKeeps(y, x, DeliverAct);
  }

  /** The pair after a hop. */
  lemma HopReaches(q: Pair, side: Side)
    requires Reachable(q) && PairJoined(q) && q.a.ep.fsm.state.Run? && q.b.ep.fsm.state.Run?
    requires q.a.ep.slot.Idle? && q.b.ep.slot.Idle? && q.a.out == [] && q.b.out == []
    ensures Reachable(Hop(q, side))
    ensures side == A ==>
              Hop(q, side) == Pair(q.a.(ep := Sent(q.a.ep)), Delivered(q.b, Chosen(q.a.ep)))
    ensures side == B ==>
              Hop(q, side) == Pair(Delivered(q.a, Chosen(q.b.ep)), q.b.(ep := Sent(q.b.ep)))
    ensures PairJoined(Hop(q, side))
  {
    var q1 := Step(q, side, PickAct);
    var q2 := Step(q1, side, CompleteAct);
    var other := if side == A then B else A;
    ReachableStep(q, side, PickAct);
    ReachableStep(q1, side, CompleteAct);
    ReachableStep(q2, other, DeliverAct);
    match side
    case A =>
      HopEffect(q.a, q.b);
      assert q2 == Pair(Transmitted(q.a), q.b);
    case B =>
      HopEffect(q.b, q.a);
      assert q2 == Pair(q.a, Transmitted(q.b));
  }

  /** The receiving end grants eight more. */
  lemma GrantOne(q: Pair) returns (r: Pair)
    requires Pumping(q) && ShouldSendFct(q.b.ep.credit, Headroom(q.b.ep))
    ensures Pumping(r) && r.b.ep.cfg == q.b.ep.cfg && r.b.ep.credit.maxRx == q.b.ep.credit.maxRx
    ensures r.b.ep.credit.rx == q.b.ep.credit.rx + 8 && r.b.ep.rxQueue == q.b.ep.rxQueue
  {
    HopReaches(q, B);
    r := Hop(q, B);
  }

  /** The sending end queues one N-Char and sends it. */
  lemma PushOne(q: Pair) returns (r: Pair)
    requires Pumping(q) && q.b.ep.credit.rx > 0
    ensures Pumping(r) && r.b.ep.cfg == q.b.ep.cfg && r.b.ep.credit.maxRx == q.b.ep.credit.maxRx
    ensures r.b.ep.credit.rx == q.b.ep.credit.rx - 1 && |r.b.ep.rxQueue| == |q.b.ep.rxQueue| + 1
  {
    assert CreditConserved(q.a, q.b);
    var act := SendAct([Data(0)]);
    ReachableStep(q, A, act);
    ProtocolStepKeeps(q, A, act);
    var s := Step(q, A, act);
    assert Chosen(s.a.ep) == Normal(Data(0));
    HopReaches(s, A);
    r := Hop(s, A);
  }

  lemma TakeIn(q: Pair) returns (r: Pair)
    requires Pumping(q) && q.b.ep.rxQueue != []
    ensures Pumping(r) && r.b.ep.cfg == q.b.ep.cfg && r.b.ep.credit.maxRx == q.b.ep.credit.maxRx
    ensures r.b.ep.credit.rx == q.b.ep.credit.rx && |r.b.ep.rxQueue| == |q.b.ep.rxQueue| - 1
  {
    ReachableStep(q, B, TakeAct);
    ProtocolStepKeeps(q, B, TakeAct);
    r := Step(q, B, TakeAct);
  }

  lemma {:induction false} FillSender(q: Pair) returns (r: Pair)
    requires Still(q)
    ensures Pumping(r) && r.b.ep.cfg == q.b.ep.cfg && r.b.ep.credit.maxRx == q.b.ep.credit.maxRx
    ensures r.b.ep.rxQueue == q.b.ep.rxQueue
    decreases q.a.ep.credit.maxRx - q.a.ep.credit.rx
  {
    if Pumping(q) {
      r := q;
    } else {
      HopReaches(q, A);
      r := FillSender(Hop(q, A));
    }
  }

  lemma {:induction false} FillToThreshold(q: Pair) returns (r: Pair)
    requires Pumping(q) && |q.b.ep.rxQueue| <= q.b.ep.cfg.capacity - 8
    ensures Pumping(r) && r.b.ep.cfg == q.b.ep.cfg && r.b.ep.credit.maxRx == q.b.ep.credit.maxRx
    ensures |r.b.ep.rxQueue| == r.b.ep.cfg.capacity - 8
    decreases q.b.ep.cfg.capacity - 8 - |q.b.ep.rxQueue|, if q.b.ep.credit.rx == 0 then 1 else 0
  {
    if |q.b.ep.rxQueue| == q.b.ep.cfg.capacity - 8 {
      r := q;
    } else if q.b.ep.credit.rx == 0 {
      var s := GrantOne(q);
      r := FillToThreshold(s);
    } else {
      var s := PushOne(q);
      r := FillToThreshold(s);
    }
  }

  lemma {:induction false} TuneCredit(q: Pair) returns (r: Pair)
    requires Pumping(q) && |q.b.ep.rxQueue| == q.b.ep.cfg.capacity - 8
    ensures Pumping(r) && r.b.ep.cfg == q.b.ep.cfg && r.b.ep.credit.maxRx == q.b.ep.credit.maxRx
    ensures |r.b.ep.rxQueue| == r.b.ep.cfg.capacity - 8
    ensures r.b.ep.credit.rx == r.b.ep.credit.maxRx - 8
    decreases if q.b.ep.credit.rx < q.b.ep.credit.maxRx - 8 then 1 else 0,
              if q.b.ep.credit.rx < q.b.ep.credit.maxRx - 8
              then q.b.ep.credit.maxRx - q.b.ep.credit.rx else q.b.ep.credit.rx
  {
    var rx, max := q.b.ep.credit.rx, q.b.ep.credit.maxRx;
    if rx == max - 8 {
      r := q;
    } else if rx < max - 8 {
      var s := GrantOne(q);
      r := TuneCredit(s);
    } else {
      var s := PushOne(q);
      s := TakeIn(s);
      r := TuneCredit(s);
    }
  }

  lemma {:induction false} PushAll(q: Pair) returns (r: Pair)
    requires Pumping(q)
    ensures Pumping(r) && r.b.ep.cfg == q.b.ep.cfg && r.b.ep.credit.maxRx == q.b.ep.credit.maxRx
    ensures |r.b.ep.rxQueue| == |q.b.ep.rxQueue| + q.b.ep.credit.rx && r.b.ep.credit.rx == 0
    decreases q.b.ep.credit.rx
  {
    if q.b.ep.credit.rx == 0 {
      r := q;
    } else {
      var s := PushOne(q);
      r := PushAll(s);
    }
  }

  lemma FilledToPeak(a: Config, maxA: nat, b: Config, maxB: nat) returns (q: Pair)
    requires SaneCap(a, maxA) && SaneCap(b, maxB) && !a.onlyNulls && !b.onlyNulls
    ensures Pumping(q) && q.b.ep.cfg == b && q.b.ep.credit.maxRx == maxB
    ensures |q.b.ep.rxQueue| == b.capacity + maxB - 8 && q.b.ep.credit.rx == 0
  {
    HandshakeReachesRun(a, maxA, b, maxB);
    q := Pair(RunningNode(a, maxA), RunningNode(b, maxB));
    ReachableIsJoined(q);
    q := FillSender(q);
    q := FillToThreshold(q);
    q := TuneCredit(q);
    q := GrantOne(q);
    q := PushAll(q);
  }

  lemma ReachableSwaps(q: Pair)
    requires Reachable(q)
    ensures Reachable(Swapped(q))
  {
    var a, maxA, b, maxB, steps :|
      SaneCap(a, maxA) && SaneCap(b, maxB) && q == Play(PowerUp(a, maxA, b, maxB), steps);
    PlaySwaps(PowerUp(a, maxA, b, maxB), steps);
    assert Swapped(q) == Play(PowerUp(b, maxB, a, maxA), SwappedSteps(steps));
  }

  function EndAt(q: Pair, side: Side): Endpoint {
    if side.A? then q.a.ep else q.b.ep
  }

  /** A state before the first reset, the end at `side` being configured as given. */
  ghost predicate Configured(q: Pair, side: Side, cfg: Config, maxRx: nat) {
    Reachable(q) && NeverReset(q) && EndAt(q, side).cfg == cfg && EndAt(q, side).credit.maxRx == maxRx
  }

  /** Main result: the bound on the receive queue before the first reset is exact at both ends,
      for every configuration that can reach Run.  With capacity and cap 56 the queue can hold
      104 N-Chars. */
  lemma PeakIsReached(a: Config, maxA: nat, b: Config, maxB: nat)
    requires SaneCap(a, maxA) && SaneCap(b, maxB) && !a.onlyNulls && !b.onlyNulls
    ensures exists q :: Configured(q, A, a, maxA) && |EndAt(q, A).rxQueue| == a.capacity + maxA - 8
    ensures exists q :: Configured(q, B, b, maxB) && |EndAt(q, B).rxQueue| == b.capacity + maxB - 8
  {
    var q := FilledToPeak(a, maxA, b, maxB);
    assert Configured(q, B, b, maxB);
    var p := FilledToPeak(b, maxB, a, maxA);
    ReachableSwaps(p);
    assert Configured(Swapped(p), A, a, maxA);
  }

  /** The receive queue of either end is confined to the configured capacity in all runs up to
      the first reset exactly when its credit cap is a single FCT. */
  lemma CapacityRespectedExactly(side: Side, cfg: Config, maxRx: nat)
    requires SaneCap(cfg, maxRx) && !cfg.onlyNulls
    ensures maxRx == 8 <==>
            forall q :: Configured(q, side, cfg, maxRx) ==> |EndAt(q, side).rxQueue| <= cfg.capacity
  {
    PeakIsReached(cfg, maxRx, cfg, maxRx);
    forall q | Configured(q, side, cfg, maxRx)
      ensures |EndAt(q, side).rxQueue| <= cfg.capacity + maxRx - 8
    {
      ReceiveQueueBound(q);
    }
  }
}
