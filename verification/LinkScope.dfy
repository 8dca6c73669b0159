/**
 Why the results on the pair assume credit caps of at least one FCT: exactly then can no
 received character cause the first reset.  Below that cap the handshake FCT is still sent
 although it cannot be accounted for, and the first N-Char sent for it is a credit error;
 unless an end restricted to NULLs keeps both from ever sending one.
 */
module LinkScope {
  import opened LinkFsm
  import opened FlowControl
  import opened Packets
  import opened Endpoints
  import opened LinkPair
  import opened LinkSafety
  import opened LinkProgress
  import opened LinkReach

  // ----- both ends in Run, nothing queued or in flight --------------------------------------

  function BothRunning(a: Config, c: Credit, b: Config, d: Credit): Pair {
    Pair(RunningWith(a, c), RunningWith(b, d))
  }

  function Picking(cfg: Config, c: Credit, ch: LineChar, after: Credit): Node {
    var x := RunningWith(cfg, c);
    x.(ep := x.ep.(slot := Driving(ch), credit := after))
  }

  /** End A grants eight more, which end B takes note of. */
  lemma GrantHop(a: Config, c: Credit, b: Config, d: Credit)
    requires ShouldSendFct(c, a.capacity) && FctFits(d)
    ensures Step(BothRunning(a, c, b, d), A, PickAct)
            == Pair(Picking(a, c, Fct, OnFctSent(c)), RunningWith(b, d))
    ensures Step(Pair(Picking(a, c, Fct, OnFctSent(c)), RunningWith(b, d)), A, CompleteAct)
            == Pair(RunningWith(a, OnFctSent(c)).(out := [Fct]), RunningWith(b, d))
    ensures Step(Pair(RunningWith(a, OnFctSent(c)).(out := [Fct]), RunningWith(b, d)), B, DeliverAct)
            == BothRunning(a, OnFctSent(c), b, OnFctReceived(d))
  {
    RunIgnoresTraffic(RUNNING, SentFct);
    RunIgnoresTraffic(RUNNING, GotFct);
  }

  /** A sender with transmit credit, and a receiver that has granted none of it. */
  predicate Betrayed(c: Credit, d: Credit) {
    && c.tx > 0 && d.rx == 0 && c.maxRx <= MAX_CREDIT
    && (c.maxRx >= 8 ==> d.tx == c.rx)
  }

  /** The sender first grants whatever it has to grant. */
  lemma {:induction false} GrantAll(p: Pair, a: Config, c: Credit, b: Config, d: Credit)
    returns (c': Credit, d': Credit)
    requires Attained(p, BothRunning(a, c, b, d)) && Betrayed(c, d)
    ensures Attained(p, BothRunning(a, c', b, d')) && Betrayed(c', d')
    ensures !ShouldSendFct(c', a.capacity) && c'.maxRx == c.maxRx && d'.maxRx == d.maxRx
    decreases c.maxRx - c.rx
  {
    c', d' := c, d;
    if ShouldSendFct(c, a.capacity) {
      GrantHop(a, c, b, d);
      AttainedStep(p, BothRunning(a, c, b, d), A, PickAct);
      AttainedStep(p, Pair(Picking(a, c, Fct, OnFctSent(c)), RunningWith(b, d)), A, CompleteAct);
      AttainedStep(p, Pair(RunningWith(a, OnFctSent(c)).(out := [Fct]), RunningWith(b, d)), B, DeliverAct);
      c', d' := GrantAll(p, a, OnFctSent(c), b, OnFctReceived(d));
    }
  }

  function Loaded(cfg: Config, c: Credit): Node {
    var x := RunningWith(cfg, c);
    x.(ep := Enqueue(x.ep, [Data(0)]), queued := [Data(0)])
  }

  function Launched(cfg: Config, c: Credit): Node {
    Loaded(cfg, c).(ep := RunningWith(cfg, OnNCharSent(c)).ep, out := [Normal(Data(0))])
  }

  function Launching(cfg: Config, c: Credit): Node {
    var x := Loaded(cfg, c);
    x.(ep := x.ep.(txQueue := [], slot := Driving(Normal(Data(0))), credit := OnNCharSent(c)))
  }

  /** The N-Char it then sends resets its peer. */
  lemma NCharHop(a: Config, c: Credit, b: Config, d: Credit)
    requires Betrayed(c, d) && !ShouldSendFct(c, a.capacity)
    ensures Step(BothRunning(a, c, b, d), A, SendAct([Data(0)])) == Pair(Loaded(a, c), RunningWith(b, d))
    ensures Step(Pair(Loaded(a, c), RunningWith(b, d)), A, PickAct)
            == Pair(Launching(a, c), RunningWith(b, d))
    ensures Step(Pair(Launching(a, c), RunningWith(b, d)), A, CompleteAct)
            == Pair(Launched(a, c), RunningWith(b, d))
  {
    assert [] + [Data(0)] == [Data(0)];
  }

  lemma NCharResets(x: Node, b: Config, d: Credit)
    requires x.out == [Normal(Data(0))] && d.rx == 0
    ensures !NeverReset(Step(Pair(x, RunningWith(b, d)), B, DeliverAct))
  {
    var e := RunningWith(b, d).ep;
    RunIgnoresTraffic(RUNNING, GotNChar);
    assert FeedFsm(e, GotNChar) == e;
    assert Feed(RUNNING, CreditErr).state == ErrorReset;
  }

  /** A received character causes the first reset of an end with too small a cap. */
  ghost predicate CharacterResets(p: Pair) {
    exists q, side :: Attained(p, q) && NeverReset(q) && !NeverReset(Step(q, side, DeliverAct))
  }

  lemma SmallCapOfB(a: Config, maxA: nat, b: Config, maxB: nat)
    requires maxA <= MAX_CREDIT && maxB < 8 && !a.onlyNulls && !b.onlyNulls
    ensures CharacterResets(PowerUp(a, maxA, b, maxB))
  {
    var p := PowerUp(a, maxA, b, maxB);
    AnyHandshake(a, maxA, b, maxB);
    var c, d := OnFctReceived(OnFctSent(Fresh(maxA))), OnFctReceived(OnFctSent(Fresh(maxB)));
    assert BothRunning(a, c, b, d) == Pair(RunningNode(a, maxA), RunningNode(b, maxB));
    c, d := GrantAll(p, a, c, b, d);
    NCharHop(a, c, b, d);
    AttainedStep(p, BothRunning(a, c, b, d), A, SendAct([Data(0)]));
    AttainedStep(p, Pair(Loaded(a, c), RunningWith(b, d)), A, PickAct);
    AttainedStep(p, Pair(Launching(a, c), RunningWith(b, d)), A, CompleteAct);
    NCharResets(Launched(a, c), b, d);
    assert NeverReset(Pair(Launched(a, c), RunningWith(b, d)));
  }

  lemma CharacterResetsSwaps(p: Pair)
    requires CharacterResets(p)
    ensures CharacterResets(Swapped(p))
  {
    var q, side :| Attained(p, q) && NeverReset(q) && !NeverReset(Step(q, side, DeliverAct));
    var steps :| q == Play(p, steps);
    PlaySwaps(p, steps);
    StepSwaps(q, side, DeliverAct);
    assert Swapped(q) == Play(Swapped(p), SwappedSteps(steps));
    assert Attained(Swapped(p), Swapped(q));
  }

  // ----- an end that may not send FCTs -----------------------------------------------------------

  /** Two endpoints that differ at most in their capacity, their cap and the credit they have
      granted: outside Run they do the same. */
  predicate Alike(e: Endpoint, f: Endpoint) {
    && e.cfg.onlyNulls == f.cfg.onlyNulls && e.fsm == f.fsm && e.credit.tx == f.credit.tx
    && e.txQueue == f.txQueue && e.rxQueue == f.rxQueue
    && e.fctSentThisConnecting == f.fctSentThisConnecting
    && e.slot == f.slot && e.outstanding == f.outstanding && e.resets == f.resets
  }

  lemma FeedAlike(e: Endpoint, f: Endpoint, ev: Event)
    requires Alike(e, f)
    ensures Alike(FeedFsm(e, ev), FeedFsm(f, ev))
  {
  }

  lemma HearAlike(e: Endpoint, f: Endpoint, h: Heard)
    requires Alike(e, f) && !e.fsm.state.Run?
    ensures Alike(Dispatch(e, h), Dispatch(f, h))
  {
    match h
    case HeardError => FeedAlike(e, f, RxErr);
    case HeardNull => FeedAlike(e, f, GotNull);
    case HeardTimeCode => FeedAlike(e, f, GotTimeCode);
    case HeardFct =>
      FeedAlike(e, f, GotFct);
      FctAlike(FeedFsm(e, GotFct), FeedFsm(f, GotFct));
    case HeardNormal(_) =>
      FeedAlike(e, f, GotNChar);
      NCharNeverStarts(e.fsm);
  }

  lemma FctAlike(d: Endpoint, g: Endpoint)
    requires Alike(d, g)
    ensures FctFits(d.credit) <==> FctFits(g.credit)
    ensures Alike(d.(credit := OnFctReceived(d.credit)), g.(credit := OnFctReceived(g.credit)))
    ensures Alike(FeedFsm(d, CreditErr), FeedFsm(g, CreditErr))
  {
    FeedAlike(d, g, CreditErr);
  }

  lemma NCharNeverStarts(f: Fsm)
    requires !f.state.Run?
    ensures !Feed(f, GotNChar).state.Run?
  {
    FeedFollowsTable(f, GotNChar);
  }

  lemma CompleteAlike(e: Endpoint, f: Endpoint)
    requires Alike(e, f) && e.slot.Driving?
    ensures Alike(Complete(e), Complete(f))
  {
    FeedAlike(e.(slot := Idle), f.(slot := Idle), SentNull);
    FeedAlike(e.(slot := Idle), f.(slot := Idle), SentFct);
  }

  lemma HappenAlike(e: Endpoint, f: Endpoint, x: Happening)
    requires Alike(e, f) && !e.fsm.state.Run?
    ensures Alike(Happen(e, x), Happen(f, x))
  {
    match x
    case PickNext =>
    case CompleteChar => if e.slot.Driving? { CompleteAlike(e, f); }
    case Hear(h) => HearAlike(e, f, h);
    case Take =>
    case Queue(_) =>
    case External(ev) => if IsExternal(ev) { FeedAlike(e, f, ev); }
  }

  predicate AlikeNodes(x: Node, u: Node) {
    Alike(x.ep, u.ep) && x.out == u.out
  }

  predicate AlikePairs(p: Pair, q: Pair) {
    AlikeNodes(p.a, q.a) && AlikeNodes(p.b, q.b)
  }

  lemma ActorAlike(x: Node, y: Node, u: Node, v: Node, act: Act)
    requires AlikeNodes(x, u) && AlikeNodes(y, v) && !x.ep.fsm.state.Run?
    ensures Enabled(x, y, act) <==> Enabled(u, v, act)
    ensures Enabled(x, y, act) ==>
              && AlikeNodes(Actor(x, y, act), Actor(u, v, act))
              && AlikeNodes(Other(x, y, act), Other(u, v, act))
  {
    if Enabled(x, y, act) {
      ActorHappens(x, y, act);
      ActorHappens(u, v, act);
      HappenAlike(x.ep, u.ep, HappeningOf(y, act));
    }
  }

  lemma StepAlike(p: Pair, q: Pair, side: Side, act: Act)
    requires AlikePairs(p, q) && !p.a.ep.fsm.state.Run? && !p.b.ep.fsm.state.Run?
    ensures AlikePairs(Step(p, side, act), Step(q, side, act))
  {
    match side
    case A => ActorAlike(p.a, p.b, q.a, q.b, act);
    case B => ActorAlike(p.b, p.a, q.b, q.a, act);
  }

  /** One of the two ends is restricted to NULLs. */
  predicate Muted(p: Pair) {
    p.a.ep.cfg.onlyNulls || p.b.ep.cfg.onlyNulls
  }

  lemma StepKeepsMuted(p: Pair, side: Side, act: Act)
    requires Muted(p)
    ensures Muted(Step(p, side, act))
  {
    match side
    case A => if Enabled(p.a, p.b, act) { ActorKeepsConfig(p.a, p.b, act); }
    case B => if Enabled(p.b, p.a, act) { ActorKeepsConfig(p.b, p.a, act); }
  }

  lemma ActorKeepsConfig(x: Node, y: Node, act: Act)
    requires Enabled(x, y, act)
    ensures Actor(x, y, act).ep.cfg == x.ep.cfg && Other(x, y, act).ep.cfg == y.ep.cfg
  {
    ActorHappens(x, y, act);
    HappenKeepsConfig(x.ep, HappeningOf(y, act));
  }

  lemma HappenKeepsConfig(e: Endpoint, x: Happening)
    ensures Happen(e, x).cfg == e.cfg
  {
  }

  /** With a muted end every run up to its first reset goes as it would with caps of 56. */
  lemma {:induction false} MutedRunsAlike(p: Pair, q: Pair, steps: seq<(Side, Act)>)
    requires AlikePairs(p, q) && Reachable(q) && Muted(q) && NeverReset(Play(p, steps))
    ensures AlikePairs(Play(p, steps), Play(q, steps))
    ensures Reachable(Play(q, steps)) && Muted(Play(q, steps))
    decreases |steps|
  {
    if steps != [] {
      var (side, act) := steps[0];
      NeverResetBefore(p, steps);
      if q.a.ep.fsm.state.Run? || q.b.ep.fsm.state.Run? { RunNeedsFcts(q); }
      StepAlike(p, q, side, act);
      ReachableStep(q, side, act);
      StepKeepsMuted(q, side, act);
      MutedRunsAlike(Step(p, side, act), Step(q, side, act), steps[1..]);
    }
  }

  lemma MutedIsSafe(a: Config, maxA: nat, b: Config, maxB: nat)
    requires a.onlyNulls || b.onlyNulls
    ensures !CharacterResets(PowerUp(a, maxA, b, maxB))
  {
    var p := PowerUp(a, maxA, b, maxB);
    if CharacterResets(p) {
      var q, side :| Attained(p, q) && NeverReset(q) && !NeverReset(Step(q, side, DeliverAct));
      var steps :| q == Play(p, steps);
      var a', b' := Config(MAX_CREDIT, a.onlyNulls), Config(MAX_CREDIT, b.onlyNulls);
      var r := PowerUp(a', MAX_CREDIT, b', MAX_CREDIT);
      assert r == Play(r, []);
      MutedRunsAlike(p, r, steps);
      var s := Play(r, steps);
      if s.a.ep.fsm.state.Run? || s.b.ep.fsm.state.Run? { RunNeedsFcts(s); }
      StepAlike(q, s, side, DeliverAct);
      FirstResetComesFromOutside(s, side, DeliverAct);
    }
  }

  /** Main result: of two configured links a received character can cause the first reset
      exactly when one of the caps is too small for an FCT and neither end is restricted to
      NULLs. */
  lemma CharactersResetExactly(a: Config, maxA: nat, b: Config, maxB: nat)
    requires maxA <= MAX_CREDIT && maxA <= a.capacity && maxB <= MAX_CREDIT && maxB <= b.capacity
    ensures CharacterResets(PowerUp(a, maxA, b, maxB)) <==>
              (maxA < 8 || maxB < 8) && !a.onlyNulls && !b.onlyNulls
  {
    var p := PowerUp(a, maxA, b, maxB);
    if a.onlyNulls || b.onlyNulls {
      MutedIsSafe(a, maxA, b, maxB);
    } else if maxB < 8 {
      SmallCapOfB(a, maxA, b, maxB);
    } else if maxA < 8 {
      SmallCapOfB(b, maxB, a, maxA);
      CharacterResetsSwaps(PowerUp(b, maxB, a, maxA));
    } else if CharacterResets(p) {
      var q, side :| Attained(p, q) && NeverReset(q) && !NeverReset(Step(q, side, DeliverAct));
      var steps :| q == Play(p, steps);
      assert Reachable(q);
      FirstResetComesFromOutside(q, side, DeliverAct);
    }
  }
}
