/**
 Later sessions of the pair.  Whenever both ends are in ErrorReset with nothing on the line,
 nothing heard and no transmit credit left over, everything proved of the run from power-up
 holds again until the next reset, with what earlier sessions left in the queues delivered
 first.
 */
module LinkSessions {
  import opened LinkFsm
  import opened FlowControl
  import opened Packets
  import opened Endpoints
  import opened EndpointFacts
  import opened LinkPair
  import opened LinkSafety

  predicate CleanEnd(x: Node) {
    && EndpointOk(x.ep) && SaneCap(x.ep.cfg, x.ep.credit.maxRx)
    && x.ep.fsm.state.ErrorReset? && !x.ep.fsm.gotNull
    && x.ep.slot.Idle? && x.out == [] && x.ep.credit.tx == 0
  }

  predicate CleanStart(p: Pair) {
    CleanEnd(p.a) && CleanEnd(p.b)
  }

  predicate SameResets(p: Pair, q: Pair) {
    p.a.ep.resets == q.a.ep.resets && p.b.ep.resets == q.b.ep.resets
  }

  // ----- histories only record ------------------------------------------------------------------

  /** What an application had queued and taken before. */
  datatype History = History(queued: seq<NChar>, taken: seq<NChar>)

  function After(h: History, x: Node): Node {
    x.(queued := h.queued + x.queued, taken := h.taken + x.taken)
  }

  function AfterBoth(g: History, h: History, p: Pair): Pair {
    Pair(After(g, p.a), After(h, p.b))
  }

  lemma ActorAfter(g: History, h: History, x: Node, y: Node, act: Act)
    ensures Enabled(After(g, x), After(h, y), act) <==> Enabled(x, y, act)
    ensures Enabled(x, y, act) ==>
              && Actor(After(g, x), After(h, y), act) == After(g, Actor(x, y, act))
              && Other(After(g, x), After(h, y), act) == After(h, Other(x, y, act))
  {
    if Enabled(x, y, act) {
      match act
      case TakeAct => assert (g.taken + x.taken) + [x.ep.rxQueue[0]] == g.taken + (x.taken + [x.ep.rxQueue[0]]);
      case SendAct(ns) => assert (g.queued + x.queued) + ns == g.queued + (x.queued + ns);
      case _ =>
    }
  }

  lemma StepAfter(g: History, h: History, p: Pair, side: Side, act: Act)
    ensures Step(AfterBoth(g, h, p), side, act) == AfterBoth(g, h, Step(p, side, act))
  {
    match side
    case A => ActorAfter(g, h, p.a, p.b, act);
    case B => ActorAfter(h, g, p.b, p.a, act);
  }

  lemma {:induction false} PlayAfter(g: History, h: History, p: Pair, steps: seq<(Side, Act)>)
    ensures Play(AfterBoth(g, h, p), steps) == AfterBoth(g, h, Play(p, steps))
    decreases |steps|
  {
    if steps != [] {
      StepAfter(g, h, p, steps[0].0, steps[0].1);
      PlayAfter(g, h, Step(p, steps[0].0, steps[0].1), steps[1..]);
    }
  }

  // ----- one session ---------------------------------------------------------------------------

  lemma {:induction false} ResetsOnlyGrowInPlay(p: Pair, steps: seq<(Side, Act)>)
    ensures p.a.ep.resets <= Play(p, steps).a.ep.resets && p.b.ep.resets <= Play(p, steps).b.ep.resets
    decreases |steps|
  {
    if steps != [] {
      var (side, act) := steps[0];
      ResetsOnlyGrowInPlay(Step(p, side, act), steps[1..]);
      if Enabled(p.a, p.b, act) { ResetsCountUp(p.a, p.b, act); }
      if Enabled(p.b, p.a, act) { ResetsCountUp(p.b, p.a, act); }
    }
  }

  lemma SessionStep(p: Pair, side: Side, act: Act)
    requires Joined(p.a, p.b) && SameResets(p, Step(p, side, act))
    ensures Joined(Step(p, side, act).a, Step(p, side, act).b)
  {
    match side
    case A => if Enabled(p.a, p.b, act) { StepKeepsJoined(p.a, p.b, act); }
    case B => if Enabled(p.b, p.a, act) { StepKeepsJoined(p.b, p.a, act); }
  }

  lemma {:induction false} SessionKeepsJoined(p: Pair, steps: seq<(Side, Act)>)
    requires Joined(p.a, p.b) && SameResets(p, Play(p, steps))
    ensures Joined(Play(p, steps).a, Play(p, steps).b)
    decreases |steps|
  {
    if steps != [] {
      var (side, act) := steps[0];
      var q := Step(p, side, act);
      ResetsOnlyGrowInPlay(q, steps[1..]);
      ResetsOnlyGrowInPlay(p, [(side, act)]);
      assert Play(p, [(side, act)]) == q by { assert Play(q, []) == q; }
      SessionStep(p, side, act);
      SessionKeepsJoined(q, steps[1..]);
    }
  }

  /** The pair with its histories begun anew. */
  function Anew(p: Pair): Pair {
    Pair(p.a.(queued := [], taken := []), p.b.(queued := [], taken := []))
  }

  /** What the ends have left for each other in their queues. */
  function LeftFor(x: Node, y: Node): History {
    History(y.ep.rxQueue + x.ep.txQueue, [])
  }

  /** A clean start satisfies the joint invariant, the N-Chars still in the queues counting
      as queued by this session. */
  lemma CleanStartIsJoined(p: Pair)
    requires CleanStart(p)
    ensures var q := AfterBoth(LeftFor(p.a, p.b), LeftFor(p.b, p.a), Anew(p));
            Joined(q.a, q.b) && q.a.ep == p.a.ep && q.b.ep == p.b.ep
  {
    CleanDirection(p.a, p.b);
    CleanDirection(p.b, p.a);
  }

  lemma CleanDirection(x: Node, y: Node)
    requires CleanEnd(x) && CleanEnd(y)
    ensures var u := After(LeftFor(x, y), x.(queued := [], taken := []));
            var v := After(LeftFor(y, x), y.(queued := [], taken := []));
            NodeOk(u) && Direction(u, v)
  {
    var queued := y.ep.rxQueue + x.ep.txQueue;
    assert queued + [] == queued;
    assert [] + y.ep.rxQueue + [] + x.ep.txQueue == queued;
  }

  lemma SessionIsJoined(p: Pair, steps: seq<(Side, Act)>)
    requires CleanStart(p) && SameResets(p, Play(p, steps))
    ensures var z := Play(Anew(p), steps);
            var q := AfterBoth(LeftFor(p.a, p.b), LeftFor(p.b, p.a), z);
            && Joined(q.a, q.b)
            && Play(p, steps) == AfterBoth(History(p.a.queued, p.a.taken), History(p.b.queued, p.b.taken), z)
  {
    var g, h := LeftFor(p.a, p.b), LeftFor(p.b, p.a);
    var was, been := History(p.a.queued, p.a.taken), History(p.b.queued, p.b.taken);
    assert AfterBoth(was, been, Anew(p)) == p;
    PlayAfter(was, been, Anew(p), steps);
    PlayAfter(g, h, Anew(p), steps);
    CleanStartIsJoined(p);
    SessionKeepsJoined(AfterBoth(g, h, Anew(p)), steps);
  }

  /** Main result: in every session with a clean start credit is conserved in both directions,
      and the N-Chars taken at one end since its start are, in order, first those that its own
      receive queue held, then those the other end still had queued, then those queued there
      since. */
  lemma SessionIsSafe(p: Pair, steps: seq<(Side, Act)>)
    requires CleanStart(p) && SameResets(p, Play(p, steps))
    ensures var q := Play(p, steps);
            CreditConserved(q.a, q.b) && CreditConserved(q.b, q.a)
    ensures var q := Play(p, steps);
            && q.a.queued == p.a.queued + Play(Anew(p), steps).a.queued
            && q.b.taken == p.b.taken + Play(Anew(p), steps).b.taken
    ensures var z := Play(Anew(p), steps);
            && p.b.ep.rxQueue + p.a.ep.txQueue + z.a.queued
               == z.b.taken + z.b.ep.rxQueue + NCharsInFlight(z.a) + z.a.ep.txQueue
            && p.a.ep.rxQueue + p.b.ep.txQueue + z.b.queued
               == z.a.taken + z.a.ep.rxQueue + NCharsInFlight(z.b) + z.b.ep.txQueue
  {
    SessionIsJoined(p, steps);
    var z := Play(Anew(p), steps);
    var q := AfterBoth(LeftFor(p.a, p.b), LeftFor(p.b, p.a), z);
    assert Transported(q.a, q.b) && Transported(q.b, q.a);
    assert [] + z.a.taken == z.a.taken && [] + z.b.taken == z.b.taken;
  }

  /** Main result: and the session ends exactly as the first one does, by a line error outside
      ErrorReset, a timeout in Started or Connecting, or a disable in Run. */
  lemma SessionEndsFromOutside(p: Pair, steps: seq<(Side, Act)>, side: Side, act: Act)
    requires CleanStart(p) && SameResets(p, Play(p, steps))
    ensures var q := Play(p, steps);
            !SameResets(q, Step(q, side, act)) <==>
              act.ExternalAct? && IsExternal(act.ev) && Resets(StateAt(q, side), act.ev)
  {
    var z := Play(Anew(p), steps);
    SessionIsJoined(p, steps);
    JoinedEndsFromOutside(AfterBoth(LeftFor(p.a, p.b), LeftFor(p.b, p.a), z), side, act);
    StepAfter(LeftFor(p.a, p.b), LeftFor(p.b, p.a), z, side, act);
    StepAfter(History(p.a.queued, p.a.taken), History(p.b.queued, p.b.taken), z, side, act);
  }

  lemma JoinedEndsFromOutside(q: Pair, side: Side, act: Act)
    requires Joined(q.a, q.b)
    ensures !SameResets(q, Step(q, side, act)) <==>
              act.ExternalAct? && IsExternal(act.ev) && Resets(StateAt(q, side), act.ev)
  {
    match side
    case A => if Enabled(q.a, q.b, act) { OnlyOutsideEventsReset(q.a, q.b, act); }
    case B => if Enabled(q.b, q.a, act) { OnlyOutsideEventsReset(q.b, q.a, act); }
  }

  // ----- clean starts happen ---------------------------------------------------------------------

  const BOTH_FAIL: seq<(Side, Act)> := [(A, ExternalAct(RxErr)), (B, ExternalAct(RxErr))]

  /** Power-up is one. */
  lemma PowerUpIsClean(a: Config, maxA: nat, b: Config, maxB: nat)
    requires SaneCap(a, maxA) && SaneCap(b, maxB)
    ensures CleanStart(PowerUp(a, maxA, b, maxB))
  {
  }

  /** A line error at both ends of a running link with nothing on the line makes another, and
      leaves every queue as it was. */
  lemma FailureIsCleanStart(p: Pair)
    requires Joined(p.a, p.b) && p.a.ep.fsm.state.Run? && p.b.ep.fsm.state.Run?
    requires p.a.ep.slot.Idle? && p.b.ep.slot.Idle? && p.a.out == [] && p.b.out == []
    ensures var q := Play(p, BOTH_FAIL);
            && CleanStart(q)
            && q.a.ep.resets == p.a.ep.resets + 1 && q.b.ep.resets == p.b.ep.resets + 1
            && q.a.ep.rxQueue == p.a.ep.rxQueue && q.b.ep.rxQueue == p.b.ep.rxQueue
            && q.a.ep.txQueue == p.a.ep.txQueue && q.b.ep.txQueue == p.b.ep.txQueue
  {
    FailsCleanly(p.a, p.b);
    FailsCleanly(p.b, p.a);
    var q := Step(p, A, ExternalAct(RxErr));
    var r := Step(q, B, ExternalAct(RxErr));
    assert BOTH_FAIL[1..] == [(B, ExternalAct(RxErr))] && BOTH_FAIL[1..][1..] == [];
    assert Play(q, BOTH_FAIL[1..]) == Play(r, []);
  }

  lemma FailsCleanly(x: Node, y: Node)
    requires NodeOk(x) && x.ep.fsm.state.Run? && x.ep.slot.Idle? && x.out == []
    ensures var z := Actor(x, y, ExternalAct(RxErr));
            && CleanEnd(z) && z.ep.resets == x.ep.resets + 1
            && z.ep.rxQueue == x.ep.rxQueue && z.ep.txQueue == x.ep.txQueue
  {
    FeedKeepsOk(x.ep, RxErr);
    FeedInRun(x.ep.fsm, RxErr);
  }
}
