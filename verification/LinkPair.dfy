/**
 Two endpoints joined by two faultless first-in-first-out channels, as a step
 system: the atomic steps of either endpoint interleave in any order.
 */
module LinkPair {
  import opened LinkFsm
  import opened FlowControl
  import opened Packets
  import opened Endpoints

  /** One end of the link: the endpoint, the channel it sends into, and the histories of
      the N-Chars its application has queued and has taken. */
  datatype Node = Node(ep: Endpoint, out: seq<LineChar>, queued: seq<NChar>, taken: seq<NChar>)

  datatype Pair = Pair(a: Node, b: Node)

  datatype Side = A | B

  datatype Act =
    | PickAct
    | CompleteAct
    | DeliverAct
    | TakeAct
    | SendAct(ns: seq<NChar>)
    | ExternalAct(ev: Event)

  function NewNode(cfg: Config, maxRx: nat): Node {
    Node(NewEndpoint(cfg, maxRx), [], [], [])
  }

  function HeardAs(ch: LineChar): Heard {
    match ch
    case Null => HeardNull
    case Fct => HeardFct
    case Normal(n) => HeardNormal(n)
  }

  predicate Enabled(x: Node, y: Node, act: Act) {
    match act
    case PickAct => CanPick(x.ep)
    case CompleteAct => x.ep.slot.Driving?
    case DeliverAct => |y.out| > 0
    case TakeAct => |x.ep.rxQueue| > 0
    case SendAct(_) => true
    case ExternalAct(ev) => IsExternal(ev)
  }

  /** What the acting node becomes. */
  function Actor(x: Node, y: Node, act: Act): Node
    requires Enabled(x, y, act)
  {
    match act
    case PickAct => x.(ep := Pick(x.ep))
    case CompleteAct => x.(ep := Complete(x.ep), out := x.out + [x.ep.slot.ch])
    case DeliverAct => x.(ep := Dispatch(x.ep, HeardAs(y.out[0])))
    case TakeAct => x.(ep := TakeOne(x.ep), taken := x.taken + [x.ep.rxQueue[0]])
    case SendAct(ns) => x.(ep := Enqueue(x.ep, ns), queued := x.queued + ns)
    case ExternalAct(ev) => x.(ep := FeedFsm(x.ep, ev))
  }

  /** What its peer becomes: a delivery empties the peer's channel by one. */
  function Other(x: Node, y: Node, act: Act): Node
    requires Enabled(x, y, act)
  {
    if act.DeliverAct? then y.(out := y.out[1..]) else y
  }

  /** One step; a step that is not enabled changes nothing. */
  function Step(p: Pair, side: Side, act: Act): Pair {
    match side
    case A => if Enabled(p.a, p.b, act) then Pair(Actor(p.a, p.b, act), Other(p.a, p.b, act)) else p
    case B => if Enabled(p.b, p.a, act) then Pair(Other(p.b, p.a, act), Actor(p.b, p.a, act)) else p
  }

  function Play(p: Pair, steps: seq<(Side, Act)>): Pair
    decreases |steps|
  {
    if steps == [] then p else Play(Step(p, steps[0].0, steps[0].1), steps[1..])
  }

  lemma {:induction false} PlaySplits(p: Pair, s: seq<(Side, Act)>, t: seq<(Side, Act)>)
    ensures Play(p, s + t) == Play(Play(p, s), t)
    decreases |s|
  {
    if s == [] {
      assert s + t == t;
    } else {
      assert (s + t)[1..] == s[1..] + t;
      PlaySplits(Step(p, s[0].0, s[0].1), s[1..], t);
    }
  }

  // ----- the two ends are alike --------------------------------------------------------

  function Swapped(p: Pair): Pair {
    Pair(p.b, p.a)
  }

  function Across(s: Side): Side {
    if s.A? then B else A
  }

  function SwappedSteps(steps: seq<(Side, Act)>): (r: seq<(Side, Act)>)
    ensures |r| == |steps|
  {
    seq(|steps|, i requires 0 <= i < |steps| => (Across(steps[i].0), steps[i].1))
  }

  lemma StepSwaps(p: Pair, side: Side, act: Act)
    ensures Swapped(Step(p, side, act)) == Step(Swapped(p), Across(side), act)
  {
  }

  lemma {:induction false} PlaySwaps(p: Pair, steps: seq<(Side, Act)>)
    ensures Swapped(Play(p, steps)) == Play(Swapped(p), SwappedSteps(steps))
    decreases |steps|
  {
    if steps != [] {
      StepSwaps(p, steps[0].0, steps[0].1);
      PlaySwaps(Step(p, steps[0].0, steps[0].1), steps[1..]);
      assert SwappedSteps(steps)[1..] == SwappedSteps(steps[1..]);
    }
  }

  // ----- what is in flight ------------------------------------------------------------

  function Fcts(s: seq<LineChar>): nat
    decreases |s|
  {
    if s == [] then 0 else (if s[0].Fct? then 1 else 0) + Fcts(s[1..])
  }

  function NChars(s: seq<LineChar>): seq<NChar>
    decreases |s|
  {
    if s == [] then [] else (if s[0].Normal? then [s[0].n] else []) + NChars(s[1..])
  }

  /** The first character that is not a NULL is an FCT. */
  predicate LeadsWithFct(s: seq<LineChar>)
    decreases |s|
  {
    s != [] && (s[0].Fct? || (s[0].Null? && LeadsWithFct(s[1..])))
  }

  predicate AllNull(s: seq<LineChar>) {
    forall i :: 0 <= i < |s| ==> s[i].Null?
  }

  lemma {:induction false} Appended(s: seq<LineChar>, ch: LineChar)
    ensures Fcts(s + [ch]) == Fcts(s) + if ch.Fct? then 1 else 0
    ensures NChars(s + [ch]) == NChars(s) + if ch.Normal? then [ch.n] else []
    ensures LeadsWithFct(s) ==> LeadsWithFct(s + [ch])
    ensures AllNull(s) && ch.Fct? ==> LeadsWithFct(s + [ch])
    decreases |s|
  {
    if s == [] {
      assert s + [ch] == [ch];
    } else {
      assert (s + [ch])[1..] == s[1..] + [ch];
      Appended(s[1..], ch);
    }
  }

  /** FCTs from this node on their way, the one being driven included. */
  function FctsInFlight(x: Node): nat {
    Fcts(x.out) + if x.ep.slot == Driving(Fct) then 1 else 0
  }

  function NCharsInFlight(x: Node): seq<NChar> {
    NChars(x.out) + if x.ep.slot.Driving? && x.ep.slot.ch.Normal? then [x.ep.slot.ch.n] else []
  }

  // ----- the invariant ------------------------------------------------------------------

  predicate Early(s: State) {
    s.ErrorReset? || s.ErrorWait? || s.Ready?
  }

  /** One node on its own, its configuration included. */
  predicate NodeOk(x: Node) {
    && EndpointOk(x.ep)
    && x.ep.credit.maxRx <= MAX_CREDIT
    && x.ep.credit.maxRx <= x.ep.cfg.capacity
  }

  /** What a node may have on the line in its present state. */
  predicate SendsOnlyAllowed(x: Node) {
    var f := x.ep.fsm;
    && (Early(f.state) ==> x.ep.slot.Idle? && x.out == [])
    && (x.ep.slot == Driving(Fct) ==> f.state.Connecting? || f.state.Run?)
    && (!f.state.Run? ==> !(x.ep.slot.Driving? && x.ep.slot.ch.Normal?))
    && (!f.sentFct ==> AllNull(x.out))
    && (!f.state.Run? ==> NChars(x.out) == [])
  }

  /** What the sender `x` has sent and what the receiver `y` has heard agree: a NULL
      before anything else, then an FCT before any N-Char. */
  predicate HandshakeOrder(x: Node, y: Node) {
    var f, g := x.ep.fsm, y.ep.fsm;
    && (f.sentNull <==> g.gotNull || x.out != [])
    && (!g.gotNull && x.out != [] ==> x.out[0].Null?)
    && (g.gotFct ==> f.sentFct)
    && (f.sentFct && !g.gotFct ==> LeadsWithFct(x.out))
  }

  /** Credit conservation for the N-Chars from `x` to `y`: what `y` has granted and not
      yet seen used is in the hands of `x`, in an FCT on its way to `x`, or in an N-Char
      on its way to `y`. */
  predicate CreditConserved(x: Node, y: Node) {
    y.ep.credit.rx == x.ep.credit.tx + 8 * FctsInFlight(y) + |NCharsInFlight(x)|
  }

  /** Nothing is lost, repeated or reordered between the application of `x` and that of `y`. */
  predicate Transported(x: Node, y: Node) {
    x.queued == y.taken + y.ep.rxQueue + NCharsInFlight(x) + x.ep.txQueue
  }

  predicate Direction(x: Node, y: Node) {
    SendsOnlyAllowed(x) && HandshakeOrder(x, y) && CreditConserved(x, y) && Transported(x, y)
  }

  predicate Joined(x: Node, y: Node) {
    NodeOk(x) && NodeOk(y) && Direction(x, y) && Direction(y, x)
  }

  predicate NeverReset(p: Pair) {
    p.a.ep.resets == 0 && p.b.ep.resets == 0
  }

  // ----- feeding the state machine without a reset ---------------------------------------

  function Rank(s: State): nat {
    match s
    case ErrorReset => 0
    case ErrorWait => 1
    case Ready => 2
    case Started => 3
    case Connecting => 4
    case Run => 5
  }

  /** The machine after an event that did not reset it: the flags are the updated ones and
      the state has only moved forward. */
  predicate Advanced(f: Fsm, ev: Event, g: Fsm) {
    && AtRest(g)
    && Rank(f.state) <= Rank(g.state)
    && g.gotNull == (f.gotNull || ev.GotNull?)
    && g.sentNull == (f.sentNull || (ev.SentNull? && f.state.Started?))
    && g.sentFct == (f.sentFct || (ev.SentFct? && f.state.Connecting?))
    && g.gotFct == (f.gotFct || (ev.GotFct? && f.state.Connecting?))
  }

  lemma FeedAdvances(f: Fsm, ev: Event)
    requires AtRest(f)
    requires Feed(f, ev).state.ErrorReset? ==> f.state.ErrorReset?
    ensures Advanced(f, ev, Feed(f, ev))
  {
    FeedKeepsAtRest(f, ev);
  }

  function Moved(e: Endpoint, g: Fsm): Endpoint {
    e.(fsm := g,
       fctSentThisConnecting :=
         e.fctSentThisConnecting && !(g.state.Connecting? && !e.fsm.state.Connecting?))
  }

  lemma FeedMoves(e: Endpoint, ev: Event)
    requires EndpointOk(e)
    requires FeedFsm(e, ev).resets == e.resets
    ensures Advanced(e.fsm, ev, Feed(e.fsm, ev))
    ensures FeedFsm(e, ev) == Moved(e, Feed(e.fsm, ev))
  {
    FeedAdvances(e.fsm, ev);
  }
}
