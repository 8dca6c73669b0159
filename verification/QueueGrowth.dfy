/**
 The bound of module ReceiveQueue over all histories is exact: each reset can add the eight
 N-Chars of one more handshake FCT to a receive queue that nobody reads.
 */
module QueueGrowth {
  import opened LinkFsm
  import opened FlowControl
  import opened Packets
  import opened Endpoints
  import opened ReceiveQueue
  import opened Sessions
  import opened LinkPair
  import opened LinkSafety
  import opened LinkReach

  /** An end in Run that has used up the credit it granted, its queue at the ceiling. */
  predicate Brimful(e: Endpoint, cfg: Config, maxRx: nat, resets: nat) {
    && EndpointOk(e) && e.cfg == cfg && e.credit.maxRx == maxRx && e.resets == resets
    && e.fsm.state.Run? && e.slot.Idle? && e.credit.rx == 0
    && |e.rxQueue| == cfg.capacity + maxRx - 8 + 8 * resets
  }

  function Incoming(n: nat): (xs: seq<Happening>)
    ensures |xs| == n
  {
    seq(n, i => Hear(HeardNormal(Data(0))))
  }

  /** An end in Run takes as many N-Chars as it has granted. */
  lemma {:induction false} TakesWhatItGranted(e: Endpoint, n: nat)
    requires EndpointOk(e) && e.fsm.state.Run? && n <= e.credit.rx
    ensures var d := HappenAll(e, Incoming(n));
            && EndpointOk(d) && d.fsm == e.fsm && d.slot == e.slot && d.cfg == e.cfg
            && d.resets == e.resets && d.credit.maxRx == e.credit.maxRx
            && d.credit.rx == e.credit.rx - n && |d.rxQueue| == |e.rxQueue| + n
    decreases n
  {
    if n > 0 {
      var x := Hear(HeardNormal(Data(0)));
      HappenKeepsOk(e, x);
      FeedInRun(e.fsm, GotNChar);
      assert Incoming(n)[1..] == Incoming(n - 1);
      TakesWhatItGranted(Happen(e, x), n - 1);
    }
  }

  const DROP: seq<Happening> := [External(RxErr)]

  /** One more session adds eight. */
  lemma AnotherSession(e: Endpoint, cfg: Config, maxRx: nat, k: nat)
    requires Brimful(e, cfg, maxRx, k) && !cfg.onlyNulls
    ensures Brimful(HappenAll(e, (DROP + SESSION) + Incoming(8)), cfg, maxRx, k + 1)
  {
    ErrorDrops(e);
    OneMore(e, External(RxErr));
    var d := HappenAll(e, DROP);
    SessionResult(d);
    HappenAllSplits(e, DROP, SESSION);
    var r := HappenAll(e, DROP + SESSION);
    EveryRunKeepsOk(e, DROP + SESSION);
    TakesWhatItGranted(r, 8);
    HappenAllSplits(e, DROP + SESSION, Incoming(8));
  }

  lemma BrimfulAtFirst(cfg: Config, maxRx: nat) returns (xs: seq<Happening>)
    requires SaneCap(cfg, maxRx) && !cfg.onlyNulls
    ensures Brimful(HappenAll(NewEndpoint(cfg, maxRx), xs), cfg, maxRx, 0)
  {
    var q := FilledToPeak(cfg, maxRx, cfg, maxRx);
    var a, maxA, b, maxB, steps :|
      SaneCap(a, maxA) && SaneCap(b, maxB) && q == Play(PowerUp(a, maxA, b, maxB), steps);
    var _, ys := EndsRun(PowerUp(a, maxA, b, maxB), steps);
    RunRises(NewEndpoint(b, maxB), ys);
    xs := ys;
  }

  /** Main result: for every number of resets some history of an end, from power-up, reaches
      the bound, for every configuration that can reach Run. */
  lemma {:induction false} BoundIsReached(cfg: Config, maxRx: nat, k: nat) returns (xs: seq<Happening>)
    requires SaneCap(cfg, maxRx) && !cfg.onlyNulls
    ensures Brimful(HappenAll(NewEndpoint(cfg, maxRx), xs), cfg, maxRx, k)
    decreases k
  {
    if k == 0 {
      xs := BrimfulAtFirst(cfg, maxRx);
    } else {
      var before := BoundIsReached(cfg, maxRx, k - 1);
      var e := HappenAll(NewEndpoint(cfg, maxRx), before);
      AnotherSession(e, cfg, maxRx, k - 1);
      HappenAllSplits(NewEndpoint(cfg, maxRx), before, (DROP + SESSION) + Incoming(8));
      xs := before + ((DROP + SESSION) + Incoming(8));
    }
  }
}
