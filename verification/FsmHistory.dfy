/**
 The state machine over whole histories, in terms of the events fed to it: what the level
 flags and the gotNULL latch remember, where every event leads, and so which commands start a
 link and which keep it down.
 */
module FsmHistory {
  import opened LinkFsm

  lemma FeedOneMore(es: seq<Event>, e: Event)
    ensures FeedAll(POWER_ON, es + [e]) == Feed(FeedAll(POWER_ON, es), e)
  {
    assert (es + [e])[..|es|] == es;
  }

  // ----- the levels -------------------------------------------------------------------------

  /** The command `on` was given at position `i` and the command `off` not since. */
  ghost predicate SetAt<T>(es: seq<T>, i: nat, on: T, off: T) {
    i < |es| && es[i] == on && forall j :: i < j < |es| ==> es[j] != off
  }

  /** The last of the two commands in a history was the one that sets. */
  ghost predicate LastSet<T>(es: seq<T>, on: T, off: T) {
    exists i :: SetAt(es, i, on, off)
  }

  lemma StaysSet<T>(es: seq<T>, e: T, on: T, off: T)
    ensures e == on ==> LastSet(es + [e], on, off)
    ensures LastSet(es, on, off) && e != off ==> LastSet(es + [e], on, off)
  {
    if e == on {
      assert SetAt(es + [e], |es|, on, off);
    } else if LastSet(es, on, off) && e != off {
      var i: nat :| SetAt(es, i, on, off);
      assert SetAt(es + [e], i, on, off);
    }
  }

  lemma WasSet<T>(es: seq<T>, e: T, on: T, off: T)
    requires LastSet(es + [e], on, off) && e != on
    ensures LastSet(es, on, off) && e != off
  {
    var ds := es + [e];
    var i: nat :| SetAt(ds, i, on, off);
    assert ds[|es|] == e && i < |es|;
    assert forall j :: 0 <= j < |es| ==> es[j] == ds[j];
    assert SetAt(es, i, on, off);
  }

  lemma LastSetStep<T>(es: seq<T>, e: T, on: T, off: T)
    requires on != off
    ensures LastSet(es + [e], on, off) <==> e == on || (e != off && LastSet(es, on, off))
  {
    StaysSet(es, e, on, off);
    if LastSet(es + [e], on, off) && e != on {
      WasSet(es, e, on, off);
    }
  }

  lemma FeedKeepsLevels(f: Fsm, e: Event)
    ensures var g := Feed(f, e);
            && (g.linkStart <==> e == LinkStart || (e != LinkStartClear && f.linkStart))
            && (g.linkDisable <==> e == LinkDisable || (e != LinkDisableClear && f.linkDisable))
            && (g.autoStart <==> e == AutoStart || (e != AutoStartClear && f.autoStart))
  {
  }

  /** Main result: after every history each level is set if and only if the last of its two
      commands was the one that sets it; no transition touches it. */
  lemma {:induction false} LevelsFollowCommands(es: seq<Event>)
    ensures var f := FeedAll(POWER_ON, es);
            && (f.linkStart <==> LastSet(es, LinkStart, LinkStartClear))
            && (f.linkDisable <==> LastSet(es, LinkDisable, LinkDisableClear))
            && (f.autoStart <==> LastSet(es, AutoStart, AutoStartClear))
    decreases |es|
  {
    if es != [] {
      var n := |es| - 1;
      LevelsFollowCommands(es[..n]);
      FeedKeepsLevels(FeedAll(POWER_ON, es[..n]), es[n]);
      assert es[..n] + [es[n]] == es;
      LastSetStep(es[..n], es[n], LinkStart, LinkStartClear);
      LastSetStep(es[..n], es[n], LinkDisable, LinkDisableClear);
      LastSetStep(es[..n], es[n], AutoStart, AutoStartClear);
    }
  }

  // ----- the gotNULL latch --------------------------------------------------------------------

  function StateAfter(es: seq<Event>): State {
    FeedAll(POWER_ON, es).state
  }

  /** The event at position `j` has brought the machine into ErrorReset. */
  predicate EnteredAt(es: seq<Event>, j: nat)
    requires j < |es|
  {
    StateAfter(es[..j + 1]).ErrorReset? && !StateAfter(es[..j]).ErrorReset?
  }

  /** A NULL has been heard at position `i` and ErrorReset has not been entered since. */
  predicate NullHeardAt(es: seq<Event>, i: nat) {
    i < |es| && es[i] == GotNull && forall j :: i < j < |es| ==> !EnteredAt(es, j)
  }

  ghost predicate NullHeard(es: seq<Event>) {
    exists i :: NullHeardAt(es, i)
  }

  lemma FeedKeepsGotNull(f: Fsm, e: Event)
    ensures Feed(f, e).gotNull <==>
              (f.gotNull || e == GotNull) && !(Feed(f, e).state.ErrorReset? && !f.state.ErrorReset?)
    ensures e == GotNull && !f.state.ErrorReset? ==> !Feed(f, e).state.ErrorReset?
  {
    FeedFollowsTable(f, e);
  }

  lemma EnteredBefore(es: seq<Event>, e: Event, j: nat)
    requires j < |es|
    ensures EnteredAt(es + [e], j) <==> EnteredAt(es, j)
  {
    assert (es + [e])[..j] == es[..j] && (es + [e])[..j + 1] == es[..j + 1];
  }

  lemma EnteredLast(es: seq<Event>, e: Event)
    ensures EnteredAt(es + [e], |es|) <==> StateAfter(es + [e]).ErrorReset? && !StateAfter(es).ErrorReset?
  {
    assert (es + [e])[..|es|] == es && (es + [e])[..|es| + 1] == es + [e];
  }

  lemma NullHeardAtStep(es: seq<Event>, e: Event, i: nat)
    requires i < |es|
    ensures NullHeardAt(es + [e], i) <==> NullHeardAt(es, i) && !EnteredAt(es + [e], |es|)
  {
    forall j | 0 <= j < |es| ensures EnteredAt(es + [e], j) <==> EnteredAt(es, j) {
      EnteredBefore(es, e, j);
    }
  }

  lemma NullHeardStep(es: seq<Event>, e: Event)
    ensures NullHeard(es + [e]) <==> e == GotNull || (NullHeard(es) && !EnteredAt(es + [e], |es|))
  {
    var ds := es + [e];
    if e == GotNull {
      assert NullHeardAt(ds, |es|);
    }
    if NullHeard(es) {
      var i: nat :| NullHeardAt(es, i);
      NullHeardAtStep(es, e, i);
    }
    if NullHeard(ds) && e != GotNull {
      var i: nat :| NullHeardAt(ds, i);
      assert ds[|es|] == e;
      NullHeardAtStep(es, e, i);
    }
  }

  /** The latch is set if and only if a NULL has been heard since the last entry to
      ErrorReset. */
  lemma {:induction false} GotNullIsHeard(es: seq<Event>)
    ensures FeedAll(POWER_ON, es).gotNull <==> NullHeard(es)
    decreases |es|
  {
    if es != [] {
      var n := |es| - 1;
      GotNullIsHeard(es[..n]);
      FeedKeepsGotNull(FeedAll(POWER_ON, es[..n]), es[n]);
      assert es[..n] + [es[n]] == es;
      EnteredLast(es[..n], es[n]);
      NullHeardStep(es[..n], es[n]);
    }
  }

  // ----- where every event leads -----------------------------------------------------------------

  /** A character out of place, or a line error, before Connecting. */
  predicate OutOfPlace(f: Fsm, e: Event) {
    e == RxErr || (f.gotNull && (e == GotFct || e == GotNChar || e == GotTimeCode))
  }

  /** The levels and the latch allow the link to start. */
  predicate MayStart(f: Fsm) {
    !f.linkDisable && (f.linkStart || (f.autoStart && f.gotNull))
  }

  lemma FromErrorReset(f: Fsm, e: Event)
    requires f.state.ErrorReset?
    ensures Feed(f, e).state == if e == Tick6400 && !f.linkDisable then ErrorWait else ErrorReset
  {
  }

  lemma FromErrorWait(f: Fsm, e: Event)
    requires f.state.ErrorWait?
    ensures Feed(f, e).state ==
              if OutOfPlace(f, e) then ErrorReset
              else if e != Tick12800 then ErrorWait
              else if MayStart(f) then Started
              else Ready
  {
    FeedInErrorWait(f, e);
  }

  lemma FromReady(f: Fsm, e: Event)
    requires f.state.Ready?
    ensures Feed(f, e).state ==
              if OutOfPlace(f, e) then ErrorReset
              else if MayStart(Feed(f, e)) then Started
              else Ready
  {
    FeedInReady(f, e);
  }

  lemma FromStarted(f: Fsm, e: Event)
    requires f.state.Started?
    ensures Feed(f, e).state ==
              if OutOfPlace(f, e) || e == Tick12800 then ErrorReset
              else if (f.sentNull || e == SentNull) && (f.gotNull || e == GotNull) then Connecting
              else Started
  {
    FeedInStarted(f, e);
  }

  lemma FromConnecting(f: Fsm, e: Event)
    requires f.state.Connecting?
    ensures Feed(f, e).state ==
              if e == RxErr || e == CreditErr || e == GotNChar || e == GotTimeCode || e == Tick12800
              then ErrorReset
              else if (f.sentFct || e == SentFct) && (f.gotFct || e == GotFct) then State.Run
              else Connecting
  {
    FeedInConnecting(f, e);
  }

  lemma FromRun(f: Fsm, e: Event)
    requires f.state.Run?
    ensures Feed(f, e).state == if e == RxErr || e == CreditErr || e == LinkDisable then ErrorReset else State.Run
  {
    FeedInRun(f, e);
  }

  /** A history after which the commands allow the link to start. */
  ghost predicate StartAllowed(es: seq<Event>) {
    && !LastSet(es, LinkDisable, LinkDisableClear)
    && (|| LastSet(es, LinkStart, LinkStartClear)
        || (LastSet(es, AutoStart, AutoStartClear) && NullHeard(es)))
  }

  lemma MayStartIsAllowed(es: seq<Event>)
    ensures MayStart(FeedAll(POWER_ON, es)) <==> StartAllowed(es)
  {
    LevelsFollowCommands(es);
    GotNullIsHeard(es);
  }

  /** Main result: over every history Started is entered exactly from ErrorWait at its tick or
      from Ready, without a fault, when linkStart is set, or autoStart is and a NULL has been
      heard since the last reset, and the link is not disabled. */
  lemma StartsExactlyWhenAllowed(es: seq<Event>, e: Event)
    ensures StateAfter(es + [e]).Started? && !StateAfter(es).Started? <==>
              && (StateAfter(es).Ready? || (StateAfter(es).ErrorWait? && e == Tick12800))
              && !OutOfPlace(FeedAll(POWER_ON, es), e)
              && StartAllowed(es + [e])
  {
    var f := FeedAll(POWER_ON, es);
    FeedOneMore(es, e);
    MayStartIsAllowed(es + [e]);
    WhereStartedComesFrom(f, e);
  }

  lemma WhereStartedComesFrom(f: Fsm, e: Event)
    ensures Feed(f, e).state.Started? && !f.state.Started? <==>
              (f.state.Ready? || (f.state.ErrorWait? && e == Tick12800)) && !OutOfPlace(f, e) && MayStart(Feed(f, e))
  {
    match f.state
    case ErrorReset => FromErrorReset(f, e);
    case ErrorWait =>
      FromErrorWait(f, e);
      FeedKeepsLevels(f, e);
      FeedKeepsGotNull(f, e);
    case Ready => FromReady(f, e);
    case Started =>
    case Connecting => FromConnecting(f, e);
    case Run => FromRun(f, e);
  }

  lemma {:induction false} DisabledStaysDown(es: seq<Event>, xs: seq<Event>)
    requires StateAfter(es).ErrorReset? && FeedAll(POWER_ON, es).linkDisable
    requires forall i :: 0 <= i < |xs| ==> xs[i] != LinkDisableClear
    ensures StateAfter(es + xs).ErrorReset? && FeedAll(POWER_ON, es + xs).linkDisable
    decreases |xs|
  {
    if xs == [] {
      assert es + xs == es;
    } else {
      FeedOneMore(es, xs[0]);
      FromErrorReset(FeedAll(POWER_ON, es), xs[0]);
      FeedKeepsLevels(FeedAll(POWER_ON, es), xs[0]);
      DisabledStaysDown(es + [xs[0]], xs[1..]);
      assert es + [xs[0]] + xs[1..] == es + xs;
    }
  }

  /** Main result: a link disabled in Run stays in ErrorReset until the disable is cleared,
      whatever else is fed to it, its dwell ticks and a set linkStart included. */
  lemma DisconnectHolds(es: seq<Event>, xs: seq<Event>)
    requires StateAfter(es).Run?
    requires forall i :: 0 <= i < |xs| ==> xs[i] != LinkDisableClear
    ensures StateAfter((es + [LinkDisable]) + xs).ErrorReset?
  {
    var f := FeedAll(POWER_ON, es);
    FeedOneMore(es, LinkDisable);
    FromRun(f, LinkDisable);
    FeedKeepsLevels(f, LinkDisable);
    DisabledStaysDown(es + [LinkDisable], xs);
  }

  /** What each state puts out: the transmitter is silent before Started, the receiver is off
      in ErrorReset only, and only Run uses the target bit rate. */
  lemma OutputsOfStates(s: State, targetBps: nat)
    ensures var out := OutputOf(s, targetBps);
            && out.state == s
            && (out.txMode == SilentMode <==> s == ErrorReset || s == ErrorWait || s == Ready)
            && (out.txMode == NullMode <==> s == Started)
            && (out.txMode == NullFctMode <==> s == Connecting)
            && (out.txMode == FullMode <==> s == State.Run)
            && (!out.rxEnabled <==> s == ErrorReset)
            && out.bitRateBps == if s == State.Run then targetBps else 10_000_000
  {
  }
}
