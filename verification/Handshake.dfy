/**
 What being in Run certifies: the history of every run that ends in Run contains,
 since the last entry to ErrorReset, one complete handshake in order.
 */
module Handshake {
  import opened LinkFsm

  /** The machines a fresh state machine passes through on the events `es`. */
  ghost predicate IsTrace(es: seq<Event>, fs: seq<Fsm>) {
    && |fs| == |es| + 1
    && fs[0] == POWER_ON
    && forall i :: 0 <= i < |es| ==> fs[i + 1] == Feed(fs[i], es[i])
  }

  /** The positions of the handshake events in a history. */
  datatype Witness = Witness(
    entry: nat,
    tick6400: nat,
    tick12800: nat,
    sentNull: nat,
    gotNull: nat,
    connect: nat,
    sentFct: nat,
    gotFct: nat)

  /** `entry` is where the run last entered ErrorReset (or 0, power-up). */
  ghost predicate LastEntry(fs: seq<Fsm>, entry: nat) {
    && entry < |fs|
    && fs[entry].state == ErrorReset
    && forall k :: entry < k < |fs| && fs[k].state == ErrorReset ==> fs[k - 1].state == ErrorReset
  }

  /** Position `i` holds event `e`, fed while the machine was in state `s`. */
  ghost predicate FedIn(es: seq<Event>, fs: seq<Fsm>, i: nat, e: Event, s: State) {
    i < |es| && i < |fs| && es[i] == e && fs[i].state == s
  }

  /** The complete handshake: dwell of ErrorReset, dwell of ErrorWait, a NULL sent in
      Started and a NULL heard before Connecting, an FCT sent and heard in Connecting. */
  ghost predicate Certified(es: seq<Event>, fs: seq<Fsm>, w: Witness) {
    && LastEntry(fs, w.entry)
    && w.entry <= w.tick6400 < w.tick12800 < w.sentNull <= w.connect < w.sentFct
    && w.connect < w.gotFct
    && w.entry <= w.gotNull <= w.connect
    && FedIn(es, fs, w.tick6400, Tick6400, ErrorReset)
    && FedIn(es, fs, w.tick12800, Tick12800, ErrorWait)
    && FedIn(es, fs, w.sentNull, SentNull, Started)
    && w.gotNull < |es| && es[w.gotNull] == GotNull
    && w.connect + 1 < |fs| && fs[w.connect].state == Started && fs[w.connect + 1].state == Connecting
    && FedIn(es, fs, w.sentFct, SentFct, Connecting)
    && FedIn(es, fs, w.gotFct, GotFct, Connecting)
  }

  // ----- the arcs of the state graph ------------------------------------------

  /** What one fed event can do to a machine with legal flags. */
  predicate Arc(f: Fsm, e: Event, g: Fsm) {
    && FlagsLegal(g)
    && (g.state.ErrorReset? && !f.state.ErrorReset? ==> !g.gotNull)
    && (g.state.ErrorWait? ==> f.state.ErrorWait? || f.state.ErrorReset?)
    && (g.state.Ready? ==> f.state.Ready? || f.state.ErrorWait?)
    && (g.state.Started? ==> f.state.Started? || f.state.Ready? || f.state.ErrorWait?)
    && (g.state.Connecting? ==> f.state.Connecting? || f.state.Started?)
    && (g.state.Run? ==> f.state.Run? || f.state.Connecting?)
    && (f.state.ErrorReset? && !g.state.ErrorReset? ==> e.Tick6400?)
    && (f.state.ErrorWait? && (g.state.Ready? || g.state.Started?) ==> e.Tick12800?)
    && (g.gotNull && !f.gotNull ==> e.GotNull?)
    && (g.sentNull && !f.sentNull ==> e.SentNull? && f.state.Started?)
    && (g.sentFct && !f.sentFct ==> e.SentFct? && f.state.Connecting?)
    && (g.gotFct && !f.gotFct ==> e.GotFct? && f.state.Connecting?)
    && (f.state.Started? && g.state.Connecting? ==> !g.sentFct && !g.gotFct)
  }

  lemma ErrorResetArc(f: Fsm, e: Event, g: Fsm)
    requires f.state.ErrorReset? && FlagsLegal(f) && FlagsLegal(g) && g == ErrorResetRow(f, e)
    ensures Arc(f, e, g)
  {
  }

  lemma ErrorWaitArc(f: Fsm, e: Event, g: Fsm)
    requires f.state.ErrorWait? && FlagsLegal(f) && FlagsLegal(g) && g == ErrorWaitRow(f, e)
    ensures Arc(f, e, g)
  {
  }

  lemma ReadyArc(f: Fsm, e: Event, g: Fsm)
    requires f.state.Ready? && FlagsLegal(f) && FlagsLegal(g) && g == ReadyRow(f, e)
    ensures Arc(f, e, g)
  {
  }

  lemma StartedArc(f: Fsm, e: Event, g: Fsm)
    requires f.state.Started? && FlagsLegal(f) && FlagsLegal(g) && g == StartedRow(f, e)
    ensures Arc(f, e, g)
  {
  }

  lemma ConnectingArc(f: Fsm, e: Event, g: Fsm)
    requires f.state.Connecting? && FlagsLegal(f) && FlagsLegal(g) && g == ConnectingRow(f, e)
    ensures Arc(f, e, g)
  {
  }

  lemma RunArc(f: Fsm, e: Event, g: Fsm)
    requires f.state.Run? && FlagsLegal(f) && FlagsLegal(g) && g == RunRow(f, e)
    ensures Arc(f, e, g)
  {
  }

  lemma FeedFollowsArc(f: Fsm, e: Event)
    requires AtRest(f)
    ensures AtRest(Feed(f, e)) && Arc(f, e, Feed(f, e))
  {
    FeedKeepsAtRest(f, e);
    match f.state {
      case ErrorReset => FeedInErrorReset(f, e); ErrorResetArc(f, e, Feed(f, e));
      case ErrorWait => FeedInErrorWait(f, e); ErrorWaitArc(f, e, Feed(f, e));
      case Ready => FeedInReady(f, e); ReadyArc(f, e, Feed(f, e));
      case Started => FeedInStarted(f, e); StartedArc(f, e, Feed(f, e));
      case Connecting => FeedInConnecting(f, e); ConnectingArc(f, e, Feed(f, e));
      case Run => FeedInRun(f, e); RunArc(f, e, Feed(f, e));
    }
  }

  // ----- the history kept by every run ------------------------------------------

  /** The part of the handshake that the current state and flags vouch for. */
  ghost predicate Evidence(es: seq<Event>, fs: seq<Fsm>, w: Witness)
    requires |fs| == |es| + 1
  {
    var f := fs[|es|];
    && LastEntry(fs, w.entry)
    && (!f.state.ErrorReset? ==>
          w.entry <= w.tick6400 && FedIn(es, fs, w.tick6400, Tick6400, ErrorReset))
    && (!f.state.ErrorReset? && !f.state.ErrorWait? ==>
          w.tick6400 < w.tick12800 && FedIn(es, fs, w.tick12800, Tick12800, ErrorWait))
    && (f.gotNull ==> w.entry <= w.gotNull < |es| && es[w.gotNull] == GotNull)
    && (f.sentNull ==> w.tick12800 < w.sentNull && FedIn(es, fs, w.sentNull, SentNull, Started))
    && (f.state.Connecting? || f.state.Run? ==>
          && w.sentNull <= w.connect < |es|
          && w.gotNull <= w.connect
          && fs[w.connect].state == Started
          && fs[w.connect + 1].state == Connecting)
    && (f.sentFct ==> w.connect < w.sentFct && FedIn(es, fs, w.sentFct, SentFct, Connecting))
    && (f.gotFct ==> w.connect < w.gotFct && FedIn(es, fs, w.gotFct, GotFct, Connecting))
  }

  /** The positions to remember after one more event. */
  function Note(w: Witness, n: nat, f: Fsm, g: Fsm): Witness {
    Witness(
      if g.state.ErrorReset? && !f.state.ErrorReset? then n + 1 else w.entry,
      if f.state.ErrorReset? then n else w.tick6400,
      if f.state.ErrorWait? then n else w.tick12800,
      if f.sentNull then w.sentNull else n,
      if f.gotNull then w.gotNull else n,
      if f.state.Started? then n else w.connect,
      if f.sentFct then w.sentFct else n,
      if f.gotFct then w.gotFct else n)
  }

  lemma NoteKeepsEntry(fs: seq<Fsm>, entry: nat, g: Fsm)
    requires LastEntry(fs, entry)
    ensures g.state == ErrorReset && fs[|fs| - 1].state != ErrorReset ==> LastEntry(fs + [g], |fs|)
    ensures !(g.state == ErrorReset && fs[|fs| - 1].state != ErrorReset) ==> LastEntry(fs + [g], entry)
  {
  }

  lemma LongerHistory(es: seq<Event>, fs: seq<Fsm>, e: Event, g: Fsm)
    requires |fs| == |es| + 1
    ensures forall i: nat, d, s :: FedIn(es, fs, i, d, s) ==> FedIn(es + [e], fs + [g], i, d, s)
    ensures FedIn(es + [e], fs + [g], |es|, e, fs[|es|].state)
  {
  }

  lemma NoteKeepsEvidence(es: seq<Event>, fs: seq<Fsm>, w: Witness, e: Event, g: Fsm)
    requires |fs| == |es| + 1 && FlagsLegal(fs[|es|]) && Arc(fs[|es|], e, g)
    requires Evidence(es, fs, w)
    ensures Evidence(es + [e], fs + [g], Note(w, |es|, fs[|es|], g))
  {
    NoteKeepsEntry(fs, w.entry, g);
    LongerHistory(es, fs, e, g);
  }

  lemma {:induction false} HistoryHasEvidence(es: seq<Event>, fs: seq<Fsm>) returns (w: Witness)
    requires IsTrace(es, fs)
    ensures AtRest(fs[|es|]) && Evidence(es, fs, w)
    decreases |es|
  {
    if es == [] {
      w := Witness(0, 0, 0, 0, 0, 0, 0, 0);
    } else {
      var n := |es| - 1;
      var before, past := es[..n], fs[..n + 1];
      assert before + [es[n]] == es && past + [fs[n + 1]] == fs && past[n] == fs[n];
      w := HistoryHasEvidence(before, past);
      FeedFollowsArc(fs[n], es[n]);
      NoteKeepsEvidence(before, past, w, es[n], fs[n + 1]);
      w := Note(w, n, fs[n], fs[n + 1]);
    }
  }

  /** Main result: a run that ends in Run contains, after its last entry to
      ErrorReset, one complete handshake in order; no evidence is inherited from
      an earlier visit. */
  lemma RunCertifiesHandshake(es: seq<Event>, fs: seq<Fsm>)
    requires IsTrace(es, fs)
    requires fs[|es|].state == Run
    ensures exists w :: Certified(es, fs, w)
  {
    var w := HistoryHasEvidence(es, fs);
    assert Certified(es, fs, w);
  }
}
