# SpaceWire exchange-level protocol: a verified model

This project models the SpaceWire link engine of `cocotbext/spacewire` and proves what it
is for.  The section numbers in comments are those of ECSS-E-ST-50-12C Rev.1 as the code
cites them.

There are four layers, each proved on its own and then joined:

* **Endpoint.** The link state machine (`LinkFsm`, `FsmHistory`, `Handshake`), the credit counters
  (`FlowControl`), the dwell timers (`Timers`) and the link object that owns them
  (`Endpoint`, `EndpointFacts`, `SpaceWireLink`), what a session inherits (`Sessions`,
  `StaleCredit`) and how long the receive queue gets (`ReceiveQueue`, `QueueGrowth`).
* **Pair.** Two endpoints and two first-in-first-out channels as a step system whose steps
  interleave freely (`LinkPair`, `LinkSafety`, `LinkProgress`, `LinkReach`, `LinkScope`,
  `LinkSessions`).
* **Bits.** The stateful character codec (`Characters`, `CodecRoundTrip`, `CodecErrors`,
  `CodecBits`, `ParityInjection`, `CodecObjects`), Data-Strobe coding (`DataStrobe`) and the bit driver
  (`BitDriver`).
* **Wire.** Two whole links joined bit by bit (`Wire`): encoder, bits still to be driven,
  line levels, samples in flight, monitor and decoder in each direction.  `WireRefinement`
  shows that its runs are the runs of the pair, in both directions, and carries the results
  on the pair over to packets on the wire.  `LineLevels` follows the lines over whole runs,
  resets included; `LineErrors` goes from the bits on the line to the resets of the link.

What the program changes in place is a class whose methods are proved against functions on
values (`LinkFSM`, `CreditCounter`, `SpaceWireLink`, `CharEncoder`, `CharDecoder`,
`SpaceWireDriver`); the step systems and their invariants are about those functions.
`dafny verify dfyconfig.toml` checks the whole project.

## Main results

* The first reset of either end comes from outside the protocol: `FirstResetComesFromOutside`
  for the pair, `FirstWireResetComesFromOutside` for the wire, and `CharactersResetExactly`
  shows that the scope (caps of at least eight) is exact.
* Credit conservation, no loss and no reordering, a falling measure, no deadlock.
* At one end, with any peer and over all histories: an exact bound on the receive queue, and
  exactly which transmit credit a session starts with.
* `PacketsArriveInOrder` and `EveryPacketCanArrive`: packets end to end through every layer.
* The codec loses nothing in either direction and reports every single flipped bit, and
  one flipped bit resets the end that samples the stream (`FlippedBitResets`).
* Run certifies a complete fresh handshake; no stale tick reaches the state machine.

## Scope and reading of the code

* Results on the pair and the wire hold from power-up to the first re-entry of either end to
  ErrorReset, for credit caps between 8 and 56 that do not exceed the receive capacity.  The
  program keeps both N-Char queues over a reset and can carry transmit credit over
  (`StaleCreditExactly`), so later sessions need not start from scratch; those that start
  with both ends in ErrorReset, nothing on the line and no credit carried over are as safe as
  the first (`SessionIsSafe`, `SessionEndsFromOutside`).  Results about one end
  (`EndpointFacts`, `StaleCredit`, `ReceiveQueue`, `QueueGrowth`, `Timers`) cover all sessions
  and any peer.
* A step is one uninterrupted piece of a coroutine.  Driving the last bit of a character,
  releasing its sender and feeding the SENT event are one step: they happen in one instant
  of simulated time, and the peer needs at least four more bit times to answer.
* The monitor takes one data sample per line change.  The disconnect watchdog and the
  application are outside events that may occur at any time.
* The notes of the repository and a comment say that both lines are low in ErrorReset
  (notes/04_link_fsm.md:45 and 95, cocotbext/spacewire/link_fsm.py:37); the code only stops
  picking characters.  `HighInErrorReset` gives a run that leaves the strobe high there, and
  `LowExactly` says for all runs when both lines are low.
* A comment of the program holds that FCTs can only arrive in Connecting and Run, because the
  state machine would have dropped the link otherwise, and that stale characters after an
  unexpected reset are gated by the credit reset (cocotbext/spacewire/link.py:441-450).
  Neither is so: an FCT in ErrorReset, or before any NULL, drops nothing
  (`EarlyFctDropsExactly`) and is counted.
  `StaleCreditExactly` says what the credit then is, for all histories, and
  `LateFctSurvives` gives a run in which it reaches the next session, and
  `SessionReachesRunExactly` says when it keeps that session from reaching Run.
* A 6.4 us tick that comes while the link is disabled is not re-armed:
  `ResetTickNeedsEnabledLink`, `DisabledStartIsStuck` and `LostTickIsForever`.

## Model

| member | source | states |
|---|---|---|
| `LinkFsm.ChaseIsFeed` | cocotbext/spacewire/link_fsm.py:157-170 | with any cap above two the transition loop takes at most two transitions and ends where the loop-free `Feed` ends, so the cap of eight is never what stops it |
| `LinkFsm.FeedStabilises` | cocotbext/spacewire/link_fsm.py:157-170 | after every event the handler on the synthetic event stays put, a chain of transitions never ends in the state it left, and ErrorReset is reached exactly when the first handler answers ErrorReset, so comparing states before and after misses no entry |
| `LinkFsm.FeedFollowsTable` | cocotbext/spacewire/link_fsm.py:247-306 | the chained handlers follow a one-step table in every state: an enabled link passes from ErrorWait through Ready to Started on one tick, the error causes of Connecting win over Run, and a disable drops Run as an event, not as a level |
| `LinkFsm.ReachableAtRest` | cocotbext/spacewire/link_fsm.py:148-172 | after every event sequence from power-on the machine is at rest and carries exactly the latches its state may carry |
| `LinkFsm.LinkFSM.DoUpdateFlags` | cocotbext/spacewire/link_fsm.py:174-196 | the latch and level updates in place equal the field-by-field specification |
| `LinkFsm.LinkFSM.DoEnter` | cocotbext/spacewire/link_fsm.py:198-214 | the latches dropped on entry to each state, the three levels kept |
| `LinkFsm.LinkFSM.DoFeed` | cocotbext/spacewire/link_fsm.py:148-172 | the capped in-place loop computes `Feed` and returns the outputs of the state reached |
| `FsmHistory.LevelsFollowCommands` | cocotbext/spacewire/link_fsm.py:174-214 | over every event sequence from power-on, linkStart, linkDisable and autoStart hold if and only if the last of their set and clear events was the set; no transition touches them |
| `FsmHistory.GotNullIsHeard` | cocotbext/spacewire/link_fsm.py:174-214 | the gotNULL latch is set if and only if a NULL has been heard since the last entry to ErrorReset |
| `FsmHistory.StartsExactlyWhenAllowed` | cocotbext/spacewire/link_fsm.py:218-270 | Started is entered exactly from ErrorWait at its tick or from Ready, without an error, with linkStart set, or autoStart set and a NULL heard since the last reset, and never while disabled, all in terms of the events fed |
| `FsmHistory.DisconnectHolds` | cocotbext/spacewire/link_fsm.py:247-252 | a link disabled in Run stays in ErrorReset until the disable is cleared, whatever else is fed to it |
| `FsmHistory.OutputsOfStates` | cocotbext/spacewire/link_fsm.py:133-144 | transmit mode, receiver enable and bit rate of each state |
| `Handshake.RunCertifiesHandshake` | cocotbext/spacewire/link_fsm.py:148-214 | every event sequence that ends in Run contains, since its last entry to ErrorReset and in order, the 6.4 us tick, the 12.8 us tick, a NULL sent in Started, entry to Connecting, then an FCT sent and an FCT heard in Connecting, with a NULL heard before Connecting; no latch is inherited from an earlier visit |
| `Handshake.FeedFollowsArc` | cocotbext/spacewire/link_fsm.py:247-306 | which states can follow which, and which event alone can set each latch |
| `FlowControl.LedgerBalances` | cocotbext/spacewire/flow_control.py:54-106 | over any operation history, refused operations included, each counter is 8 per FCT less one per N-Char of the running totals, and both stay in bounds |
| `FlowControl.BurstFillsTheCap` | cocotbext/spacewire/flow_control.py:108-119 | granting while the gate is open sends exactly (cap - credit) / 8 FCTs |
| `FlowControl.BurstIsInitialFctCount` | cocotbext/spacewire/flow_control.py:127-136 | that burst from a cleared counter is the announced initial FCT count for every capacity of at least eight |
| `FlowControl.CreditCounter.DoFctReceived` | cocotbext/spacewire/flow_control.py:54-64 | +8, or a credit error that leaves counter and totals untouched |
| `FlowControl.CreditCounter.DoNCharSent` | cocotbext/spacewire/flow_control.py:66-77 | -1, or a caller fault that leaves everything untouched |
| `FlowControl.CreditCounter.DoFctSent` | cocotbext/spacewire/flow_control.py:86-98 | +8 up to the cap, or a caller fault that leaves everything untouched |
| `FlowControl.CreditCounter.DoNCharReceived` | cocotbext/spacewire/flow_control.py:100-106 | -1, or a credit error that leaves everything untouched |
| `FlowControl.CreditCounter.DoReset` | cocotbext/spacewire/flow_control.py:121-125 | both counters to zero, totals kept |
| `FlowControl.NewCreditCounter` | cocotbext/spacewire/flow_control.py:44-50 | construction is refused exactly for a negative cap or one above 56 |
| `FlowControl.CapIsLeast` | cocotbext/spacewire/link.py:141-148 | the configured cap is the least of the receive capacity, 56 and the lowered value |
| `Packets.ReadBack` | cocotbext/spacewire/link.py:498-530 | reading the N-Chars of any packet list gives back the packets, in order, with their terminators, and nothing half read |
| `Packets.ReadPrefix` | cocotbext/spacewire/link.py:498-530 | whatever part of the stream has been consumed, the packets returned are the first of those sent |
| `Packets.PacketOnItsWay` | cocotbext/spacewire/link.py:498-517 | position by position: the bytes of a packet in order, then its own terminator |
| `Packets.ReadsWhatCompletes` | cocotbext/spacewire/link.py:519-532 | a reader returns a packet with the terminator that ends it and the bytes before it |
| `Packets.ValidateData` | cocotbext/spacewire/packet.py:21-30 | accepts exactly the byte sequences and otherwise reports the first offender |
| `Endpoints.EveryRunKeepsOk` | cocotbext/spacewire/link.py:305-475 | every interleaving of picks, completions, arbitrary received characters, application and outside events keeps the endpoint invariant: legal latches, receive credit fitting the state, the drain count |
| `EndpointFacts.CreditAgreesWithState` | cocotbext/spacewire/link.py:327-336 | over every history, resets included: no receive credit before Connecting, 8 or 0 in Connecting as the handshake FCT has been picked or not, at most the cap in Run |
| `EndpointFacts.NoGuardIsHit` | cocotbext/spacewire/flow_control.py:66-98 | the guards that would raise on a careless caller are never hit by the transmit loop |
| `EndpointFacts.DrainedMeansDriven` | cocotbext/spacewire/link.py:374-377 | nothing is outstanding exactly when no N-Char is queued or being driven |
| `StaleCredit.StaleCreditExactly` | cocotbext/spacewire/link.py:435-461 | over every history from power-up, resets included, the transmit credit of an end outside Run is 8 x min(7, FCTs heard since the last entry to ErrorReset), and zero if and only if none was heard; an FCT that is itself the error counts for the session it starts, one that overflows the credit of Connecting or Run for the session it ends |
| `StaleCredit.StaleCreditOfSession` | cocotbext/spacewire/link.py:435-461 | within a session outside Run: the credit it had plus eight for each FCT heard since, up to 56 |
| `StaleCredit.CreditAfterReset` | cocotbext/spacewire/link.py:88-104 | which credits a received character that resets the link leaves behind |
| `StaleCredit.LateFctSurvives` | cocotbext/spacewire/link.py:445-461 | a run from power-up: Run, a line error, then one more FCT, which the clearing of the counters does not gate; the next session is in Run with sixteen credits after a single FCT of its own |
| `StaleCredit.CausingFctSurvives` | cocotbext/spacewire/link.py:88-104 | a run from power-up: an FCT in Started after a NULL causes the reset and leaves eight credits |
| `StaleCredit.FctAtPowerUp` | cocotbext/spacewire/link.py:449-454 | one FCT before anything else is worth eight credits |
| `EndpointFacts.HardErrorDropsLink` | cocotbext/spacewire/link.py:82-84 | a parity or escape error drops every other state to ErrorReset without credits or latches, leaves both N-Char queues, and changes nothing in ErrorReset itself |
| `EndpointFacts.InitialBurst` | cocotbext/spacewire/link.py:338-348 | until an N-Char arrives, at most cap / 8 FCTs are sent, the handshake FCT included, over any interleaving; in Run the next pick is an FCT exactly while there are fewer, and the first other pick finds exactly cap / 8 |
| `EndpointFacts.InitialBurstIsLowered` | cocotbext/spacewire/link.py:141-148 | with a lowered cap that total is an eighth of the least of the lowered value, the capacity and 56 |
| `EndpointFacts.InitialBurstIsAnnounced` | cocotbext/spacewire/flow_control.py:127-136 | with an unlowered cap that total is the announced initial count |
| `EndpointFacts.OneHandshakeFct` | cocotbext/spacewire/link.py:397-404 | at most one FCT is charged in one visit to Connecting, whatever is heard and however full the receive queue: the charges are the change of the flag of the visit |
| `ReceiveQueue.SessionBound` | cocotbext/spacewire/link.py:416-419 | within one session, from any state in which the receive queue is empty and whatever any peer sends: queue + receive credit <= capacity + cap - 8 |
| `ReceiveQueue.HistoryBound` | cocotbext/spacewire/link.py:327-333 | over all histories, resets included: queue + receive credit <= capacity + cap - 8 + 8 x resets |
| `ReceiveQueue.RunRises` | cocotbext/spacewire/link.py:397-419 | the ceiling on queue, credit and a handshake FCT still to come rises only at a reset, by eight |
| `QueueGrowth.BoundIsReached` | cocotbext/spacewire/link.py:327-333 | for every number of resets and every configuration that can reach Run some history from power-up reaches that bound |
| `Sessions.SessionResult` | cocotbext/spacewire/link_fsm.py:247-297 | what ten happenings, a whole session, make of any idle end in ErrorReset that may send FCTs: Run with one FCT sent and one received, queues and transmit credit carried over, or another reset when that credit has no room for the FCT |
| `StaleCredit.SessionReachesRunExactly` | cocotbext/spacewire/link.py:451-457 | such a session ends in Run if and only if the end starts it with at most 48 transmit credits; with more the peer's handshake FCT overflows the credit and resets the link |
| `StaleCredit.StrayFctsThenSession` | cocotbext/spacewire/link.py:449-457 | from power-up, for every n: n stray FCTs and then a session end in Run if and only if n < 7, with 8 (n + 1) credits, and otherwise in a reset |
| `StaleCredit.EarlyFctDropsExactly` | cocotbext/spacewire/link_fsm.py:227-242 | an FCT outside Connecting and Run drops the link if and only if a NULL has been heard and the end is not in ErrorReset |
| `LineErrors.CharacterIsFatal` | cocotbext/spacewire/link_fsm.py:227-306 | which characters reset an end, for every state, latch and credit: a hard error anywhere but in ErrorReset, a time-code in Connecting or after a NULL before it, an FCT or N-Char after a NULL before Connecting, an N-Char in Connecting, an FCT or N-Char that the credit does not allow |
| `LineErrors.NCharIsFatal` | cocotbext/spacewire/link.py:463-475 | and an N-Char is queued exactly in Run with receive credit |
| `LineErrors.TimeCodeInRun` | cocotbext/spacewire/link_fsm.py:300-306 | a time-code or broadcast changes nothing in Run |
| `LineErrors.CompletedPlain` | cocotbext/spacewire/link.py:81-110 | what the endpoint hears of a completed primitive in terms of its bits: an error when its parity is even, else data, FCT, EOP or EEP |
| `LineErrors.CompletedEscaped` | cocotbext/spacewire/characters.py:541-617 | what it hears of a primitive after an ESC: NULL, a code whatever its value, or an error when it is EOP, EEP or ESC or either parity is even |
| `LineErrors.BadPrimitiveResets` | cocotbext/spacewire/link.py:82-84 | outside ErrorReset a sampled bit that completes a bad primitive resets the end |
| `LineErrors.ResetInRunExactly` | cocotbext/spacewire/link.py:81-110 | in Run a sampled bit resets the end if and only if it completes a bad primitive, an FCT without room or an N-Char without credit |
| `LineErrors.FlippedBitResets` | cocotbext/spacewire/link.py:107-110 | whatever is sent, followed by one data character, with any single bit of it flipped, resets the end that samples it |
| `LineErrors.ResetFreshensCodecs` | cocotbext/spacewire/link.py:325-330 | whatever resets a station, both its codecs start afresh |
| `LineErrors.FreshCodecsAreInStep` | cocotbext/spacewire/link.py:325-330 | two fresh codecs with nothing between them are in step whatever levels the lines were left at |
| `LinkSafety.ConfiguredCapIsSane` | cocotbext/spacewire/link.py:141-148 | the cap a link configures holds an FCT exactly when its capacity and a lowered cap are at least eight |
| `LinkSafety.StepKeepsJoined` | cocotbext/spacewire/link.py:356-475 | every step of either end that resets nothing keeps the joint invariant of both ends and both channels: handshake order, credit conservation, transport |
| `LinkSafety.FirstResetComesFromOutside` | cocotbext/spacewire/link.py:356-475 | in every run of two links from power-up over faultless channels a step causes the first reset of either end if and only if it is a line error outside ErrorReset, a 12.8 us tick in Started or Connecting, or a disable in Run; never a received character, a credit error or a sent one |
| `LinkSafety.CreditIsConserved` | cocotbext/spacewire/flow_control.py:54-117 | in every state up to the first reset: receive credit of one end = transmit credit of the other + 8 x FCTs in flight + N-Chars in flight, the character being driven included; no counter leaves its range |
| `LinkSafety.EveryDeliveryIsAccepted` | cocotbext/spacewire/link.py:435-475 | no delivered FCT or N-Char is refused, dropped or answered by a credit error |
| `LinkSafety.NothingIsLostOrReordered` | cocotbext/spacewire/link.py:381-475 | N-Chars queued = taken at the peer, then in its receive queue, then in flight, then still queued, in order, in both directions |
| `LinkSafety.EndsRun` | cocotbext/spacewire/link.py:356-475 | every run of the pair is a run of each of its ends |
| `LinkSafety.ReceiveQueueBound` | cocotbext/spacewire/link.py:416-419 | the bound of one end at both ends of every reachable pair, beyond the first reset too |
| `LinkScope.CharactersResetExactly` | cocotbext/spacewire/link.py:395-403 | of two configured links a received character can cause the first reset exactly when one of the caps is below eight and neither end is restricted to NULLs; the failing run is constructed for every such configuration |
| `LinkProgress.RoundMakesProgress` | cocotbext/spacewire/link.py:416-431 | 2 x both transmit queues + the credit missing to 56 at both ends falls in every round-robin round while any N-Char is queued, and every round ends quiet |
| `LinkProgress.EveryBacklogDrains` | cocotbext/spacewire/link.py:416-431 | after that many rounds every N-Char queued at either end has been taken at the other |
| `LinkProgress.StalledSenderIsServed` | cocotbext/spacewire/flow_control.py:108-119 | the peer of a sender, at either end, with zero credit and nothing in flight picks an FCT next exactly when it has headroom for eight |
| `LinkReach.NoDeadlock` | cocotbext/spacewire/link.py:356-475 | from every state up to the first reset with both ends in Run, engine and reader steps alone can deliver everything queued |
| `LinkReach.AnyHandshake` | cocotbext/spacewire/link_fsm.py:255-297 | two commanded ends, neither restricted to NULLs, can bring each other to Run, whatever their caps |
| `LinkReach.RunNeedsFcts` | cocotbext/spacewire/link.py:395-396 | an end restricted to NULLs keeps both ends out of Run |
| `LinkReach.PeakIsReached` | cocotbext/spacewire/link.py:416-419 | for every two configurations that may send FCTs the bound on the receive queue is attained at either end: capacity + cap - 8 (104 for 56 and 56) |
| `LinkReach.CapacityRespectedExactly` | cocotbext/spacewire/link.py:141-148 | at either end that may send FCTs the queue is confined to its configured capacity in all runs up to the first reset exactly when the cap is eight |
| `LinkSessions.SessionIsSafe` | cocotbext/spacewire/link.py:305-475 | in every session with a clean start, later ones included: credit is conserved both ways, and what is taken is in order what the own receive queue held, what the peer still had queued, and what it has queued since |
| `LinkSessions.SessionEndsFromOutside` | cocotbext/spacewire/link.py:305-475 | every such session ends exactly as the first one: by a line error outside ErrorReset, a timeout in Started or Connecting, or a disable in Run |
| `LinkSessions.FailureIsCleanStart` | cocotbext/spacewire/link.py:327-333 | a line error at both ends of a running link with nothing on the line makes a clean start and leaves every queue |
| `Characters.PushSplits` | cocotbext/spacewire/characters.py:469-479 | cutting a bit stream into pushes anywhere changes neither the characters nor the final state |
| `Characters.DecodingIsLossless` | cocotbext/spacewire/characters.py:448-467 | for every bit stream, well formed or not, raw bits of the emitted characters + the pending ESC + the partial primitive are the bits fed |
| `Characters.FeedProducesAtMostOne` | cocotbext/spacewire/characters.py:541-582 | one bit completes at most one character, and an emitted ESC always carries an escape error |
| `Characters.FeedKeepsDecoderOk` | cocotbext/spacewire/characters.py:448-467 | the buffer is always a proper part of one primitive and only an ESC is ever pending |
| `CodecRoundTrip.EncodeThenDecode` | cocotbext/spacewire/characters.py:318-383 | every sequence of data, FCT, EOP, EEP, NULL, time-codes and type-0b10 broadcasts is decoded as itself, without fault and with nothing pending |
| `CodecRoundTrip.DecodeThenEncode` | cocotbext/spacewire/characters.py:497-652 | every bit stream decoded without parity or escape error and with nothing pending is re-encoded to the same bits |
| `CodecRoundTrip.BroadcastSurvives` | cocotbext/spacewire/characters.py:584-617 | a broadcast comes back as a broadcast without fault exactly when its type field is 0b10 |
| `CodecRoundTrip.TimeCodeSurvives` | cocotbext/spacewire/characters.py:331-337 | a time-code request comes back as a time-code exactly when its value fits six bits |
| `CodecBits.BitsOfRequests` | cocotbext/spacewire/characters.py:64-70 | the very bits of every request: odd parity over the previous content, flag and content 1,00 for FCT, 1,01 for EOP, 1,10 for EEP, 1,11 for ESC; a byte least significant bit first behind a flag of 0; NULL as ESC and FCT; codes as ESC and data |
| `CodecBits.NextParityCovers` | cocotbext/spacewire/characters.py:373-383 | the next parity covers the last two or eight bits sent |
| `CodecBits.BitsOfLineChars` | cocotbext/spacewire/link.py:381-431 | the bits of every character the link picks, its terminators not exchanged |
| `CodecBits.ChecksPointAtParityBits` | cocotbext/spacewire/characters.py:497-539 | in every stream each recorded check points at its parity bit and flag in the raw bits, bit 4 for the primitive after an ESC, whose content it covers; parity verdict, error list and checks agree |
| `CodecErrors.SingleFlipIsReported` | cocotbext/spacewire/characters.py:184-194 | in any encoded sequence followed by one data character, whichever single bit is flipped, flags included, some character reports a parity error |
| `CodecErrors.OneCheckFails` | cocotbext/spacewire/characters.py:497-539 | after a parity or content flip the primitives are framed as before and exactly one parity check fails: that of the primitive, or of the next for a content flip |
| `CodecErrors.LastContentIsUncovered` | cocotbext/spacewire/characters.py:184-194 | a content flip in the data character that ends any legal sequence is not reported |
| `CodecErrors.LastFlipFailsNoCheck` | cocotbext/spacewire/characters.py:497-539 | whatever the stream, a content flip in its last primitive fails no parity check, so the following character is needed |
| `CodecErrors.ChecksAreFrameChecks` | cocotbext/spacewire/characters.py:619-672 | the checks recorded in characters, through ESC combination and offsets, are those of the primitives in order |
| `ParityInjection.InjectionIsExact` | cocotbext/spacewire/characters.py:385-395 | over any interleaving of injection requests and encodes, primitive m has wrong parity exactly when some request with offset k was made after m - k primitives |
| `ParityInjection.DecoderSeesInjection` | cocotbext/spacewire/characters.py:504-538 | the decoder's per-primitive checks fail at exactly those primitives |
| `CodecObjects.CharEncoder.DoForceBadParity` | cocotbext/spacewire/characters.py:268-277 | a negative offset is refused and changes nothing, any other is queued |
| `CodecObjects.CharEncoder.EncodePrimitive` | cocotbext/spacewire/characters.py:373-395 | the in-place encoder emits the specified frame and advances content and pending requests |
| `CodecObjects.CharEncoder.DoEncode` | cocotbext/spacewire/characters.py:318-347 | the encoder loop over one or two primitives equals `Encode` |
| `CodecObjects.CharDecoder.DoFeed` | cocotbext/spacewire/characters.py:448-467 | the in-place decoder with its remembered frame length equals `FeedBit` |
| `CodecObjects.CharDecoder.ResolvePrimitive` | cocotbext/spacewire/characters.py:541-582 | pending-ESC resolution in place |
| `CodecObjects.CharDecoder.DoPush` | cocotbext/spacewire/characters.py:469-479 | feeding bit by bit equals `Push` |
| `Bits.LsbBitsToInt` | cocotbext/spacewire/characters.py:175-181 | the accumulation loop computes the number whose least significant bit comes first |
| `Bits.ByteRoundTrip` | cocotbext/spacewire/characters.py:168-181 | a byte survives its eight bits |
| `DataStrobe.ClosedForm` | cocotbext/spacewire/ds_codec.py:79-93 | after n bits strobe = data xor the two initial levels xor n mod 2 |
| `DataStrobe.LineSplits` | cocotbext/spacewire/ds_codec.py:79-93 | encoding a concatenation is encoding the parts with the levels carried over |
| `DataStrobe.AcceptsExactlyEncodings` | cocotbext/spacewire/ds_codec.py:140-152 | equal-length samples obey the transition rule exactly when they are the encoding of their own data line |
| `DataStrobe.EncodingsAreAccepted` | cocotbext/spacewire/ds_codec.py:140-152 | every encoding is accepted and decoded to its bits |
| `DataStrobe.DsEncode` | cocotbext/spacewire/ds_codec.py:79-93 | the loop computes `Line` from the initial levels |
| `DataStrobe.DsDecode` | cocotbext/spacewire/ds_codec.py:127-152 | with validation the data line is returned exactly for well-formed samples, otherwise the first bad index; without it always |
| `DataStrobe.MonitorSeesBits` | cocotbext/spacewire/monitor.py:91-116 | one data sample per line change recovers exactly the bits sent |
| `BitDriver.SpaceWireDriver.TxBit` | cocotbext/spacewire/driver.py:101-112 | the bit-by-bit rule produces the Data-Strobe encoding of everything driven so far, and releases exactly the senders whose last bit this was |
| `BitDriver.SpaceWireDriver.SendBitsAndWait` | cocotbext/spacewire/driver.py:77-86 | bits are queued in order and the sender waits for the last of them; an empty request does not wait |
| `BitDriver.SpaceWireDriver.WaitUntilDriven` | cocotbext/spacewire/driver.py:119-125 | waits exactly when the target has not been driven yet |
| `BitDriver.SpaceWireDriver.MarkBitDriven` | cocotbext/spacewire/driver.py:127-140 | the partition loop keeps and releases the waiters in order |
| `BitDriver.ReleasedOnTime` | cocotbext/spacewire/driver.py:127-140 | a waiter leaves the list exactly with the bit it waits for |
| `BitDriver.ReleasedWereDue` | cocotbext/spacewire/driver.py:127-140 | nobody is released early |
| `Timers.NoStaleTick` | cocotbext/spacewire/link.py:555-573 | over any interleaving of arming, cancelling, expiry and events a tick that reaches the machine is the one its state waits for, and at most one pending timer can deliver one |
| `Timers.TimerRunsExactly` | cocotbext/spacewire/link.py:311-320 | a timer is running exactly in ErrorWait, Started, Connecting, and in ErrorReset unless its tick came while link_disable was set |
| `Timers.ResetTickNeedsEnabledLink` | cocotbext/spacewire/link_fsm.py:247-252 | from every reachable clock, the expiring timer of ErrorReset leaves a running timer behind if and only if the link is not disabled at that moment |
| `Timers.DisabledStartIsStuck` | cocotbext/spacewire/link_fsm.py:247-252 | a run from the start: a link disabled before its first tick has no timer left and stays in ErrorReset whatever follows |
| `Timers.LostTickIsForever` | cocotbext/spacewire/link.py:305-320 | after such a lost tick the link stays in ErrorReset for good, a cleared disable included |
| `Timers.EnabledLinkKeepsTimer` | cocotbext/spacewire/link.py:311-320 | a link that is never disabled always has a running timer in its four timed states |
| `Timers.RunNotBefore19200` | cocotbext/spacewire/link.py:311-320 | Run is never entered earlier than 19200 ns after the last entry to ErrorReset, disabled or not |
| `Timers.LoneCycle` | cocotbext/spacewire/link.py:41-42 | with linkStart set and a silent peer the k-th re-entry to ErrorReset is at exactly 32000 k ns in every run, and none is overdue |
| `Timers.CycleReaches` | cocotbext/spacewire/link_fsm.py:247-281 | for every k some run does re-enter ErrorReset k times, at 32000 k ns |
| `SpaceWireLinks.EveryCharacterIsAnEvent` | cocotbext/spacewire/link.py:81-104 | whatever the bits, every decoded character is turned into exactly one event |
| `SpaceWireLinks.EventThenBookkeeping` | cocotbext/spacewire/link.py:81-104 | dispatch = the event first, then the bookkeeping in the state it leaves |
| `SpaceWireLinks.SpaceWireLink.constructor` | cocotbext/spacewire/link.py:116-174 | a new link: both queues empty, no credit, the configured cap, fresh codecs |
| `SpaceWireLinks.SpaceWireLink.Start` | cocotbext/spacewire/link.py:237-238 | a started link has exactly the ErrorReset timer armed, as the timed runs assume |
| `SpaceWireLinks.SpaceWireLink.DoFeedFsm` | cocotbext/spacewire/link.py:305-309 | feeding an event in place equals `FeedFsm`; codecs restart exactly on entry to ErrorReset; timers, bit rate and signals follow exactly a change of state |
| `SpaceWireLinks.SpaceWireLink.HandleStateChange` | cocotbext/spacewire/link.py:311-352 | everything a state change entails: timer schedule, bit rate, codecs, credit, entry count, handshake flag, announced burst, and the run-reached, error-reset and wake-up events |
| `SpaceWireLinks.SignalsOfStates` | cocotbext/spacewire/link.py:322-352 | what a state change signals: run-reached in Run only, error-reset in ErrorReset only, the target bit rate in Run only, the burst as the largest number of FCTs up to seven that the capacity holds |
| `SpaceWireLinks.SpaceWireLink.NextChar` | cocotbext/spacewire/link.py:381-431 | the choice and its charge, mode by mode |
| `SpaceWireLinks.SpaceWireLink.BeginChar` | cocotbext/spacewire/link.py:368-370 | pick, then encode with the carried parity |
| `SpaceWireLinks.SpaceWireLink.EndChar` | cocotbext/spacewire/link.py:370-379 | the SENT event or the drain counter, and the drained event exactly at zero |
| `SpaceWireLinks.SpaceWireLink.OnRxCharacter` | cocotbext/spacewire/link.py:435-475 | credit accounting and queueing of one received character, both credit errors and the wake-up by an accepted FCT included |
| `SpaceWireLinks.SpaceWireLink.DispatchCharacter` | cocotbext/spacewire/link.py:81-104 | one decoded character in place equals `Dispatch`; timers and signals are those of the event followed by those of the bookkeeping |
| `SpaceWireLinks.DispatchInTime` | cocotbext/spacewire/link.py:81-104 | for the timers a dispatch is one event of the timed model, or two when the character is a credit error |
| `SpaceWireLinks.SpaceWireLink.ReceiveBit` | cocotbext/spacewire/link.py:69-73 | one line bit: decoder, encoder, endpoint, timers and signals afterwards, a reset in between included |
| `SpaceWireLinks.SpaceWireLink.SendPacket` | cocotbext/spacewire/link.py:498-517 | queues exactly the N-Chars of the packet and clears the drained event |
| `SpaceWireLinks.SpaceWireLink.RecvPacket` | cocotbext/spacewire/link.py:519-532 | consumes a prefix of the receive queue and returns the packet it completes, or all of it and the data collected so far |
| `SpaceWireLinks.SpaceWireLink.RunTimer` | cocotbext/spacewire/link.py:560-563 | an expired timer is gone and feeds its tick exactly when it carries the current generation |
| `Wire.PickedInStep` | cocotbext/spacewire/link.py:368-370 | the bits of a picked character produce that character, and nothing else, at the far decoder |
| `Wire.OnlyTheLastBitProduces` | cocotbext/spacewire/characters.py:448-467 | a character comes out of the decoder with its last bit and not before |
| `Wire.DriveLane` | cocotbext/spacewire/driver.py:101-112 | driving a bit keeps encoder, line, samples in flight and far decoder in step |
| `Wire.SampleLane` | cocotbext/spacewire/monitor.py:91-116 | sampling keeps them in step and takes off at most the first arriving character |
| `WireRefinement.WireStepIsPairStep` | cocotbext/spacewire/link.py:356-475 | each bit-level step of two whole links is one step of the character-level pair or none; it resets an end exactly when that step does |
| `WireRefinement.WireRefinesPair` | cocotbext/spacewire/link.py:356-475 | up to its first reset every bit-level run is a run of the pair |
| `WireRefinement.RunPlayed` | cocotbext/spacewire/link.py:356-475 | conversely every run of the pair without a reset can be played bit by bit |
| `WireRefinement.FirstWireResetComesFromOutside` | cocotbext/spacewire/link.py:81-110 | with real codecs and line levels between the ends the same if and only if holds of every bit-level step |
| `WireRefinement.PacketsArriveInOrder` | cocotbext/spacewire/link.py:498-530 | end to end, for every bit-level interleaving up to the first reset: packets received are the first of the packets sent, in order with their terminators, and all of them once everything is taken |
| `WireRefinement.EveryPacketCanArrive` | cocotbext/spacewire/link.py:498-530 | from every such state with both ends in Run, bit-level engine and reader steps alone can deliver every packet sent |
| `WireRefinement.HandshakeOverWire` | cocotbext/spacewire/link_fsm.py:255-297 | two links that may send FCTs reach Run bit by bit |
| `LineLevels.LineOfRun` | cocotbext/spacewire/driver.py:101-112 | over every run of two whole links, resets included, the lines of a side are the Data-Strobe encoding of the bits it has driven |
| `LineLevels.LowExactly` | cocotbext/spacewire/link_fsm.py:34-40 | after every run from power-up, in ErrorReset as in any state, both lines of a side are low if and only if it has driven nothing, or an even number of bits the last of which is 0 |
| `LineLevels.HighInErrorReset` | cocotbext/spacewire/link.py:327-333 | a run from power-up: a line error breaks off the first NULL after one bit, and the end stands in ErrorReset with its strobe high |

## Left out

- Bit-level resynchronisation after a reset in the middle of a character, and results on the pair for sessions that start with characters on the line or with stale credit.
- Coroutine plumbing: wake-up and drained events as awaitable objects, task kill, `stop` and restart, timeouts of `connect` and `wait_for_error_reset`; a coroutine that waits is a step that is not yet enabled.
- The bit rate as a physical quantity and the 850 ns disconnect timeout; the watchdog is a line error that may come at any time.
- Sampling of undefined line levels and the one-nanosecond settling time at start.
- The clearing of the run-reached, error-reset and wake-up events by the coroutines that wait for them; only their setting is modelled.
- Time-code transmission, which the program does not implement; received time-codes are modelled.
- Coercion of Python inputs (strings, booleans, integers, `Character` or `CharType`) and the wording of error messages.
- The asynchronous `CharDriver` and `CharMonitor` wrappers, coverage counters, simulation timestamps and logging.
- `send_char`, a one-character `send_packet`, and the refusal of a negative capacity by `initial_fct_count`.
- EveryPacketCanArrive: states that a delivering continuation exists; which schedules make progress is stated on the pair by RoundMakesProgress.
