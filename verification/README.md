# Verification of the modified TCP sender and three graph and concurrency cores

The project models, in Dafny, the parts of an ns-3 simulation repository that
carry the hardest reasoning, and proves what they promise.

* `BbrModel`, `TcpBbr`, `BbrRuns`, `BbrModes`, `BbrRounds`, `BbrCycle`,
  `BbrStartup`, `BbrAggregation`, `BbrWindows`, `BbrGrowth`, `BbrProbeRtt`,
  `BbrIdle`, `BbrRtt`, `BbrPacing`: the BBR congestion control. The class
  `TcpBbr.TcpBbr` has the program's fields and callbacks; each callback is
  proved to compute a function of `BbrModel`. `BbrRuns` puts these functions
  together with the socket's own window writes into runs, and the other modules
  state what holds in every run: modes and gains, packet-timed rounds and packet
  conservation, the phases of the gain cycle and the draining of the pipe, the
  end of start-up, the ack-aggregation filter and its sampling epoch, the
  window's bounds, its growth to the target, its save and restore, the RTT
  estimate, the spacing, the length and the occasion of RTT probes, and the
  pacing rate.
* `LossRecovery`, `RecoveryRuns`: the congestion states, duplicate-ACK count and
  recovery point of an established socket, with and without ECN and SACK, over
  runs of transmissions, received segments and timeouts; and what these runs
  mean for duplicate ACKs, timeouts, the socket's marks and ECN echoes.
* `RateOps`, `RateRuns`: the delivery-rate sampler, over runs of sends,
  deliveries and samples; and which events its fields come from.
* `RttEstimator`: the shift-based integer RTT estimator against the exact
  exponentially weighted average.
* `NewReno`, `WindowScale`, `SynRetry`: window growth, window scaling and the
  SYN part of connection set-up.
* `WorkerPool`: the test runner's worker threads as interleaved steps over two
  FIFO queues and an interrupt flag.
* `SimplePaths`, `TypeGraph`: the depth-first type walk of the documentation
  generator.
* `LibraryOrder`: the levelled load order of the shared libraries.
* `Arithmetic`, `Wrappers`, `SocketState`, `RateTypes`: shared vocabulary.

`dafny verify dfyconfig.toml` checks the whole project.

## How the code is read

* Times, bytes and sequence numbers are natural numbers. None of the 32-bit
  counters and sequence numbers wraps; doubles are reals and their casts to
  integers cut toward zero. A number of seconds that the code multiplies as a
  whole number is the truncated quotient it is there.
* Where a method runs a step that the code leaves to an object outside the
  model, the result is an input: the best rate of the maximum-bandwidth filter,
  the random start of the gain cycle, what the scoreboard says about an ACK,
  the bytes in flight, the result of the floating-point RTT update. The lemmas
  hold for all of these inputs.
* A callback and the writes the socket makes around it are one event of a BBR
  run. `IsRun` allows any number of them in any order that the socket's states
  allow, at times that do not decrease, with pairs of last and minimum RTT as
  `EstimateRtt` leaves them (contrib/modified/tcp-socket-base.cc:3668-3675).
* A run of loss recovery starts in ESTABLISHED with any ACK mark: a forked
  socket still has the mark of the listening one, which its first ACK replaces,
  because the window update returns early before that state
  (contrib/modified/tcp-socket-base.cc:4384-4389).
* Ghost fields such as `trace`, `log` and `asserted` are history; no branch
  depends on them.

## What turned out to be false, and when it holds

* A window of NewReno acknowledgements grows the window by at most one segment
  if and only if the window holds at most as many segments as a segment has
  bytes (`NewReno.OneSegmentPerWindow`). In general the bound is a segment or
  one byte for each acknowledgement, whichever is more.
* A peer may believe in more window than there is, or miss almost all of it.
  Every SYN that reaches a listening socket changes that socket's scaling, each
  forked socket starts with a copy (contrib/modified/tcp-socket-base.cc:1336-1354
  and 362-364), and nothing resets it: after a client with scale 7, one
  without scaling is believed to have 128 times its window
  (`WindowScale.StaleListenerShift`). Unless scaling is on at both ends, or the
  field has no room at all, the active side's windows are never taken for too
  much if and only if the listener's old shift is at most the one the active
  side uses, and make the round trip within one unit if and only if it is at
  least that (`WindowScale.NegotiatedRoundTrip`). Between sockets without such a
  history the first always holds, and the second if and only if the passive
  side sent the option, or the active side sent none or only one of scale 0
  (`WindowScale.FirstHandshakeRoundTrip`). With an agreed scale every window of
  a buffer makes the round trip if and only if 14 halvings are enough for the
  buffer (`WindowScale.BufferRoundTrip`).
* ECN that was not negotiated does not stay off: a segment with a CWR flag, or a
  packet with a CE mark, turns it on. It is off exactly in runs without either
  (`LossRecovery.EcnStaysOffIff`).
* The assertions in `EnterCwr`, `EnterRecovery` and `DupAck` hold in all runs if and only if the duplicate-ACK
  threshold is positive and either SACK is off or ECN can never get on, being
  neither negotiated nor turned on by a marked segment
  (`LossRecovery.AssertionsHoldIff`). With both, leaving CWR does not reset the
  duplicate count, and five events fail one (`LossRecovery.EcnBreaksAssertion`,
  `LossRecovery.FlagBreaksAssertion`).
* The assertion in `SendPendingData` that nothing is sent in CA_DISORDER without
  SACK and limited transmit holds in all runs if and only if one of these is on
  or a single duplicate ACK is enough for recovery
  (`LossRecovery.SendingHoldsIff`); otherwise one segment, its duplicate ACK and
  more data of the application fail it (`LossRecovery.SendsInDisorder`).
* `m_recoverActive` is set exactly in CA_RECOVERY and CA_LOSS, in all runs, if
  and only if ECN can never get on (`LossRecovery.FlagMatchesIff`).
* A rate sample that an ACK did not refresh is used again. On an ACK that
  delivered something a valid sample counts exactly the deliveries of its ACK
  span if and only if that span ends now; a further delivery keeps it exact if
  and only if it refreshes it or comes at the time of the last refresh
  (`RateOps.SampleAccurateIff`, `RateOps.DeliveryKeepsAccurateIff`,
  `RateOps.StaleSampleOvercounts`).
* A sample that reneging has invalidated passes for a valid one: the test for
  validity asks for timing information or an interval, and reneging leaves the
  former (`RateRuns.FoundValidIff`).
* The BBR window stays at least one segment in all runs if and only if the
  initial window and the initial slow-start threshold are at least one segment,
  or segments have no bytes (`BbrWindows.WindowAtLeastSegmentIff`).
* The start of a transmission may end a stay in PROBE_RTT without the minimum
  dwell, because the round-done mark of an earlier stay is not cleared on entry.
  Such an exit has the dwell if and only if the done stamp was set in the stay
  (`BbrProbeRtt.TransmissionExitDwellsIff`, `BbrProbeRtt.StaleMarkEndsStay`).
* The ack-aggregation filter forgets only for windows of at most 31 rounds,
  because the window's age stops there (`BbrAggregation.FilterIsWindowedMaximum`,
  `BbrAggregation.LongWindowNeverForgets`).
* Start-up ends, with at least 3 (J + 1) qualifying calls after the first that
  finds any bandwidth, if and only if there is such a call
  (`BbrStartup.StartupEndsIff`); there are runs of any length without one
  (`BbrStartup.StartupNeedsBandwidth`).
* With no worker thread, which a negative number of processes on the command
  line leads to, and at least one job, the test runner waits for ever
  (`WorkerPool.NoWorkersNoResult`).
* The library order exists if and only if the dependency map is closed and has
  no cycle; otherwise the program recurses without end
  (`LibraryOrder.SortToDependencies`).

Where comments and code disagree the model follows the code. The interface
comment of `GetSsThresh` says the congestion state is already changed when it is
called (contrib/modified/tcp-congestion-ops.h:89-90), but a retransmission
timeout asks for the threshold before it enters CA_LOSS
(contrib/modified/tcp-socket-base.cc:3790-3838). The comment on the duplicate-ACK
test weighs `m_recoverActive` in CA_DISORDER; without ECN it is never set there.
A comment in `ProcessEstablished` says that the CWR and ECE flags are
disregarded (contrib/modified/tcp-socket-base.cc:1495), but `DoForwardUp` has
acted on the CWR flag before (1321-1335) and `ReceivedAck` acts on ECE.

## Model

| member | source | states |
|---|---|---|
| RttEstimator.IntegerTracksExact | contrib/modified/rtt-estimator.cc:230-278 | for every sample sequence and shifts a, b of at least 1 the integer estimate is never above the exact average and below it by at most 2^a - 1 ticks; the integer variation is at most 2^a - 1 above and at most 2^a + 2^b - 2 below the exact one; both are non-negative |
| RttEstimator.StepTracks | contrib/modified/rtt-estimator.cc:230-247 | one integer step keeps these error bounds, whatever the sample |
| RttEstimator.EstimateWithinSamples | contrib/modified/rtt-estimator.cc:250-278 | the estimate stays between the smallest and the largest sample, the variation within their distance or half the first sample |
| RttEstimator.StandsStill | contrib/modified/rtt-estimator.cc:230-247 | the estimate does not move exactly for samples at most 2^a - 1 ticks above it |
| RttEstimator.ShiftRecognised | contrib/modified/rtt-estimator.cc:179-208 | a gain is taken as a shift by k exactly if its reciprocal is within the tolerance of 2^k, for k from 1 to 5 |
| RttEstimator.RttMeanDeviation.Reset | contrib/modified/rtt-estimator.cc:116-124 | the estimator forgets its samples and starts from the initial estimate |
| RttEstimator.RttMeanDeviation.IntegerUpdate | contrib/modified/rtt-estimator.cc:230-247 | the fields after the in-place update are those of the integer step |
| RttEstimator.RttMeanDeviation.Measurement | contrib/modified/rtt-estimator.cc:250-278 | the first sample initializes, later ones use the integer update exactly if both gains are shifts; while no floating-point update was used the fields are the integer run over all samples |
| NewReno.SlowStart | contrib/modified/tcp-congestion-ops.cc:169-182 | adds one segment for an acknowledged segment and returns how many are left |
| NewReno.CongestionAvoidance | contrib/modified/tcp-congestion-ops.cc:194-207 | adds the adder, at least one byte, in place |
| NewReno.IncreaseWindow | contrib/modified/tcp-congestion-ops.cc:219-241 | slow start below the threshold, then congestion avoidance if the threshold is reached |
| NewReno.LinearGrowth | contrib/modified/tcp-congestion-ops.cc:194-241 | over k acknowledgements, k at most a window of segments, the window grows by at least k and at most max(S, k) bytes |
| NewReno.OneSegmentPerWindow | contrib/modified/tcp-congestion-ops.cc:194-207 | a whole window of acknowledgements adds at most one segment if and only if cWnd / S is at most S |
| NewReno.AvoidanceAtLeast | contrib/modified/tcp-congestion-ops.cc:194-207 | the growth over k acknowledgements is at least k times the adder of the largest window reached |
| NewReno.AvoidanceAdds | contrib/modified/tcp-congestion-ops.cc:194-207 | an acknowledgement adds S * S / cWnd cut to whole bytes, and at least one byte |
| NewReno.CrossingAdds | contrib/modified/tcp-congestion-ops.cc:219-241 | the call that crosses the threshold adds a segment, and avoidance gets the acked segments left over |
| NewReno.GrowthAtLeast | contrib/modified/tcp-congestion-ops.cc:194-207 | over k acknowledgements, k at most a window of segments, (growth + k) * (cWnd + max(S, k)) is at least k * S * S: about a segment for a window |
| NewReno.SlowStartDoubles | contrib/modified/tcp-congestion-ops.cc:169-182 | below the threshold a window of acknowledgements doubles the window |
| NewReno.IncreaseAtMostTwo | contrib/modified/tcp-congestion-ops.cc:219-241 | a call adds at most two segments, also across the threshold |
| WindowScale.CalculateWScale | contrib/modified/tcp-socket-base.cc:4229-4251 | the scale is the smallest that makes the buffer fit the field, or 14 |
| WindowScale.ScaleIsUnique | contrib/modified/tcp-socket-base.cc:4229-4251 | only one scale has this property |
| WindowScale.WindowRoundTrip | contrib/modified/tcp-socket-base.cc:3483-3520 | with agreed shifts the peer's window never exceeds the real one, and falls short by less than 2^scale if and only if the scaled window fits the field |
| WindowScale.ArrivesIff | contrib/modified/tcp-socket-base.cc:3483-3520 | for any two shifts, agreed or not, how large a buffer may be so that each of its windows falls short by less than one unit |
| WindowScale.Negotiated | contrib/modified/tcp-socket-base.cc:1347-1354 | the flags and shifts of the active socket, the listener and the forked socket after SYN and SYN-ACK, for every pair of scales and whatever earlier SYNs left |
| WindowScale.NegotiatedRoundTrip | contrib/modified/tcp-socket-base.cc:1340-1354 | in both directions, for sockets with any history: when no window is taken for more than it is, and when each makes the round trip, as exact conditions on the flags and shifts before the handshake |
| WindowScale.FirstHandshakeRoundTrip | contrib/modified/tcp-socket-base.cc:1340-1354 | between sockets without a history neither side believes in more window than there is; the passive side's windows always make the round trip, the active side's if and only if the passive side sent the option or there was no shift to lose |
| WindowScale.RetransmissionsChangeNothing | contrib/modified/tcp-socket-base.cc:1336-1354 | a SYN or SYN-ACK sent or received once more leaves the scaling as it is |
| WindowScale.ListenerScalesIff | contrib/modified/tcp-socket-base.cc:1336-1354 | a listener still scales if and only if every SYN so far had the option, and then with the shift of the last |
| WindowScale.ListenerKeepsShift | contrib/modified/tcp-socket-base.cc:1351-1354 | a SYN without the option turns scaling off for all later connections and leaves them the shift of an earlier one |
| WindowScale.StaleListenerShift | contrib/modified/tcp-socket-base.cc:362-364 | the input: after a client of scale 7 a window of 1000 from one without scaling is seen as 128000 |
| WindowScale.BufferRoundTrip | contrib/modified/tcp-socket-base.cc:4229-4251 | where the forked socket has the shift in use, every window of the buffer falls short by less than 2^scale if and only if 14 halvings, or without the option the shift in use, fit the buffer into the field |
| WindowScale.TcpSocketBase.Fork | contrib/modified/tcp-socket-base.cc:355-364 | a forked socket starts with the scaling and the marks of the listener |
| WindowScale.TcpSocketBase.SendSyn | contrib/modified/tcp-socket-base.cc:2777-2819 | a SYN offers the scale only with scaling enabled, and its own window field is not scaled |
| WindowScale.TcpSocketBase.ReceiveSyn | contrib/modified/tcp-socket-base.cc:1336-1354 | a SYN sets the unscaled window and the peer's scale, or disables scaling and leaves the own shift |
| WindowScale.TcpSocketBase.AddOptionWScale | contrib/modified/tcp-socket-base.cc:4254-4271 | the scale offered is kept as our own and is the one for the receive buffer |
| WindowScale.TcpSocketBase.ProcessOptionWScale | contrib/modified/tcp-socket-base.cc:4208-4226 | a received scale above 14 is used as 14 |
| WindowScale.TcpSocketBase.AdvertisedWindowSize | contrib/modified/tcp-socket-base.cc:3483-3520 | the field is the free space, shifted if asked, never above the maximum; after a FIN the last value is used again |
| WindowScale.TcpSocketBase.UpdateWindowSize | contrib/modified/tcp-socket-base.cc:4377-4419 | an established socket takes a window exactly from a segment with a newer ACK or sequence number, or one that widens it; the marks become the maxima |
| SynRetry.UnansweredConnect | contrib/modified/tcp-socket-base.cc:2781-2862 | an unanswered connect sends exactly synRetries SYNs with doubling waits and fails after timeout * (2^synRetries - 1) |
| SynRetry.UnansweredFrom | contrib/modified/tcp-socket-base.cc:2781-2862 | the same from any point of the attempt |
| SynRetry.TcpSocketBase.SendEmptyPacket | contrib/modified/tcp-socket-base.cc:2781-2862 | one call gives up, or sends a SYN, counts it and sets the timer with the backed-off timeout |
| LossRecovery.RunKeeps | contrib/modified/tcp-socket-base.cc:1642-2225 | in every reachable state, with and without ECN: in CA_OPEN and CA_DISORDER the recovery point is acknowledged, in CA_CWR it is not passed; with ECN off or SACK off the duplicate counts fit the states and every assertion in `EnterCwr`, `EnterRecovery` and `DupAck` held |
| LossRecovery.StatesWithoutEcn | contrib/modified/tcp-socket-base.cc:1642-2225 | without ECN and marked segments: recovery is active exactly in CA_RECOVERY and CA_LOSS, CA_OPEN and CA_LOSS have no duplicate ACKs, CA_DISORDER has from 1 to threshold - 1, and every assertion in `EnterCwr`, `EnterRecovery` and `DupAck` held |
| LossRecovery.OneRecoveryPerWindow | contrib/modified/tcp-socket-base.cc:1669-1670 | in every run, with and without ECN, recovery points never decrease and a fast recovery starts only when the cumulative ACK has reached all earlier points |
| LossRecovery.EcnStaysOffIff | contrib/modified/tcp-socket-base.cc:1321-1335 | ECN is off exactly if it was not negotiated and no segment had a CWR flag or a new CE mark |
| LossRecovery.AssertionsHoldIff | contrib/modified/tcp-socket-base.cc:1615-1804 | the assertions of these functions on congestion states and duplicate counts hold in all runs, with marked segments or without, if and only if the duplicate-ACK threshold is positive and SACK is off or ECN can never get on |
| LossRecovery.SendingHoldsIff | contrib/modified/tcp-socket-base.cc:3429-3438 | the assertion after a transmission holds in all runs if and only if SACK or limited transmit is on or the threshold is 1 |
| LossRecovery.SendsInDisorder | contrib/modified/tcp-socket-base.cc:3429-3438 | otherwise a segment, its duplicate ACK and more data fail it |
| LossRecovery.FlagMatchesIff | contrib/modified/tcp-socket-base.cc:1627-1630 | the flag of a loss-based recovery matches the states in all runs if and only if ECN can never get on |
| LossRecovery.EcnBreaksAssertion | contrib/modified/tcp-socket-base.cc:1858-1863 | for every initial sequence number and threshold a run with ECN and SACK that fails the assertion on leaving CA_OPEN |
| LossRecovery.FlagBreaksAssertion | contrib/modified/tcp-socket-base.cc:1321-1335 | the same from ECN not negotiated, after a segment with a CWR flag |
| LossRecovery.FastRecoveryIff | contrib/modified/tcp-socket-base.cc:1771-1789 | with ECN off, from a state without recovery, an ACK starts one exactly if it is a duplicate that reaches the threshold or reveals a loss |
| LossRecovery.RecoveryEndsIff | contrib/modified/tcp-socket-base.cc:2036-2196 | with ECN off CA_RECOVERY and CA_LOSS end exactly with the ACK that covers the recovery point |
| RecoveryRuns.DuplicateCounts | contrib/modified/tcp-socket-base.cc:2013-2141 | without ECN a duplicate ACK below the threshold counts and stays in or enters CA_DISORDER, also when it advances the window; the one that reaches it starts a fast recovery |
| RecoveryRuns.ThresholdStartsRecovery | contrib/modified/tcp-socket-base.cc:1699-1804 | of threshold many duplicate ACKs in a row, advancing or not, exactly the last starts the fast recovery |
| RecoveryRuns.NewAckEndsDisorder | contrib/modified/tcp-socket-base.cc:2110-2141 | an advancing ACK that is no duplicate ends CA_DISORDER and the count |
| RecoveryRuns.OtherAckIsIgnored | contrib/modified/tcp-socket-base.cc:1699-1804 | an ACK that does not advance and is no duplicate, or comes during a recovery, changes only the mark of the highest ACK |
| RecoveryRuns.PartialAckNoted | contrib/modified/tcp-socket-base.cc:2036-2196 | the flag for the first partial ACK is cleared exactly by a partial ACK in CA_RECOVERY and set with the end of a recovery |
| RecoveryRuns.FirstPartialAckSet | contrib/modified/tcp-socket-base.cc:2036-2196 | in every run without ECN and marks it is set outside recoveries |
| RecoveryRuns.MarksAre | contrib/modified/tcp-socket-base.cc:1808-1926 | in every run the highest mark sent, the head and the highest ACK are the maxima of the ends sent, of the acceptable ACKs and of all ACKs |
| RecoveryRuns.TimeoutsAreLogged | contrib/modified/tcp-socket-base.cc:3729-3856 | CA_LOSS is entered once for each timeout with data and retries left, and by nothing else |
| RecoveryRuns.TimeoutRecoversAll | contrib/modified/tcp-socket-base.cc:3729-3856 | such a timeout has everything sent so far to recover |
| RecoveryRuns.EchoReduces | contrib/modified/tcp-socket-base.cc:1872-1891 | a new echo leads to CA_CWR, with a new recovery point unless one is not yet passed |
| RecoveryRuns.CwrEndsIff | contrib/modified/tcp-socket-base.cc:1855-1863 | without a new echo CA_CWR ends exactly with an ACK above its recovery point |
| RecoveryRuns.AnswersIff | contrib/modified/tcp-socket-base.cc:3165-3185 | an echo is answered exactly by new data while it is newer than the last answer |
| RecoveryRuns.OneAnswerPerEcho | contrib/modified/tcp-socket-base.cc:3165-3185 | between two answers an ACK echoed congestion of newer data |
| RecoveryRuns.MarkWaits | contrib/modified/tcp-socket-base.cc:1321-1335 | a received CE mark is kept until it is echoed, whatever CWR flags come |
| RecoveryRuns.EchoLasts | contrib/modified/tcp-socket-base.cc:1321-1335 | the echo then lasts exactly until a CWR flag without a new mark |
| LossRecovery.TcpSocketBase.EnterCwr | contrib/modified/tcp-socket-base.cc:1615-1639 | the state and the recovery point change, no recovery is activated |
| LossRecovery.TcpSocketBase.EnterRecovery | contrib/modified/tcp-socket-base.cc:1642-1696 | the recovery point becomes the highest byte sent |
| LossRecovery.TcpSocketBase.DupAck | contrib/modified/tcp-socket-base.cc:1699-1804 | counting, the step to CA_DISORDER and the two ways into CA_RECOVERY |
| LossRecovery.TcpSocketBase.ProcessAck | contrib/modified/tcp-socket-base.cc:1929-2225 | duplicate test, partial ACKs, and the ways back to CA_OPEN |
| LossRecovery.TcpSocketBase.ReceivedAck | contrib/modified/tcp-socket-base.cc:1808-1926 | leaving CWR, the ECN echo, then the processing of the ACK |
| LossRecovery.TcpSocketBase.NoteEcho | contrib/modified/tcp-socket-base.cc:1872-1891 | a new echo enters CWR once for its number, an ACK without one ends the echo state |
| LossRecovery.TcpSocketBase.ForwardUp | contrib/modified/tcp-socket-base.cc:1197-1210 | a new CE mark is noted, whatever the ECN state |
| LossRecovery.TcpSocketBase.DoForwardUp | contrib/modified/tcp-socket-base.cc:1321-1335 | a CWR flag sets ECN_IDLE except after a CE mark, then the ACK is processed |
| LossRecovery.TcpSocketBase.ProcessEstablished | contrib/modified/tcp-socket-base.cc:1491-1540 | the window update notes the number, stale and premature ACKs are dropped |
| LossRecovery.TcpSocketBase.EchoCe | contrib/modified/tcp-socket-base.cc:3863-3868 | a noted CE mark becomes an echo being sent |
| LossRecovery.TcpSocketBase.SendDataPacket | contrib/modified/tcp-socket-base.cc:3165-3261 | new data answers an echo once, the highest mark becomes the maximum of the ends sent |
| LossRecovery.TcpSocketBase.ReTxTimeout | contrib/modified/tcp-socket-base.cc:3729-3856 | a timeout with data and retries left clears the count and enters CA_LOSS with a new recovery point |
| RateOps.DeliveryConservation | contrib/modified/tcp-rate-ops.cc:175-243 | delivered bytes and bytes of armed items are the bytes of all sends that armed an item, so a send is counted once under SACK and a later cumulative ACK |
| RateOps.PriorDeliveredMonotone | contrib/modified/tcp-rate-ops.cc:175-208 | the sample's snapshot never moves back and never passes what is delivered |
| RateOps.SampleAccurate | contrib/modified/tcp-rate-ops.cc:57-142 | on a refreshing ACK a valid sample counts exactly the bytes delivered since the item's snapshot, in an interval at least as long as the send span and the ACK span |
| RateOps.SampleAccurateIff | contrib/modified/tcp-rate-ops.cc:57-142 | a valid sample counts exactly the deliveries of its ACK span if the connection's delivery time is not after its end; only then unless a transmission has started since; and on an ACK that delivered something, exactly if the span ends now |
| RateOps.DeliveryKeepsAccurateIff | contrib/modified/tcp-rate-ops.cc:189-203 | a further delivery keeps the sample exact if and only if it takes the refreshing branch or comes at the end of the sample's span |
| RateOps.InvalidatedIff | contrib/modified/tcp-rate-ops.cc:84-127 | a sample is invalidated exactly without timing information, under reneging, or if shorter than the minimum RTT |
| RateOps.StaleSampleOvercounts | contrib/modified/tcp-rate-ops.cc:175-208 | a concrete run, with a sample at every ACK, in which a sample that was not refreshed counts a delivery after its interval |
| RateRuns.RateIs | contrib/modified/tcp-rate-ops.cc:129-137 | a valid sample gets the rate of its bytes in bits per second, cut to a whole number, exactly if it is not limited by the application or no slower than the last one accepted; else the rate stays |
| RateRuns.RateIsOfDeliveries | contrib/modified/tcp-rate-ops.cc:57-142 | on a refreshing ACK this is the rate of exactly the bytes delivered since the sample's snapshot |
| RateRuns.LimitedNeverLowers | contrib/modified/tcp-rate-ops.cc:129-137 | a sample limited by the application never lowers the recorded rate |
| RateRuns.FoundValidIff | contrib/modified/tcp-rate-ops.cc:84-127 | when a generated sample passes the test for validity, which one after reneging does |
| RateRuns.ArmedItemIs | contrib/modified/tcp-rate-ops.cc:211-243 | an armed item tells the time of its last transmission and the state of the connection then |
| RateRuns.DeliveredTimeIs | contrib/modified/tcp-rate-ops.cc:175-243 | the delivery time is that of the last delivery or start of a transmission |
| RateRuns.FirstSentTimeIs | contrib/modified/tcp-rate-ops.cc:175-243 | the first-sent time is when the last item to refresh the sample was sent, or the start of a transmission since |
| RateRuns.SpansAre | contrib/modified/tcp-rate-ops.cc:175-208 | which transmission and which delivery the spans of a sample lie between, and that its limit is that of the transmission |
| RateRuns.TxItemDeliveredIs | contrib/modified/tcp-rate-ops.cc:175-208 | the connection notes the snapshot of the item delivered last |
| RateRuns.BubbleLasts | contrib/modified/tcp-rate-ops.cc:57-172 | a connection marked as limited stays so exactly until the first sample after more than everything then delivered or in flight is delivered |
| RateRuns.UnlimitedBefore | contrib/modified/tcp-rate-ops.cc:145-172 | before the data runs dry it is not limited |
| RateOps.TcpRateLinux.SkbSent | contrib/modified/tcp-rate-ops.cc:211-243 | the connection's times at the start of a transmission and the snapshot in the item |
| RateOps.TcpRateLinux.SkbDelivered | contrib/modified/tcp-rate-ops.cc:175-208 | an armed item is counted and disarmed, a newer one refreshes the sample |
| RateOps.TcpRateLinux.GenerateSample | contrib/modified/tcp-rate-ops.cc:57-142 | connection and sample after an ACK, all branches |
| RateOps.TcpRateLinux.CalculateAppLimited | contrib/modified/tcp-rate-ops.cc:145-172 | when the connection is marked as limited by the application |
| WorkerPool.RunsAreFinite | test.py:981-1055 | every interleaving, with the interrupt at any time, has at most 5 J + 4 P + 6 steps for J jobs and P workers |
| WorkerPool.NoDeadlock | test.py:1466-1469 | with a worker, or no job, some thread can go on in every reachable state until the main thread returns |
| WorkerPool.StuckMeansReturned | test.py:1917-1918 | a run that no thread can extend has returned |
| WorkerPool.NoWorkersNoResult | test.py:1455-1469 | without a worker and with a job the main thread never returns |
| WorkerPool.ReturnedMeans | test.py:1759-1803 | on return all workers have ended, both queues are empty, each dispatched job was collected exactly once, and the result is 0 if and only if every job was skipped or ran to return code 0 |
| WorkerPool.UninterruptedRunsAll | test.py:981-1055 | without an interrupt no job comes back unrun |
| WorkerPool.InterruptStopsWork | test.py:993-1005 | once the interrupt is seen no further job is started |
| WorkerPool.RunInv | test.py:1466-1770 | the queue holds the untaken jobs in order and then the poison jobs, in every reachable state |
| WorkerPool.RunJobs | test.py:981-1055 | every taken job is in exactly one place: with a worker, in the output queue, or collected |
| WorkerPool.HandedBackIsReported | test.py:981-1055 | the records handed back are those of the workers' actions in order: the return code of each process, a break after the interrupt, a skipped job as it is |
| WorkerPool.FinishIsReported | test.py:1022-1055 | the return code of every process that ends is in the record of its job |
| WorkerPool.ReturnCodeIs | test.py:1759-1803 | the runner returns 1 if some process ended with another code than 0 or a job was met after the interrupt, and 0 otherwise |
| WorkerPool.CountersMean | test.py:1759-1803 | each counter is the number of records with its outcome |
| SimplePaths.WalkRecordsSimplePaths | utils/print-introspected-doxygen.cc:448-531 | the walk records exactly the simple paths from the root, one record for each sequence of edges |
| SimplePaths.WalkSound | utils/print-introspected-doxygen.cc:448-531 | every record is a simple path with its labels and its end |
| SimplePaths.WalkComplete | utils/print-introspected-doxygen.cc:448-531 | every simple path is recorded |
| SimplePaths.WalkDistinct | utils/print-introspected-doxygen.cc:448-531 | no sequence of edges is recorded twice |
| TypeGraph.StaticInformation.DoGather | utils/print-introspected-doxygen.cc:448-531 | ends, restores both stacks, and appends exactly the records of the walk in order |
| TypeGraph.StaticInformation.FollowAttributes | utils/print-introspected-doxygen.cc:456-496 | pointer attributes except those to Object, and object containers, each as push, walk, pop |
| TypeGraph.StaticInformation.FollowChildren | utils/print-introspected-doxygen.cc:497-509 | the types derived from the open one |
| TypeGraph.StaticInformation.FollowAggregates | utils/print-introspected-doxygen.cc:510-530 | the other side of each aggregation that has the open type |
| TypeGraph.StaticInformation.GetCurrentPath | utils/print-introspected-doxygen.cc:361-370 | the labels of the stack, each after a slash |
| TypeGraph.StaticInformation.HasAlreadyBeenProcessed | utils/print-introspected-doxygen.cc:380-391 | true exactly for a type on the stack |
| TypeGraph.StaticInformation.RecordOutput | utils/print-introspected-doxygen.cc:373-377 | appends the type with the current path |
| TypeGraph.EdgesAre | utils/print-introspected-doxygen.cc:456-530 | the edges out of a type are exactly its pointer attributes except those to Object, its containers with an index, the types derived from it and both directions of its aggregations, with their labels |
| TypeGraph.EdgesFollowItems | utils/print-introspected-doxygen.cc:456-530 | the edges of each kind come in the order of the attributes, types and aggregations |
| TypeGraph.PathOfParts | utils/print-introspected-doxygen.cc:361-370 | the string of a path is its labels, each after a slash |
| TypeGraph.PathStringInjective | utils/print-introspected-doxygen.cc:361-370 | paths of different labels have different strings, for names without a slash |
| LibraryOrder.SortToDependencies | bindings/python/ns__init__.py:385-421 | an order is found if and only if the map is closed and acyclic; it is a permutation of the libraries, each after everything it links, and the step of a library is its longest chain of links |
| LibraryOrder.StepIsLongestChain | bindings/python/ns__init__.py:407-417 | the level of a library is the length of the longest chain below it |
| LibraryOrder.OrderedIsSortable | bindings/python/ns__init__.py:407-417 | a map with such an order is closed and acyclic |
| LibraryOrder.BlockedHasCycle | bindings/python/ns__init__.py:394-405 | if every library of a set waits for another of the set, there is a cycle |
| LibraryOrder.StuckIsUnsortable | bindings/python/ns__init__.py:407-417 | a step that loads nothing while libraries wait shows a missing or circular dependency |
| LibraryOrder.ModulesThatCanBeLoaded | bindings/python/ns__init__.py:394-405 | exactly the pending libraries whose dependencies are all loaded, none twice that pends once |
| LibraryOrder.Sorter.LoadStep | bindings/python/ns__init__.py:412-416 | one step moves the loadable libraries from pending to loaded |
| LibraryOrder.Sorter.DependencyOrder | bindings/python/ns__init__.py:407-417 | the recursion over the steps, or the finding that none can follow |
| TcpBbr.TcpBbr.CongControl | contrib/modified/tcp-bbr.cc:723-733 | an ACK's whole effect on BBR and the socket |
| TcpBbr.TcpBbr.UpdateBtlBw | contrib/modified/tcp-bbr.cc:614-655 | the round is left alone, its start mark included, for a sample without a rate |
| TcpBbr.TcpBbr.UpdateRound | contrib/modified/tcp-bbr.cc:597-611 | a round starts when the sample's snapshot reaches the mark, which also ends packet conservation |
| TcpBbr.TcpBbr.UpdateAckAggregation | contrib/modified/tcp-bbr.cc:491-532 | age, flip, sampling epoch and recorded excess |
| TcpBbr.TcpBbr.CheckCyclePhase | contrib/modified/tcp-bbr.cc:284-291 | the cycle advances exactly when the phase is over |
| TcpBbr.TcpBbr.IsNextCyclePhase | contrib/modified/tcp-bbr.cc:264-281 | when a phase of the cycle is over, for its three kinds of gain |
| TcpBbr.TcpBbr.AdvanceCyclePhase | contrib/modified/tcp-bbr.cc:255-261 | the next phase, its stamp and its gain |
| TcpBbr.TcpBbr.CheckFullPipe | contrib/modified/tcp-bbr.cc:294-316 | growth by a quarter starts the count over, the third call without it fills the pipe |
| TcpBbr.TcpBbr.CheckDrain | contrib/modified/tcp-bbr.cc:339-352 | STARTUP to DRAIN with a full pipe, DRAIN to PROBE_BW when drained |
| TcpBbr.TcpBbr.EnterProbeBW | contrib/modified/tcp-bbr.cc:328-336 | a stay starts one phase after the random one |
| TcpBbr.TcpBbr.UpdateRTprop | contrib/modified/tcp-bbr.cc:355-364 | a smaller or an expired estimate is replaced and stamped |
| TcpBbr.TcpBbr.CheckProbeRTT | contrib/modified/tcp-bbr.cc:440-459 | entry, handling, and the end of the idle restart |
| TcpBbr.TcpBbr.HandleProbeRTT | contrib/modified/tcp-bbr.cc:411-437 | the done stamp, the round-done mark and the exit |
| TcpBbr.TcpBbr.LeaveProbeRTT | contrib/modified/tcp-bbr.cc:397-435 | fresh stamp, restored window, PROBE_BW or STARTUP |
| TcpBbr.TcpBbr.SaveCwnd | contrib/modified/tcp-bbr.cc:376-387 | the window is saved, or joined to the saved one in PROBE_RTT and CA_RECOVERY |
| TcpBbr.TcpBbr.RestoreCwnd | contrib/modified/tcp-bbr.cc:390-394 | the larger of window and saved window |
| TcpBbr.TcpBbr.SetPacingRate | contrib/modified/tcp-bbr.cc:219-234 | the first RTT seeds the rate, a full pipe or a higher rate sets it |
| TcpBbr.TcpBbr.InitPacingRate | contrib/modified/tcp-bbr.cc:167-193 | rate and bandwidth filter start from the window over the minimum RTT |
| TcpBbr.TcpBbr.ModulateCwndForRecovery | contrib/modified/tcp-bbr.cc:535-550 | losses reduce the window, packet conservation raises it to what is in flight and acked |
| TcpBbr.TcpBbr.SetCwnd | contrib/modified/tcp-bbr.cc:563-594 | recovery, growth to the target, floor and the cap of PROBE_RTT |
| TcpBbr.TcpBbr.AckAggregationCwnd | contrib/modified/tcp-bbr.cc:476-488 | the allowance for aggregated ACKs, capped by a tenth of a second of bandwidth |
| TcpBbr.TcpBbr.CongestionStateSet | contrib/modified/tcp-bbr.cc:742-782 | the first CA_OPEN initializes, CA_LOSS and CA_RECOVERY save the window |
| TcpBbr.TcpBbr.OnCwndEvent | contrib/modified/tcp-bbr.cc:785-814 | the end of recovery restores the window; the start of a transmission after idling restarts the epoch and may end PROBE_RTT |
| TcpBbr.TcpBbr.GetSsThresh | contrib/modified/tcp-bbr.cc:817-822 | returns the threshold as it is and saves the window |
| BbrModes.RunKeepsModes | contrib/modified/tcp-bbr.cc:319-408 | in every run the gains match the mode, modes follow only the allowed edges, a stay in PROBE_BW never starts in phase 1 or 2, and DRAIN and PROBE_BW mean a full pipe |
| BbrModes.ThreeQuartersFollowsFiveQuarters | contrib/modified/tcp-bbr.cc:255-291 | every three-quarters phase directly follows a five-quarters phase of the same stay |
| BbrModes.EightGainsAverageOne | contrib/modified/tcp-bbr.cc:33 | any eight consecutive gains in PROBE_BW sum to eight |
| BbrRounds.RoundCountIs | contrib/modified/tcp-bbr.cc:597-611 | in every run the round count is the number of ACKs that start a round, and the start mark that of the last rated ACK, or of a timeout since |
| BbrRounds.RoundsAreSpaced | contrib/modified/tcp-bbr.cc:597-611 | the packet whose ACK starts a round was sent when everything delivered at any earlier round start was delivered |
| BbrRounds.RoundsGoOn | contrib/modified/tcp-bbr.cc:597-611 | a packet sent when everything delivered at all earlier ACKs was delivered starts a round |
| BbrRounds.ConservesIff | contrib/modified/tcp-bbr.cc:597-611 | packet conservation lasts exactly from the entry into a recovery to its end or the next round start |
| BbrCycle.PhasesLast | contrib/modified/tcp-bbr.cc:264-291 | when each phase of the cycle ends, in every run; one that does not drain lasts longer than the RTT estimate |
| BbrCycle.StampIs | contrib/modified/tcp-bbr.cc:255-261 | the stamp of a phase is the time of the event that entered it |
| BbrCycle.StartIsDrawn | contrib/modified/tcp-bbr.cc:328-336 | which phase a stay starts with for each of the six draws |
| BbrCycle.DrainsInRun | contrib/modified/tcp-bbr.cc:339-352 | a full pipe ends STARTUP; DRAIN ends exactly when no more than the pipe's data is in flight; the end of start-up sets the threshold to the pipe's data |
| BbrCycle.ThresholdStays | contrib/modified/tcp-bbr.cc:339-352 | nothing else changes the threshold |
| BbrStartup.PipeFills | contrib/modified/tcp-bbr.cc:294-316 | if the best bandwidth is at most B and (5/4)^J exceeds B, the pipe is declared full within 3 (J + 1) qualifying calls of the first with any bandwidth |
| BbrStartup.PipeFillsIff | contrib/modified/tcp-bbr.cc:294-316 | after that many calls the pipe is full if and only if there was any bandwidth |
| BbrStartup.PipeMeans | contrib/modified/tcp-bbr.cc:294-316 | a full pipe has seen three calls in a row without growth by a quarter over the recorded bandwidth, and before that the count is the number of such calls since it was recorded |
| BbrStartup.StartupEndsIff | contrib/modified/tcp-bbr.cc:294-352 | the same in a run; start-up is then over and never comes back, and without bandwidth the mode is STARTUP or PROBE_RTT |
| BbrStartup.RunPipe | contrib/modified/tcp-bbr.cc:294-316 | in every run the detector is what its qualifying calls made of it, and a full pipe excludes STARTUP |
| BbrStartup.StartupNeedsBandwidth | contrib/modified/tcp-bbr.cc:294-316 | for every n a run with n qualifying calls, none with bandwidth, that is still in STARTUP |
| BbrAggregation.FilterIsWindowedMaximum | contrib/modified/tcp-bbr.cc:491-532 | for a window of L up to 31 rounds, where none counts as one, the two slots give the largest excess of the last L + R % L of R counted rounds, at least L and fewer than 2 L |
| BbrAggregation.NoRoundsIsOne | contrib/modified/tcp-bbr.cc:503-509 | a window of no rounds filters as one of a single round |
| BbrAggregation.MaxSinceIsMax | contrib/modified/tcp-bbr.cc:528-531 | the reference of that statement is the maximum of the history |
| BbrAggregation.LongWindowNeverForgets | contrib/modified/tcp-bbr.cc:503-509 | for L above 31 the slots never flip and keep the largest excess of all |
| BbrAggregation.ExcessInRange | contrib/modified/tcp-bbr.cc:512-527 | the subtraction for the excess never underflows, and the excess is at most a window |
| BbrAggregation.EstimateIsWindowedMaximum | contrib/modified/tcp-bbr.cc:491-532 | the same as the first of these, for the counted ACKs of any run |
| BbrAggregation.ExcessIs | contrib/modified/tcp-bbr.cc:512-531 | the excess is the bytes of the epoch beyond what the bandwidth delivers in the whole seconds since its start, at most a window, and when the epoch starts anew |
| BbrAggregation.EpochIs | contrib/modified/tcp-bbr.cc:512-527 | in every run the epoch began with the last event to begin one and holds the bytes counted since |
| BbrWindows.WindowAtLeastSegmentIff | contrib/modified/tcp-bbr.cc:535-594 | the window is at least one segment in all runs if and only if the initial window and the initial threshold are, or segments have no bytes |
| BbrWindows.RunKeepsWindow | contrib/modified/tcp-socket-base.cc:2201 | window and threshold stay at least one segment, with the socket's own writes at the end of recovery and on a timeout |
| BbrWindows.AckBoundsWindow | contrib/modified/tcp-bbr.cc:553-594 | after an ACK at most four segments in PROBE_RTT; with a full pipe at most max(target, four segments) for acked data outside packet conservation |
| BbrWindows.PriorMonotone | contrib/modified/tcp-bbr.cc:376-394 | the saved window never decreases while in PROBE_RTT or CA_RECOVERY, under any interleaving of losses, recoveries, CWR and threshold queries |
| BbrWindows.ProbeRttRestoresWindow | contrib/modified/tcp-bbr.cc:411-459 | leaving PROBE_RTT gives back at least the window held on entry, whatever losses and recoveries came between |
| BbrWindows.RecoveryRestoresWindow | contrib/modified/tcp-bbr.cc:785-790 | the end of a recovery gives back at least the window held on entry, before the socket sets it to the threshold |
| BbrGrowth.InFlightIs | contrib/modified/tcp-bbr.cc:236-253 | the data in flight for a gain: gain times bandwidth times RTT in bytes, cut, three quanta and two segments when probing; the initial window without an RTT |
| BbrGrowth.AllowanceIs | contrib/modified/tcp-bbr.cc:476-488 | the larger excess times the gain, at most a tenth of a second of bandwidth, with a full pipe only |
| BbrGrowth.AckWindowIs | contrib/modified/tcp-bbr.cc:535-594 | in every run the window and the target after an ACK, by recovery, packet conservation, full pipe and PROBE_RTT |
| BbrGrowth.WindowReachesTarget | contrib/modified/tcp-bbr.cc:563-594 | over ACKs outside recovery and PROBE_RTT the window grows by all that is acked until it reaches the target, before and after the pipe is full |
| BbrGrowth.WindowSettles | contrib/modified/tcp-bbr.cc:582-585 | with a full pipe and a steady target enough acked bytes bring the window to exactly the target, or four segments |
| BbrGrowth.WindowsMove | contrib/modified/tcp-bbr.cc:376-394 | which events save the window, overwriting or joining, and the window after every event that is no ACK |
| BbrGrowth.SavedWindowIs | contrib/modified/tcp-bbr.cc:376-387 | the saved window is one the connection had since the last overwriting save, and no smaller than any saved since |
| BbrGrowth.OpeningWindows | contrib/modified/tcp-bbr.cc:742-765 | windows and threshold when a connection opens |
| BbrProbeRtt.ProbesAreSpaced | contrib/modified/tcp-bbr.cc:355-459 | two entries into PROBE_RTT are more than the RTT filter length apart |
| BbrProbeRtt.AckExitDwells | contrib/modified/tcp-bbr.cc:411-437 | an exit by an ACK comes more than the probe duration after the stay's first ACK with at most four segments in flight, and after a round start seen since |
| BbrProbeRtt.TransmissionExitDwellsIff | contrib/modified/tcp-bbr.cc:800-812 | an exit by a transmission start has that dwell if and only if the done stamp is set |
| BbrProbeRtt.StaleMarkEndsStay | contrib/modified/tcp-bbr.cc:800-812 | a concrete run in which a stay ends at the time it starts, by a transmission start after a timeout, with no ACK that found the pipe drained |
| BbrIdle.EntersIff | contrib/modified/tcp-bbr.cc:411-459 | PROBE_RTT is entered exactly at an ACK more than the filter length after the estimate's stamp, outside restarts from idle; each ACK in it marks all data as limited by the application |
| BbrIdle.RestartIff | contrib/modified/tcp-bbr.cc:793-797 | a restart from idle lasts exactly to the first ACK that delivered something or has no sample |
| BbrIdle.DwellIsARound | contrib/modified/tcp-bbr.cc:411-437 | a round start after the first drained ACK of a stay belongs to a packet sent when everything delivered at that ACK was |
| BbrRtt.EstimateIsMinimum | contrib/modified/tcp-bbr.cc:355-364 | in every run the RTT estimate is the minimum of the RTTs since it was set; after an ACK it is not above that ACK's RTT, and at most the filter length has passed since its stamp |
| BbrRtt.EstimateRisesIff | contrib/modified/tcp-bbr.cc:355-364 | the estimate rises exactly at an ACK with a larger RTT that comes more than the filter length after the estimate's stamp |
| BbrRtt.RttStampIs | contrib/modified/tcp-bbr.cc:355-435 | the estimate's stamp is the time of the last ACK with no larger RTT, of the last late one, or of the last end of PROBE_RTT |
| BbrRtt.OpeningStamps | contrib/modified/tcp-bbr.cc:742-765 | the opening takes the socket's RTT, stamps it, and starts the sampling epoch |
| BbrPacing.RateRisesUntilFull | contrib/modified/tcp-bbr.cc:219-234 | from the first RTT on, the pacing rate never drops before the pipe is full and never exceeds the maximum unless it did before |
| BbrPacing.RateInRun | contrib/modified/tcp-bbr.cc:219-234 | in every run where BBR sets the rate: gain times bandwidth, cut, up to the maximum, with a full pipe or if higher; the first RTT seeds rate and bandwidth |
| BbrPacing.RateStays | contrib/modified/tcp-bbr.cc:219-234 | all other events leave rate and bandwidth alone |
| BbrPacing.RateFollowsBandwidth | contrib/modified/tcp-bbr.cc:671-677 | with a full pipe every ACK leaves the rate at the mode's gain times the bandwidth, cut, up to the maximum |
| BbrPacing.OpeningRate | contrib/modified/tcp-bbr.cc:167-193 | a connection opens with the bandwidth of its window over the minimum RTT in whole milliseconds, paced at the gain of STARTUP |
| BbrPacing.RttSeenIff | contrib/modified/tcp-bbr.cc:167-193 | from when on an RTT counts as seen |
| BbrPacing.BestMoves | contrib/modified/tcp-bbr.cc:614-655 | exactly a rated sample that is not below the bandwidth or not limited by the application updates it |

## Left out

- The internals of TcpTxBuffer, TcpRxBuffer, WindowedFilter, DataRate and Time: inputs with the values the callers read; these files are not part of this model.
- 32-bit wrap-around of windows, sequence numbers and delivered counts: every value is assumed to stay below the wrap.
- IEEE rounding: gains, rates and the bandwidth-delay product are exact, and the floating-point RTT update is an input of `Measurement`.
- RttEstimator.RttMeanDeviation.Measurement: says nothing about the values of a floating-point update, for the same reason.
- TcpBbr.TcpBbr.UpdateBtlBw: the best rate after an update of the maximum-bandwidth filter is an input, because the filter is not part of this model.
- The assertions on sacked bytes in CA_LOSS (contrib/modified/tcp-socket-base.cc:2095-2100) and on bytes in flight after a timeout (3848), and the one on the window of a packet sent (3136): they speak of the transmit buffer and of windows.
- `TcpBbr::HandleRestartFromIdle`, which none of the modelled callbacks calls.
- The congestion windows of loss recovery with other congestion controls, retransmission itself, limited transmit and the pacing timer.
- The receiver's side of ECN beyond the states it shares with the sender, the closing states, FIN handling beyond the advertised window, and the retry budget beyond whether retries are left.
- Simultaneous opens in the negotiation of the window scale.
- Endpoints, routing, header building, tracing, logging, attributes and the IPv6 twins in `tcp-socket-base.cc`.
- Process execution, its output, the XML and HTML reports and the configuration of `test.py`; a job's return code is an input, and job execution is taken to return.
- WorkerPool.ReturnedMeans: threads are steps of a state machine over values, not Dafny threads, because Dafny has none; each queue operation and each read of the flag is one step.
- `Gather`, `Get` and `Uniquefy`, which works on a copy, so that the output is neither sorted nor freed of duplicates.
- TypeGraph.StaticInformation.DoGather: asks that every type the database mentions is registered, as registration itself ensures.
- Finding the libraries on disk and what they link, and loading them.
- LibraryOrder.Sorter.DependencyOrder: stops with a result where the program recurses without end, and leaves out Python's recursion limit.
- `scratch`, the EPC helpers, the benchmarks, the style checker and the module generator.
