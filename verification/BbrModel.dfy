/**
 BBR congestion control (draft-cardwell-iccrg-bbr-congestion-control) as the
 functions its callbacks compute.  Rates are bits per second, times ticks of a
 nanosecond; gains and the bandwidth-delay product are exact reals where the
 source has doubles.  The filter for the maximum bandwidth and the random start
 of the gain cycle are not modelled: their results are inputs of the callbacks.
 */
module BbrModel {
  import opened Arithmetic
  import opened SocketState
  import opened RateTypes

  datatype Mode = Startup | Drain | ProbeBw | ProbeRtt

  const GAIN_CYCLE_LENGTH: nat := 8

  /** The pacing gain of a phase of the cycle. */
  function CycleGain(i: nat): real {
    if i == 0 then 1.25 else if i == 1 then 0.75 else 1.0
  }

  type Gain = g: real | g > 0.0 witness 1.0

  /** A draw for the start of the gain cycle: the integer part of a uniform value in [0, 6). */
  type Draw = n: nat | n <= 5

  datatype Config = Config(
    highGain: Gain, rtPropFilterLen: nat, probeRttDuration: nat, extraAckedGain: nat, extraAckedWinRttLength: nat,
    ackEpochAckedResetThresh: nat, segmentSize: nat, initialCWnd: nat, initialSsThresh: nat, maxPacingRate: nat)

  /** Mode, gains and position in the gain cycle. */
  datatype Phase = Phase(mode: Mode, pacingGain: real, cWndGain: real, cycleIndex: nat, cycleStamp: nat)

  datatype Pipe = Pipe(filled: bool, fullBandwidth: nat, count: nat)

  datatype Round = Round(count: nat, start: bool, nextDelivered: nat)

  /** The two slots of the ack-aggregation filter, its window and the current sampling epoch. */
  datatype Aggregation = Aggregation(extra0: nat, extra1: nat, winRtt: nat, idx: nat, epochTime: nat, epochAcked: nat)

  datatype RttFilter = RttFilter(rtProp: nat, stamp: nat, expired: bool)

  datatype Probe = Probe(doneStamp: nat, roundDone: bool)

  datatype Bbr = Bbr(
    phase: Phase, pipe: Pipe, round: Round, agg: Aggregation, rtt: RttFilter, probe: Probe,
    minPipeCwnd: nat, packetConservation: bool, priorCwnd: nat, idleRestart: bool, targetCWnd: nat, sendQuantum: nat,
    isInitialized: bool, delivered: nat, appLimited: nat, txItemDelivered: nat, hasSeenRtt: bool, best: nat)

  /** What the constructor leaves. */
  const NEW_BBR := Bbr(
    Phase(Startup, 0.0, 0.0, 0, 0), Pipe(false, 0, 0), Round(0, false, 0), Aggregation(0, 0, 0, 0, 0, 0),
    RttFilter(TIME_MAX, 0, false), Probe(0, false), 0, false, 0, false, 0, 0, false, 0, 0, 0, false, 0)

  /** The socket's side. */
  datatype Tcb = Tcb(
    cWnd: nat, ssThresh: nat, bytesInFlight: nat, congState: CongState, lastRtt: nat, minRtt: nat,
    lastAckedSackedBytes: nat, pacing: bool, pacingRate: nat)

  /** Both sides; `trace` is the history of all phases entered. */
  datatype Sys = Sys(b: Bbr, t: Tcb, trace: seq<Phase>)

  /** What a CongControl call is given: connection, sample, time, the filter's new best rate and the random phase. */
  datatype AckInput = AckInput(rc: Connection, rs: Sample, now: nat, best: nat, draw: Draw)

  function Trunc(x: real): nat {
    if x < 0.0 then 0 else x.Floor
  }

  // Modes and gains

  function EnteredStartup(cfg: Config, p: Phase): Phase {
    p.(mode := Startup, pacingGain := cfg.highGain, cWndGain := cfg.highGain)
  }

  function Reciprocal(g: Gain): real {
    1.0 / g
  }

  function EnteredDrain(cfg: Config, p: Phase): Phase {
    p.(mode := Drain, pacingGain := Reciprocal(cfg.highGain), cWndGain := cfg.highGain)
  }

  function AdvancedCycle(p: Phase, now: nat): Phase {
    var i := (p.cycleIndex + 1) % GAIN_CYCLE_LENGTH;
    p.(cycleStamp := now, cycleIndex := i, pacingGain := CycleGain(i))
  }

  function EnteredProbeBw(p: Phase, now: nat, draw: Draw): Phase {
    var first := GAIN_CYCLE_LENGTH - 1 - draw;
    AdvancedCycle(p.(mode := ProbeBw, pacingGain := 1.0, cWndGain := 2.0, cycleIndex := first), now)
  }

  function EnteredProbeRtt(p: Phase): Phase {
    p.(mode := ProbeRtt, pacingGain := 1.0, cWndGain := 1.0)
  }

  function Enter(s: Sys, p: Phase): Sys {
    s.(b := s.b.(phase := p), trace := s.trace + [p])
  }

  // The network model

  function Bdp(b: Bbr): real {
    b.best as real * b.rtt.rtProp as real / 8000000000.0
  }

  function InFlight(cfg: Config, b: Bbr, gain: real): nat {
    if b.rtt.rtProp == TIME_MAX then cfg.initialCWnd * cfg.segmentSize
    else
      Trunc(gain * Bdp(b)) + 3 * b.sendQuantum
      + (if b.phase.mode == ProbeBw && b.phase.cycleIndex == 0 then 2 * cfg.segmentSize else 0)
  }

  function UpdatedRound(r: Round, priorDelivered: nat, delivered: nat): Round {
    if priorDelivered >= r.nextDelivered then Round(r.count + 1, true, delivered) else r.(start := false)
  }

  /** A round start also ends packet conservation. */
  function AfterRound(b: Bbr, rs: Sample): Bbr {
    b.(round := UpdatedRound(b.round, rs.priorDelivered, b.delivered),
       packetConservation := b.packetConservation && rs.priorDelivered < b.round.nextDelivered)
  }

  function AfterBtlBw(b: Bbr, rs: Sample, best: nat): Bbr {
    if rs.deliveryRate == 0 || !IsValid(rs) then b
    else
      AfterRound(b, rs).(best := if rs.deliveryRate >= b.best || !rs.isAppLimited then best else b.best)
  }

  // Ack aggregation

  function Slot(a: Aggregation): nat {
    if a.idx == 0 then a.extra0 else a.extra1
  }

  function WithSlot(a: Aggregation, v: nat): Aggregation {
    if a.idx == 0 then a.(extra0 := v) else a.(extra1 := v)
  }

  /** A counted round start ages the window and flips the slots when it is full. */
  function Aged(a: Aggregation, windowLength: nat): Aggregation {
    var age := Min(31, a.winRtt + 1);
    if age >= windowLength then WithSlot(a.(winRtt := 0, idx := if a.idx == 0 then 1 else 0), 0) else a.(winRtt := age)
  }

  function ExpectedAcked(best: nat, now: nat, epochTime: nat): nat {
    best * (Max(0, now - epochTime) / TICKS_PER_SECOND) / 8
  }

  /** The sampling epoch after an ACK of `acked` bytes. */
  function Epoch(cfg: Config, a: Aggregation, acked: nat, best: nat, now: nat): Aggregation {
    if a.epochAcked <= ExpectedAcked(best, now, a.epochTime) || a.epochAcked + acked >= cfg.ackEpochAckedResetThresh
    then a.(epochTime := now, epochAcked := acked) else a.(epochAcked := a.epochAcked + acked)
  }

  /** The bytes acknowledged in the epoch beyond what the bandwidth explains, at most a window. */
  function Excess(cfg: Config, a: Aggregation, acked: nat, best: nat, now: nat, cWnd: nat): int {
    var expected := ExpectedAcked(best, now, a.epochTime);
    if a.epochAcked <= expected || a.epochAcked + acked >= cfg.ackEpochAckedResetThresh
    then Min(acked, cWnd) else Min(a.epochAcked + acked - expected, cWnd)
  }

  function Recorded(a: Aggregation, excess: int): Aggregation {
    if excess > Slot(a) then WithSlot(a, excess) else a
  }

  /** Whether an ACK takes part in the estimate of aggregation. */
  predicate Counted(cfg: Config, rs: Sample) {
    cfg.extraAckedGain != 0 && rs.ackedSacked > 0 && rs.delivered >= 0
  }

  function AfterAggregation(cfg: Config, b: Bbr, rs: Sample, now: nat, cWnd: nat): Bbr {
    if !Counted(cfg, rs) then b
    else
      var a := if b.round.start then Aged(b.agg, cfg.extraAckedWinRttLength) else b.agg;
      b.(agg := Recorded(Epoch(cfg, a, rs.ackedSacked, b.best, now), Excess(cfg, a, rs.ackedSacked, b.best, now, cWnd)))
  }

  // The four checks

  predicate IsNextCyclePhase(cfg: Config, b: Bbr, rs: Sample, now: nat) {
    var isFullLength := now - b.phase.cycleStamp > b.rtt.rtProp;
    if b.phase.pacingGain == 1.0 then isFullLength
    else if b.phase.pacingGain > 1.0 then
      isFullLength && (rs.bytesLoss > 0 || rs.priorInFlight >= InFlight(cfg, b, b.phase.pacingGain))
    else isFullLength || rs.priorInFlight <= InFlight(cfg, b, 1.0)
  }

  function AfterCyclePhase(cfg: Config, s: Sys, rs: Sample, now: nat): Sys {
    if s.b.phase.mode == ProbeBw && IsNextCyclePhase(cfg, s.b, rs, now)
    then Enter(s, AdvancedCycle(s.b.phase, now)) else s
  }

  predicate Qualifies(roundStart: bool, isAppLimited: bool) {
    roundStart && !isAppLimited
  }

  /** One qualifying call of CheckFullPipe: growth by a quarter starts over, three calls without it fill the pipe. */
  function PipeStep(p: Pipe, best: nat): Pipe {
    if p.filled then p
    else if 4 * best >= 5 * p.fullBandwidth then Pipe(false, best, 0)
    else Pipe(p.count + 1 >= 3, p.fullBandwidth, p.count + 1)
  }

  function AfterFullPipe(b: Bbr, rs: Sample): Bbr {
    if Qualifies(b.round.start, rs.isAppLimited) then b.(pipe := PipeStep(b.pipe, b.best)) else b
  }

  function AfterDrain(cfg: Config, s: Sys, now: nat, draw: Draw): Sys {
    var s1 :=
      if s.b.phase.mode == Startup && s.b.pipe.filled then
        var s0 := Enter(s, EnteredDrain(cfg, s.b.phase));
        s0.(t := s0.t.(ssThresh := InFlight(cfg, s0.b, 1.0)))
      else s;
    if s1.b.phase.mode == Drain && s1.t.bytesInFlight <= InFlight(cfg, s1.b, 1.0)
    then Enter(s1, EnteredProbeBw(s1.b.phase, now, draw)) else s1
  }

  function UpdatedRtt(cfg: Config, r: RttFilter, lastRtt: nat, now: nat): RttFilter {
    var expired := now > r.stamp + cfg.rtPropFilterLen;
    if lastRtt <= r.rtProp || expired then RttFilter(lastRtt, now, expired) else r.(expired := expired)
  }

  function AfterRtt(cfg: Config, s: Sys, now: nat): Sys {
    s.(b := s.b.(rtt := UpdatedRtt(cfg, s.b.rtt, s.t.lastRtt, now)))
  }

  function SavedCwnd(b: Bbr, t: Tcb): Bbr {
    b.(priorCwnd := if t.congState != Recovery && b.phase.mode != ProbeRtt then t.cWnd else Max(b.priorCwnd, t.cWnd))
  }

  function RestoredCwnd(b: Bbr, t: Tcb): Tcb {
    t.(cWnd := Max(b.priorCwnd, t.cWnd))
  }

  /** Leaving PROBE_RTT: the RTT estimate counts as fresh and the saved window comes back. */
  function ExitedProbeRtt(cfg: Config, s: Sys, now: nat, draw: Draw): Sys {
    var s1 := s.(b := s.b.(rtt := s.b.rtt.(stamp := now)), t := RestoredCwnd(s.b, s.t));
    Enter(s1, if s1.b.pipe.filled then EnteredProbeBw(s1.b.phase, now, draw) else EnteredStartup(cfg, s1.b.phase))
  }

  function MarkedAppLimited(s: Sys): Sys {
    var total := s.b.delivered + s.t.bytesInFlight;
    s.(b := s.b.(appLimited := if total > 0 then total else 1))
  }

  /** The pipe is found drained: the stay's minimum duration runs from now. */
  function DwellBegun(cfg: Config, s: Sys, now: nat): Sys {
    s.(b := s.b.(probe := Probe(now + cfg.probeRttDuration, false),
                 round := s.b.round.(nextDelivered := s.b.delivered)))
  }

  function RoundNoted(s: Sys): Sys {
    if s.b.round.start then s.(b := s.b.(probe := s.b.probe.(roundDone := true))) else s
  }

  function HandledProbeRtt(cfg: Config, s: Sys, now: nat, draw: Draw): Sys {
    var s1 := MarkedAppLimited(s);
    if s1.b.probe.doneStamp == 0 then
      if s1.t.bytesInFlight <= s1.b.minPipeCwnd then DwellBegun(cfg, s1, now) else s1
    else
      var s2 := RoundNoted(s1);
      if s2.b.probe.roundDone && now > s2.b.probe.doneStamp then ExitedProbeRtt(cfg, s2, now, draw) else s2
  }

  /** Entering PROBE_RTT saves the window and starts a stay without a done stamp. */
  function ProbeBegun(s: Sys): Sys {
    var s0 := Enter(s, EnteredProbeRtt(s.b.phase));
    s0.(b := SavedCwnd(s0.b, s0.t).(probe := s0.b.probe.(doneStamp := 0)))
  }

  function AfterProbeEntry(s: Sys): Sys {
    if s.b.phase.mode != ProbeRtt && s.b.rtt.expired && !s.b.idleRestart then ProbeBegun(s) else s
  }

  function AfterProbeRtt(cfg: Config, s: Sys, rs: Sample, now: nat, draw: Draw): Sys {
    var s1 := AfterProbeEntry(s);
    var s2 := if s1.b.phase.mode == ProbeRtt then HandledProbeRtt(cfg, s1, now, draw) else s1;
    if rs.delivered != 0 then s2.(b := s2.b.(idleRestart := false)) else s2
  }

  // CongControl

  function WithConnection(s: Sys, rc: Connection): Sys {
    s.(b := s.b.(appLimited := rc.appLimited, delivered := rc.delivered, txItemDelivered := rc.txItemDelivered))
  }

  /** The model up to the full-pipe detector. */
  function Measured(cfg: Config, s: Sys, i: AckInput): Sys {
    var s1 := s.(b := AfterAggregation(cfg, AfterBtlBw(s.b, i.rs, i.best), i.rs, i.now, s.t.cWnd));
    var s2 := AfterCyclePhase(cfg, s1, i.rs, i.now);
    s2.(b := AfterFullPipe(s2.b, i.rs))
  }

  /** The model from CheckDrain on. */
  function Checked(cfg: Config, s: Sys, i: AckInput): Sys {
    AfterProbeRtt(cfg, AfterRtt(cfg, AfterDrain(cfg, s, i.now, i.draw), i.now), i.rs, i.now, i.draw)
  }

  function AfterMeasuring(cfg: Config, s: Sys, i: AckInput): Sys {
    Measured(cfg, WithConnection(s, i.rc), i)
  }

  function AfterModel(cfg: Config, s: Sys, i: AckInput): Sys {
    Checked(cfg, AfterMeasuring(cfg, s, i), i)
  }

  function BitsPerSecond(bytes: nat, ms: nat): nat
    requires ms > 0
  {
    bytes * 8 * 1000 / ms
  }

  /** The bandwidth of the window over the minimum RTT, in whole milliseconds, at least one. */
  function NominalBandwidth(t: Tcb): nat {
    var ms := if t.minRtt != TIME_MAX then Max(t.minRtt / 1_000_000, 1) else 1;
    BitsPerSecond(t.cWnd, ms)
  }

  function PacedRate(gain: real, rate: nat): nat {
    Trunc(gain * rate as real)
  }

  function InitedPacing(s: Sys): Sys {
    var nominal := NominalBandwidth(s.t);
    s.(b := s.b.(hasSeenRtt := s.b.hasSeenRtt || s.t.minRtt != TIME_MAX, best := nominal),
       t := s.t.(pacing := true, pacingRate := PacedRate(s.b.phase.pacingGain, nominal)))
  }

  function AfterPacingRate(cfg: Config, s: Sys, gain: real): Sys {
    var rate := Min(PacedRate(gain, s.b.best), cfg.maxPacingRate);
    var s1 := if !s.b.hasSeenRtt && s.t.minRtt != TIME_MAX then InitedPacing(s) else s;
    if s1.b.pipe.filled || rate > s1.t.pacingRate then s1.(t := s1.t.(pacingRate := rate)) else s1
  }

  function AggregationCwnd(cfg: Config, b: Bbr): nat {
    if cfg.extraAckedGain != 0 && b.pipe.filled
    then Min(cfg.extraAckedGain * Max(b.agg.extra0, b.agg.extra1), b.best / 80) else 0
  }

  function TargetCwnd(cfg: Config, b: Bbr): nat {
    InFlight(cfg, b, b.phase.cWndGain) + AggregationCwnd(cfg, b)
  }

  function RecoveryCwnd(cfg: Config, t: Tcb, rs: Sample): nat {
    if rs.bytesLoss > 0 then Max(t.cWnd - rs.bytesLoss, cfg.segmentSize) else t.cWnd
  }

  /** The window towards the target, before the cap of PROBE_RTT. */
  function GrownCwnd(cfg: Config, b: Bbr, cWnd: nat, acked: nat): nat {
    var target := TargetCwnd(cfg, b);
    var w := if b.pipe.filled then Min(cWnd + acked, target)
             else if cWnd < target || b.delivered < cfg.initialCWnd * cfg.segmentSize then cWnd + acked else cWnd;
    Max(w, b.minPipeCwnd)
  }

  predicate Conserving(s: Sys) {
    s.t.congState == Recovery && s.b.packetConservation
  }

  function AfterCwnd(cfg: Config, s: Sys, rs: Sample): Sys {
    var w := if s.t.congState == Recovery && rs.ackedSacked != 0 then RecoveryCwnd(cfg, s.t, rs) else s.t.cWnd;
    var s1 :=
      if rs.ackedSacked == 0 then s
      else if Conserving(s) then s.(t := s.t.(cWnd := Max(w, s.t.bytesInFlight + rs.ackedSacked)))
      else s.(b := s.b.(targetCWnd := TargetCwnd(cfg, s.b)), t := s.t.(cWnd := GrownCwnd(cfg, s.b, w, rs.ackedSacked)));
    if s1.b.phase.mode == ProbeRtt then s1.(t := s1.t.(cWnd := Min(s1.t.cWnd, s1.b.minPipeCwnd))) else s1
  }

  function AfterControl(cfg: Config, s: Sys, rs: Sample): Sys {
    var s1 := AfterPacingRate(cfg, s, s.b.phase.pacingGain);
    AfterCwnd(cfg, s1.(b := s1.b.(sendQuantum := cfg.segmentSize)), rs)
  }

  function AfterCongControl(cfg: Config, s: Sys, i: AckInput): Sys {
    AfterControl(cfg, AfterModel(cfg, s, i), i.rs)
  }

  // The other callbacks

  function InitedEstimates(cfg: Config, s: Sys, now: nat): Sys {
    InitedLimits(cfg, InitedRtt(s, now))
  }

  function InitedRtt(s: Sys, now: nat): Sys {
    s.(b := s.b.(rtt := s.b.rtt.(rtProp := s.t.lastRtt, stamp := now), priorCwnd := s.t.cWnd))
  }

  function InitedLimits(cfg: Config, s: Sys): Sys {
    s.(b := s.b.(targetCWnd := s.t.cWnd, minPipeCwnd := 4 * cfg.segmentSize, sendQuantum := cfg.segmentSize),
       t := s.t.(ssThresh := cfg.initialSsThresh))
  }

  function InitedCounting(cfg: Config, s: Sys, now: nat): Sys {
    var s0 := InitedEstimates(cfg, s, now);
    s0.(b := s0.b.(round := Round(0, false, 0), pipe := Pipe(false, 0, 0)))
  }

  function InitedSending(cfg: Config, s: Sys, now: nat): Sys {
    var s0 := InitedPacing(Enter(s, EnteredStartup(cfg, s.b.phase)));
    s0.(b := s0.b.(agg := Aggregation(0, 0, 0, 0, now, 0), isInitialized := true))
  }

  function Initialized(cfg: Config, s: Sys, now: nat): Sys {
    InitedSending(cfg, InitedCounting(cfg, s, now), now)
  }

  function Conserved(cfg: Config, s: Sys): Sys {
    s.(b := s.b.(packetConservation := true),
       t := s.t.(cWnd := s.t.bytesInFlight + Max(s.t.lastAckedSackedBytes, cfg.segmentSize)))
  }

  /** The threshold is returned as it is; the call saves the window. */
  function AfterSsThreshQuery(s: Sys): Sys {
    s.(b := SavedCwnd(s.b, s.t))
  }

  function AfterStateSet(cfg: Config, s: Sys, newState: CongState, now: nat): Sys {
    if newState == Open && !s.b.isInitialized then Initialized(cfg, s, now)
    else if newState == Loss then
      var s1 := AfterSsThreshQuery(s);
      s1.(b := s1.b.(round := s1.b.round.(start := true)))
    else if newState == Recovery then Conserved(cfg, AfterSsThreshQuery(s))
    else s
  }

  datatype CwndEvent = CompleteCwr | TxStart | OtherEvent

  /** The restart from idle starts a new sampling epoch. */
  function Idled(s: Sys, now: nat): Sys {
    s.(b := s.b.(idleRestart := true, agg := s.b.agg.(epochTime := now, epochAcked := 0)))
  }

  function AfterCwndEvent(cfg: Config, s: Sys, e: CwndEvent, now: nat, draw: Draw): Sys {
    if e == CompleteCwr then s.(b := s.b.(packetConservation := false), t := RestoredCwnd(s.b, s.t))
    else if e == TxStart && s.b.appLimited != 0 then
      var s1 := Idled(s, now);
      if s1.b.phase.mode == ProbeBw then AfterPacingRate(cfg, s1, 1.0)
      else if s1.b.phase.mode == ProbeRtt && s1.b.probe.roundDone && now > s1.b.probe.doneStamp
      then ExitedProbeRtt(cfg, s1, now, draw)
      else s1
    else s
  }
}
