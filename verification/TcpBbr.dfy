/**
 BBR as the program has it: an object whose callbacks update its fields and
 those of the socket, each proved to compute the function of the BbrModel module.
 */
module TcpBbr {
  import opened Arithmetic
  import opened SocketState
  import opened RateTypes
  import opened BbrModel

  class TcpBbr {
    const highGain: Gain
    const rtPropFilterLen: nat
    const probeRttDuration: nat
    const extraAckedGain: nat
    const extraAckedWinRttLength: nat
    const ackEpochAckedResetThresh: nat
    var mode: Mode
    var pacingGain: real
    var cWndGain: real
    var cycleIndex: nat
    var cycleStamp: nat
    var isPipeFilled: bool
    var fullBandwidth: nat
    var fullBandwidthCount: nat
    var roundCount: nat
    var roundStart: bool
    var nextRoundDelivered: nat
    const extraAcked: array<nat>
    var extraAckedWinRtt: nat
    var extraAckedIdx: nat
    var ackEpochTime: nat
    var ackEpochAcked: nat
    var rtProp: nat
    var rtPropStamp: nat
    var rtPropExpired: bool
    var probeRttDoneStamp: nat
    var probeRttRoundDone: bool
    var minPipeCwnd: nat
    var packetConservation: bool
    var priorCwnd: nat
    var idleRestart: bool
    var targetCWnd: nat
    var sendQuantum: nat
    var isInitialized: bool
    var delivered: nat
    var appLimited: nat
    var txItemDelivered: nat
    var hasSeenRtt: bool
    /** The best rate of the maximum-bandwidth filter. */
    var maxBw: nat
    ghost var trace: seq<Phase>

    // Methods that write several fields name the state they start from: with
    // that the solver compares the two states field by field at once.

    ghost predicate Valid()
      reads this`extraAckedIdx
    {
      extraAcked.Length == 2 && extraAckedIdx <= 1
    }

    function Cfg(tcb: TcpSocketState): Config {
      Config(highGain, rtPropFilterLen, probeRttDuration, extraAckedGain, extraAckedWinRttLength,
             ackEpochAckedResetThresh, tcb.segmentSize, tcb.initialCWnd, tcb.initialSsThresh, tcb.maxPacingRate)
    }

    function ThePhase(): Phase
      reads this
    {
      Phase(mode, pacingGain, cWndGain, cycleIndex, cycleStamp)
    }

    function TheAggregation(): Aggregation
      requires Valid()
      reads this, extraAcked
    {
      Aggregation(extraAcked[0], extraAcked[1], extraAckedWinRtt, extraAckedIdx, ackEpochTime, ackEpochAcked)
    }

    function TheBbr(): Bbr
      requires Valid()
      reads this, extraAcked
    {
      Bbr(ThePhase(), Pipe(isPipeFilled, fullBandwidth, fullBandwidthCount),
          Round(roundCount, roundStart, nextRoundDelivered), TheAggregation(),
          RttFilter(rtProp, rtPropStamp, rtPropExpired), Probe(probeRttDoneStamp, probeRttRoundDone),
          minPipeCwnd, packetConservation, priorCwnd, idleRestart, targetCWnd, sendQuantum,
          isInitialized, delivered, appLimited, txItemDelivered, hasSeenRtt, maxBw)
    }

    function TheTcb(tcb: TcpSocketState): Tcb
      reads tcb
    {
      Tcb(tcb.cWnd, tcb.ssThresh, tcb.bytesInFlight, tcb.congState, tcb.lastRtt, tcb.minRtt, tcb.lastAckedSackedBytes,
          tcb.pacing, tcb.pacingRate)
    }

    ghost function View(tcb: TcpSocketState): Sys
      requires Valid()
      reads this, extraAcked, tcb
    {
      Sys(TheBbr(), TheTcb(tcb), trace)
    }

    constructor (highGain: Gain, rtPropFilterLen: nat, probeRttDuration: nat, extraAckedGain: nat,
                 extraAckedWinRttLength: nat, ackEpochAckedResetThresh: nat)
      ensures Valid() && fresh(extraAcked) && trace == []
      ensures TheBbr() == NEW_BBR
    {
      this.highGain, this.rtPropFilterLen, this.probeRttDuration := highGain, rtPropFilterLen, probeRttDuration;
      this.extraAckedGain, this.extraAckedWinRttLength := extraAckedGain, extraAckedWinRttLength;
      this.ackEpochAckedResetThresh := ackEpochAckedResetThresh;
      mode, pacingGain, cWndGain, cycleIndex, cycleStamp := Startup, 0.0, 0.0, 0, 0;
      isPipeFilled, fullBandwidth, fullBandwidthCount := false, 0, 0;
      roundCount, roundStart, nextRoundDelivered := 0, false, 0;
      extraAckedWinRtt, extraAckedIdx, ackEpochTime, ackEpochAcked := 0, 0, 0, 0;
      rtProp, rtPropStamp, rtPropExpired := TIME_MAX, 0, false;
      probeRttDoneStamp, probeRttRoundDone := 0, false;
      minPipeCwnd, packetConservation, priorCwnd, idleRestart, targetCWnd, sendQuantum := 0, false, 0, false, 0, 0;
      isInitialized, delivered, appLimited, txItemDelivered, hasSeenRtt, maxBw := false, 0, 0, 0, false, 0;
      trace := [];
      extraAcked := new nat[2] (_ => 0);
    }

    // Modes

    method EnterStartup(tcb: TcpSocketState)
      requires Valid()
      modifies this`mode, this`pacingGain, this`cWndGain, this`trace
      ensures View(tcb) == Enter(old(View(tcb)), EnteredStartup(Cfg(tcb), old(ThePhase())))
    {
      ghost var s := View(tcb);
      mode := Startup;
      pacingGain := highGain;
      cWndGain := highGain;
      trace := trace + [ThePhase()];
    }

    method EnterDrain(tcb: TcpSocketState)
      requires Valid()
      modifies this`mode, this`pacingGain, this`cWndGain, this`trace
      ensures View(tcb) == Enter(old(View(tcb)), EnteredDrain(Cfg(tcb), old(ThePhase())))
    {
      ghost var s := View(tcb);
      mode := Drain;
      pacingGain := Reciprocal(highGain);
      cWndGain := highGain;
      trace := trace + [ThePhase()];
    }

    method AdvanceCyclePhase(tcb: TcpSocketState, now: nat)
      requires Valid()
      modifies this`cycleStamp, this`cycleIndex, this`pacingGain, this`trace
      ensures View(tcb) == Enter(old(View(tcb)), AdvancedCycle(old(ThePhase()), now))
    {
      ghost var s := View(tcb);
      cycleStamp := now;
      cycleIndex := (cycleIndex + 1) % GAIN_CYCLE_LENGTH;
      pacingGain := CycleGain(cycleIndex);
      trace := trace + [ThePhase()];
    }

    method EnterProbeBW(tcb: TcpSocketState, now: nat, draw: Draw)
      requires Valid()
      modifies this`mode, this`cWndGain, this`cycleStamp, this`cycleIndex, this`pacingGain, this`trace
      ensures View(tcb) == Enter(old(View(tcb)), EnteredProbeBw(old(ThePhase()), now, draw))
    {
      ghost var s := View(tcb);
      mode := ProbeBw;
      pacingGain := 1.0;
      cWndGain := 2.0;
      cycleIndex := GAIN_CYCLE_LENGTH - 1 - draw;
      AdvanceCyclePhase(tcb, now);
    }

    method EnterProbeRTT(tcb: TcpSocketState)
      requires Valid()
      modifies this`mode, this`pacingGain, this`cWndGain, this`trace
      ensures View(tcb) == Enter(old(View(tcb)), EnteredProbeRtt(old(ThePhase())))
    {
      ghost var s := View(tcb);
      mode := ProbeRtt;
      pacingGain := 1.0;
      cWndGain := 1.0;
      trace := trace + [ThePhase()];
    }

    // The model

    method StartRound()
      requires Valid()
      modifies this`nextRoundDelivered, this`roundCount, this`roundStart, this`packetConservation
      ensures TheBbr() == old(TheBbr()).(round := Round(old(roundCount) + 1, true, delivered),
                                         packetConservation := false)
    {
      ghost var b := TheBbr();
      nextRoundDelivered := delivered;
      roundCount := roundCount + 1;
      roundStart := true;
      packetConservation := false;
    }

    method UpdateRound(rs: Sample)
      requires Valid()
      modifies this`nextRoundDelivered, this`roundCount, this`roundStart, this`packetConservation
      ensures TheBbr() == AfterRound(old(TheBbr()), rs)
    {
      if rs.priorDelivered >= nextRoundDelivered {
        StartRound();
      } else {
        roundStart := false;
      }
    }

    /** `best` is the best rate of the filter after an update. */
    method UpdateBtlBw(rs: Sample, best: nat)
      requires Valid()
      modifies this`nextRoundDelivered, this`roundCount, this`roundStart, this`packetConservation, this`maxBw
      ensures TheBbr() == AfterBtlBw(old(TheBbr()), rs, best)
    {
      if rs.deliveryRate == 0 || !IsValid(rs) {
        return;
      }
      UpdateRound(rs);
      if rs.deliveryRate >= maxBw || !rs.isAppLimited {
        maxBw := best;
      }
    }

    method AgeAggregation()
      requires Valid()
      modifies this`extraAckedWinRtt, this`extraAckedIdx, extraAcked
      ensures Valid() && TheBbr() == old(TheBbr()).(agg := Aged(old(TheAggregation()), extraAckedWinRttLength))
    {
      extraAckedWinRtt := Min(31, extraAckedWinRtt + 1);
      if extraAckedWinRtt >= extraAckedWinRttLength {
        extraAckedWinRtt := 0;
        extraAckedIdx := if extraAckedIdx != 0 then 0 else 1;
        extraAcked[extraAckedIdx] := 0;
      }
    }

    method RecordExcess(tcb: TcpSocketState, acked: nat, now: nat)
      requires Valid()
      modifies this`ackEpochAcked, this`ackEpochTime, extraAcked
      ensures Valid()
      ensures var a := old(TheAggregation());
              TheAggregation() == Recorded(Epoch(Cfg(tcb), a, acked, maxBw, now),
                                           Excess(Cfg(tcb), a, acked, maxBw, now, tcb.cWnd))
    {
      var epochProp := Max(0, now - ackEpochTime) / TICKS_PER_SECOND;
      var expectedAcked := maxBw * epochProp / 8;
      assert expectedAcked == ExpectedAcked(maxBw, now, ackEpochTime);
      if ackEpochAcked <= expectedAcked || ackEpochAcked + acked >= ackEpochAckedResetThresh {
        ackEpochAcked := 0;
        ackEpochTime := now;
        expectedAcked := 0;
      }
      ackEpochAcked := ackEpochAcked + acked;
      var extraAck := ackEpochAcked - expectedAcked;
      extraAck := Min(extraAck, tcb.cWnd);
      if extraAck > extraAcked[extraAckedIdx] {
        extraAcked[extraAckedIdx] := extraAck;
      }
    }

    method UpdateAckAggregation(tcb: TcpSocketState, rs: Sample, now: nat)
      requires Valid()
      modifies this`extraAckedWinRtt, this`extraAckedIdx, this`ackEpochAcked, this`ackEpochTime, extraAcked
      ensures Valid() && TheBbr() == AfterAggregation(Cfg(tcb), old(TheBbr()), rs, now, tcb.cWnd)
    {
      if extraAckedGain == 0 || rs.ackedSacked <= 0 || rs.delivered < 0 {
        return;
      }
      if roundStart {
        AgeAggregation();
      }
      RecordExcess(tcb, rs.ackedSacked, now);
    }

    method IsNextCyclePhase(tcb: TcpSocketState, rs: Sample, now: nat) returns (r: bool)
      requires Valid()
      ensures r == BbrModel.IsNextCyclePhase(Cfg(tcb), TheBbr(), rs, now)
    {
      var isFullLength := now - cycleStamp > rtProp;
      if pacingGain == 1.0 {
        return isFullLength;
      } else if pacingGain > 1.0 {
        return isFullLength && (rs.bytesLoss > 0 || rs.priorInFlight >= InFlight(Cfg(tcb), TheBbr(), pacingGain));
      } else {
        return isFullLength || rs.priorInFlight <= InFlight(Cfg(tcb), TheBbr(), 1.0);
      }
    }

    method CheckCyclePhase(tcb: TcpSocketState, rs: Sample, now: nat)
      requires Valid()
      modifies this`cycleStamp, this`cycleIndex, this`pacingGain, this`trace
      ensures View(tcb) == AfterCyclePhase(Cfg(tcb), old(View(tcb)), rs, now)
    {
      if mode == ProbeBw {
        var next := IsNextCyclePhase(tcb, rs, now);
        if next {
          AdvanceCyclePhase(tcb, now);
        }
      }
    }

    method CheckFullPipe(rs: Sample)
      requires Valid()
      modifies this`fullBandwidth, this`fullBandwidthCount, this`isPipeFilled
      ensures TheBbr() == AfterFullPipe(old(TheBbr()), rs)
    {
      if isPipeFilled || !roundStart || rs.isAppLimited {
        return;
      }
      if 4 * maxBw >= 5 * fullBandwidth {
        fullBandwidth := maxBw;
        fullBandwidthCount := 0;
        return;
      }
      fullBandwidthCount := fullBandwidthCount + 1;
      if fullBandwidthCount >= 3 {
        isPipeFilled := true;
      }
    }

    method CheckDrain(tcb: TcpSocketState, now: nat, draw: Draw)
      requires Valid()
      modifies this`mode, this`pacingGain, this`cWndGain, this`cycleStamp, this`cycleIndex, this`trace, tcb`ssThresh
      ensures View(tcb) == AfterDrain(Cfg(tcb), old(View(tcb)), now, draw)
    {
      if mode == Startup && isPipeFilled {
        EnterDrain(tcb);
        tcb.ssThresh := InFlight(Cfg(tcb), TheBbr(), 1.0);
      }
      if mode == Drain && tcb.bytesInFlight <= InFlight(Cfg(tcb), TheBbr(), 1.0) {
        EnterProbeBW(tcb, now, draw);
      }
    }

    method UpdateRTprop(tcb: TcpSocketState, now: nat)
      requires Valid()
      modifies this`rtProp, this`rtPropStamp, this`rtPropExpired
      ensures View(tcb) == AfterRtt(Cfg(tcb), old(View(tcb)), now)
    {
      ghost var s := View(tcb);
      rtPropExpired := now > rtPropStamp + rtPropFilterLen;
      if tcb.lastRtt <= rtProp || rtPropExpired {
        rtProp := tcb.lastRtt;
        rtPropStamp := now;
      }
    }

    method SaveCwnd(tcb: TcpSocketState)
      requires Valid()
      modifies this`priorCwnd
      ensures View(tcb) == AfterSsThreshQuery(old(View(tcb)))
    {
      if tcb.congState != Recovery && mode != ProbeRtt {
        priorCwnd := tcb.cWnd;
      } else {
        priorCwnd := Max(priorCwnd, tcb.cWnd);
      }
    }

    method RestoreCwnd(tcb: TcpSocketState)
      requires Valid()
      modifies tcb`cWnd
      ensures View(tcb) == old(View(tcb)).(t := RestoredCwnd(TheBbr(), old(TheTcb(tcb))))
    {
      tcb.cWnd := Max(priorCwnd, tcb.cWnd);
    }

    /** The three statements with which both callers leave PROBE_RTT. */
    method LeaveProbeRTT(tcb: TcpSocketState, now: nat, draw: Draw)
      requires Valid()
      modifies this`mode, this`pacingGain, this`cWndGain, this`cycleStamp, this`cycleIndex, this`trace,
          this`rtPropStamp, tcb`cWnd
      ensures View(tcb) == ExitedProbeRtt(Cfg(tcb), old(View(tcb)), now, draw)
    {
      rtPropStamp := now;
      RestoreCwnd(tcb);
      if isPipeFilled {
        EnterProbeBW(tcb, now, draw);
      } else {
        EnterStartup(tcb);
      }
    }

    method MarkAppLimited(tcb: TcpSocketState)
      requires Valid()
      modifies this`appLimited
      ensures View(tcb) == MarkedAppLimited(old(View(tcb)))
    {
      var totalBytes := delivered + tcb.bytesInFlight;
      appLimited := if totalBytes > 0 then totalBytes else 1;
    }

    method BeginDwell(tcb: TcpSocketState, now: nat)
      requires Valid()
      modifies this`probeRttDoneStamp, this`probeRttRoundDone, this`nextRoundDelivered
      ensures View(tcb) == DwellBegun(Cfg(tcb), old(View(tcb)), now)
    {
      ghost var s := View(tcb);
      probeRttDoneStamp := now + probeRttDuration;
      probeRttRoundDone := false;
      nextRoundDelivered := delivered;
    }

    method HandleProbeRTT(tcb: TcpSocketState, now: nat, draw: Draw)
      requires Valid()
      modifies this, tcb`cWnd
      ensures Valid() && View(tcb) == HandledProbeRtt(Cfg(tcb), old(View(tcb)), now, draw)
    {
      MarkAppLimited(tcb);
      if probeRttDoneStamp == 0 && tcb.bytesInFlight <= minPipeCwnd {
        BeginDwell(tcb, now);
      } else if probeRttDoneStamp != 0 {
        if roundStart {
          probeRttRoundDone := true;
        }
        if probeRttRoundDone && now > probeRttDoneStamp {
          LeaveProbeRTT(tcb, now, draw);
        }
      }
    }

    /** The three statements with which a stay in PROBE_RTT begins. */
    method BeginProbeRTT(tcb: TcpSocketState)
      requires Valid()
      modifies this`mode, this`pacingGain, this`cWndGain, this`trace, this`priorCwnd, this`probeRttDoneStamp
      ensures View(tcb) == ProbeBegun(old(View(tcb)))
    {
      EnterProbeRTT(tcb);
      SaveCwnd(tcb);
      probeRttDoneStamp := 0;
    }

    method CheckProbeRTT(tcb: TcpSocketState, rs: Sample, now: nat, draw: Draw)
      requires Valid()
      modifies this, tcb`cWnd
      ensures Valid() && View(tcb) == AfterProbeRtt(Cfg(tcb), old(View(tcb)), rs, now, draw)
    {
      if mode != ProbeRtt && rtPropExpired && !idleRestart {
        BeginProbeRTT(tcb);
      }
      if mode == ProbeRtt {
        HandleProbeRTT(tcb, now, draw);
      }
      if rs.delivered != 0 {
        idleRestart := false;
      }
    }

    /** The first half of `UpdateModelAndState`. */
    method UpdateModel(tcb: TcpSocketState, i: AckInput)
      requires Valid()
      modifies this, extraAcked
      ensures Valid() && View(tcb) == Measured(Cfg(tcb), old(View(tcb)), i)
    {
      UpdateBtlBw(i.rs, i.best);
      UpdateAckAggregation(tcb, i.rs, i.now);
      CheckCyclePhase(tcb, i.rs, i.now);
      CheckFullPipe(i.rs);
    }

    /** The second half of `UpdateModelAndState`. */
    method UpdateState(tcb: TcpSocketState, i: AckInput)
      requires Valid()
      modifies this, tcb`cWnd, tcb`ssThresh
      ensures Valid() && View(tcb) == Checked(Cfg(tcb), old(View(tcb)), i)
    {
      CheckDrain(tcb, i.now, i.draw);
      UpdateRTprop(tcb, i.now);
      CheckProbeRTT(tcb, i.rs, i.now, i.draw);
    }

    method UpdateModelAndState(tcb: TcpSocketState, i: AckInput)
      requires Valid()
      modifies this, extraAcked, tcb`cWnd, tcb`ssThresh
      ensures Valid() && View(tcb) == Checked(Cfg(tcb), Measured(Cfg(tcb), old(View(tcb)), i), i)
    {
      UpdateModel(tcb, i);
      UpdateState(tcb, i);
    }

    // Rate, quantum and window

    method InitPacingRate(tcb: TcpSocketState)
      requires Valid()
      modifies this`hasSeenRtt, this`maxBw, tcb`pacing, tcb`pacingRate
      ensures View(tcb) == InitedPacing(old(View(tcb)))
    {
      if !tcb.pacing {
        tcb.pacing := true;
      }
      var nominalBandwidth := SeedBandwidth(tcb);
      tcb.pacingRate := PacedRate(pacingGain, nominalBandwidth);
    }

    /** Starts the filter from the window and the minimum RTT, if there is one yet. */
    method SeedBandwidth(tcb: TcpSocketState) returns (nominalBandwidth: nat)
      requires Valid()
      modifies this`hasSeenRtt, this`maxBw
      ensures nominalBandwidth == NominalBandwidth(TheTcb(tcb))
      ensures TheBbr() == old(TheBbr()).(hasSeenRtt := old(hasSeenRtt) || tcb.minRtt != TIME_MAX,
                                         best := nominalBandwidth)
    {
      var rtt;
      if tcb.minRtt != TIME_MAX {
        rtt := Max(tcb.minRtt / 1_000_000, 1);
        hasSeenRtt := true;
      } else {
        rtt := 1;
      }
      nominalBandwidth := BitsPerSecond(tcb.cWnd, rtt);
      maxBw := nominalBandwidth;
    }

    method SetPacingRate(tcb: TcpSocketState, gain: real)
      requires Valid()
      modifies this`hasSeenRtt, this`maxBw, tcb`pacing, tcb`pacingRate
      ensures View(tcb) == AfterPacingRate(Cfg(tcb), old(View(tcb)), gain)
    {
      var rate := PacedRate(gain, maxBw);
      rate := Min(rate, tcb.maxPacingRate);
      if !hasSeenRtt && tcb.minRtt != TIME_MAX {
        InitPacingRate(tcb);
      }
      if isPipeFilled || rate > tcb.pacingRate {
        tcb.pacingRate := rate;
      }
    }

    method AckAggregationCwnd() returns (r: nat)
      requires Valid()
      ensures forall tcb :: r == AggregationCwnd(Cfg(tcb), TheBbr())
    {
      r := 0;
      if extraAckedGain != 0 && isPipeFilled {
        var maxAggrBytes := maxBw / (10 * 8);
        r := extraAckedGain * Max(extraAcked[0], extraAcked[1]);
        r := Min(r, maxAggrBytes);
      }
    }

    method UpdateTargetCwnd(tcb: TcpSocketState)
      requires Valid()
      modifies this`targetCWnd
      ensures TheBbr() == old(TheBbr()).(targetCWnd := TargetCwnd(Cfg(tcb), old(TheBbr())))
    {
      var aggregation := AckAggregationCwnd();
      targetCWnd := InFlight(Cfg(tcb), TheBbr(), cWndGain) + aggregation;
    }

    method ModulateCwndForRecovery(tcb: TcpSocketState, rs: Sample) returns (conserved: bool)
      requires Valid()
      modifies tcb`cWnd
      ensures conserved == packetConservation
      ensures var w := RecoveryCwnd(Cfg(tcb), old(TheTcb(tcb)), rs);
              tcb.cWnd == if packetConservation then Max(w, tcb.bytesInFlight + rs.ackedSacked) else w
    {
      if rs.bytesLoss > 0 {
        tcb.cWnd := Max(tcb.cWnd - rs.bytesLoss, tcb.segmentSize);
      }
      if packetConservation {
        tcb.cWnd := Max(tcb.cWnd, tcb.bytesInFlight + rs.ackedSacked);
        return true;
      }
      return false;
    }

    method GrowCwnd(tcb: TcpSocketState, rs: Sample)
      requires Valid()
      modifies this`targetCWnd, tcb`cWnd
      ensures TheBbr() == old(TheBbr()).(targetCWnd := TargetCwnd(Cfg(tcb), old(TheBbr())))
      ensures tcb.cWnd == GrownCwnd(Cfg(tcb), old(TheBbr()), old(tcb.cWnd), rs.ackedSacked)
    {
      UpdateTargetCwnd(tcb);
      if isPipeFilled {
        tcb.cWnd := Min(tcb.cWnd + rs.ackedSacked, targetCWnd);
      } else if tcb.cWnd < targetCWnd || delivered < tcb.initialCWnd * tcb.segmentSize {
        tcb.cWnd := tcb.cWnd + rs.ackedSacked;
      }
      tcb.cWnd := Max(tcb.cWnd, minPipeCwnd);
    }

    method SetCwnd(tcb: TcpSocketState, rs: Sample)
      requires Valid()
      modifies this`targetCWnd, tcb`cWnd
      ensures View(tcb) == AfterCwnd(Cfg(tcb), old(View(tcb)), rs)
    {
      if rs.ackedSacked != 0 {
        var done := false;
        if tcb.congState == Recovery {
          done := ModulateCwndForRecovery(tcb, rs);
        }
        if !done {
          GrowCwnd(tcb, rs);
        }
      }
      if mode == ProbeRtt {
        tcb.cWnd := Min(tcb.cWnd, minPipeCwnd);
      }
    }

    method UpdateControlParameters(tcb: TcpSocketState, rs: Sample)
      requires Valid()
      modifies this`hasSeenRtt, this`maxBw, this`sendQuantum, this`targetCWnd, tcb`pacing, tcb`pacingRate, tcb`cWnd
      ensures View(tcb) == AfterControl(Cfg(tcb), old(View(tcb)), rs)
    {
      SetPacingRate(tcb, pacingGain);
      sendQuantum := 1 * tcb.segmentSize;
      SetCwnd(tcb, rs);
    }

    method NoteConnection(tcb: TcpSocketState, rc: Connection)
      requires Valid()
      modifies this`appLimited, this`delivered, this`txItemDelivered
      ensures View(tcb) == WithConnection(old(View(tcb)), rc)
    {
      ghost var s := View(tcb);
      appLimited := rc.appLimited;
      delivered := rc.delivered;
      txItemDelivered := rc.txItemDelivered;
    }

    method CongControl(tcb: TcpSocketState, i: AckInput)
      requires Valid()
      modifies this, extraAcked, tcb
      ensures Valid() && View(tcb) == AfterCongControl(Cfg(tcb), old(View(tcb)), i)
    {
      NoteConnection(tcb, i.rc);
      UpdateModelAndState(tcb, i);
      UpdateControlParameters(tcb, i.rs);
    }

    // The other callbacks

    method InitRoundCounting()
      requires Valid()
      modifies this`nextRoundDelivered, this`roundStart, this`roundCount
      ensures TheBbr() == old(TheBbr()).(round := Round(0, false, 0))
    {
      nextRoundDelivered := 0;
      roundStart := false;
      roundCount := 0;
    }

    method InitFullPipe()
      requires Valid()
      modifies this`isPipeFilled, this`fullBandwidth, this`fullBandwidthCount
      ensures TheBbr() == old(TheBbr()).(pipe := Pipe(false, 0, 0))
    {
      isPipeFilled := false;
      fullBandwidth := 0;
      fullBandwidthCount := 0;
    }

    /** The reset of the ack-aggregation filter when a connection opens. */
    method InitAggregation(now: nat)
      requires Valid()
      modifies this`ackEpochTime, this`extraAckedWinRtt, this`extraAckedIdx, this`ackEpochAcked, extraAcked
      ensures Valid() && TheBbr() == old(TheBbr()).(agg := Aggregation(0, 0, 0, 0, now, 0))
    {
      ghost var b := TheBbr();
      ackEpochTime := now;
      extraAckedWinRtt := 0;
      extraAckedIdx := 0;
      ackEpochAcked := 0;
      extraAcked[0] := 0;
      extraAcked[1] := 0;
    }

    /** The estimates and limits when a connection opens. */
    method InitEstimates(tcb: TcpSocketState, now: nat)
      requires Valid()
      modifies this`rtProp, this`rtPropStamp, this`priorCwnd, this`targetCWnd, this`minPipeCwnd, this`sendQuantum,
          tcb`ssThresh
      ensures View(tcb) == InitedEstimates(Cfg(tcb), old(View(tcb)), now)
    {
      InitRtt(tcb, now);
      InitLimits(tcb);
    }

    method InitRtt(tcb: TcpSocketState, now: nat)
      requires Valid()
      modifies this`rtProp, this`rtPropStamp, this`priorCwnd
      ensures View(tcb) == InitedRtt(old(View(tcb)), now)
    {
      ghost var s := View(tcb);
      rtProp := tcb.lastRtt;
      rtPropStamp := now;
      priorCwnd := tcb.cWnd;
    }

    method InitLimits(tcb: TcpSocketState)
      requires Valid()
      modifies this`targetCWnd, this`minPipeCwnd, this`sendQuantum, tcb`ssThresh
      ensures View(tcb) == InitedLimits(Cfg(tcb), old(View(tcb)))
    {
      tcb.ssThresh := tcb.initialSsThresh;
      targetCWnd := tcb.cWnd;
      minPipeCwnd := 4 * tcb.segmentSize;
      sendQuantum := 1 * tcb.segmentSize;
    }

    /** The connection has opened for the first time. */
    method Initialize(tcb: TcpSocketState, now: nat)
      requires Valid()
      modifies this, extraAcked, tcb
      ensures Valid() && View(tcb) == Initialized(Cfg(tcb), old(View(tcb)), now)
    {
      InitCounting(tcb, now);
      InitSending(tcb, now);
    }

    method InitCounting(tcb: TcpSocketState, now: nat)
      requires Valid()
      modifies this, extraAcked, tcb
      ensures Valid() && View(tcb) == InitedCounting(Cfg(tcb), old(View(tcb)), now)
    {
      InitEstimates(tcb, now);
      InitRoundCounting();
      InitFullPipe();
    }

    method InitSending(tcb: TcpSocketState, now: nat)
      requires Valid()
      modifies this, extraAcked, tcb
      ensures Valid() && View(tcb) == InitedSending(Cfg(tcb), old(View(tcb)), now)
    {
      EnterStartup(tcb);
      InitPacingRate(tcb);
      InitAggregation(now);
      isInitialized := true;
    }

    method ConservePackets(tcb: TcpSocketState)
      requires Valid()
      modifies this`packetConservation, tcb`cWnd
      ensures View(tcb) == Conserved(Cfg(tcb), old(View(tcb)))
    {
      tcb.cWnd := tcb.bytesInFlight + Max(tcb.lastAckedSackedBytes, tcb.segmentSize);
      packetConservation := true;
    }

    method CongestionStateSet(tcb: TcpSocketState, newState: CongState, now: nat)
      requires Valid()
      modifies this, extraAcked, tcb
      ensures Valid() && View(tcb) == AfterStateSet(Cfg(tcb), old(View(tcb)), newState, now)
    {
      if newState == Open && !isInitialized {
        Initialize(tcb, now);
      } else if newState == Loss {
        SaveCwnd(tcb);
        roundStart := true;
      } else if newState == Recovery {
        SaveCwnd(tcb);
        ConservePackets(tcb);
      }
    }

    method StartEpoch(tcb: TcpSocketState, now: nat)
      requires Valid()
      modifies this`idleRestart, this`ackEpochTime, this`ackEpochAcked
      ensures View(tcb) == Idled(old(View(tcb)), now)
    {
      ghost var s := View(tcb);
      idleRestart := true;
      ackEpochTime := now;
      ackEpochAcked := 0;
    }

    method OnCwndEvent(tcb: TcpSocketState, event: CwndEvent, now: nat, draw: Draw)
      requires Valid()
      modifies this, tcb
      ensures Valid() && View(tcb) == AfterCwndEvent(Cfg(tcb), old(View(tcb)), event, now, draw)
    {
      if event == CompleteCwr {
        packetConservation := false;
        RestoreCwnd(tcb);
      } else if event == TxStart && appLimited != 0 {
        StartEpoch(tcb, now);
        if mode == ProbeBw {
          SetPacingRate(tcb, 1.0);
        } else if mode == ProbeRtt {
          if probeRttRoundDone && now > probeRttDoneStamp {
            LeaveProbeRTT(tcb, now, draw);
          }
        }
      }
    }

    method GetSsThresh(tcb: TcpSocketState) returns (ssThresh: nat)
      requires Valid()
      modifies this`priorCwnd
      ensures View(tcb) == AfterSsThreshQuery(old(View(tcb))) && ssThresh == tcb.ssThresh
    {
      SaveCwnd(tcb);
      return tcb.ssThresh;
    }
  }
}
