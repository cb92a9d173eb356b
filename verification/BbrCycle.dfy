/** When BBR drains the pipe, and how long the phases of the gain cycle last, over whole runs. */
module BbrCycle {
  import opened RateTypes
  import opened BbrModel
  import opened BbrRuns
  import opened BbrModes
  import opened BbrRounds

  /** The state in which an ACK meets CheckDrain, the gain cycle checked. */
  ghost function MeasuredBy(cfg: Config, s: Sys, e: Event): Sys
    requires e.AckReceived?
  {
    AfterMeasuring(cfg, Refreshed(s, e.net), e.i)
  }

  /** The data in flight for a gain with the bandwidth after the ACK and the RTT estimate before it. */
  ghost function Needed(cfg: Config, s: Sys, e: Event, gain: real): nat
    requires e.AckReceived?
  {
    InFlight(cfg, s.b.(best := MeasuredBy(cfg, s, e).b.best), gain)
  }

  // The phases of the cycle

  ghost predicate Advances(cfg: Config, s: Sys, e: Event) {
    e.AckReceived? && MeasuredBy(cfg, s, e).trace != s.trace
  }

  /** The phase has lasted longer than the estimated RTT. */
  ghost predicate FullLength(s: Sys, e: Event) {
    e.At() - s.b.phase.cycleStamp > s.b.rtt.rtProp
  }

  /**
   When a phase ends: the one that probes for bandwidth after an RTT, once there
   are losses or its data is in flight; the next, which drains, after an RTT
   or as soon as no more than the pipe's data is; all others after an RTT.
   */
  ghost predicate EndsNow(cfg: Config, s: Sys, e: Event)
    requires e.AckReceived?
  {
    var rs := e.i.rs;
    if s.b.phase.cycleIndex == 0 then
      FullLength(s, e) && (rs.bytesLoss > 0 || rs.priorInFlight >= Needed(cfg, s, e, 1.25))
    else if s.b.phase.cycleIndex == 1 then FullLength(s, e) || rs.priorInFlight <= Needed(cfg, s, e, 1.0)
    else FullLength(s, e)
  }

  lemma BeforeCycle(cfg: Config, s: Sys, i: AckInput)
    ensures var s0 := WithConnection(s, i.rc);
            var b := AfterAggregation(cfg, AfterBtlBw(s0.b, i.rs, i.best), i.rs, i.now, s.t.cWnd);
            && b.phase == s.b.phase && b.rtt == s.b.rtt && b.sendQuantum == s.b.sendQuantum
            && b.best == AfterMeasuring(cfg, s, i).b.best
  {
    var s0 := WithConnection(s, i.rc);
    BtlBwFrame(s0.b, i.rs, i.best);
    AggregationFrame(cfg, AfterBtlBw(s0.b, i.rs, i.best), i.rs, i.now, s.t.cWnd);
    MeasuringRound(cfg, s, i);
  }

  /** What the data in flight depends on. */
  lemma SameInFlight(cfg: Config, b: Bbr, b': Bbr, gain: real)
    requires b'.best == b.best && b'.rtt.rtProp == b.rtt.rtProp && b'.sendQuantum == b.sendQuantum
    requires b'.phase.cycleIndex == b.phase.cycleIndex && (b'.phase.mode == ProbeBw <==> b.phase.mode == ProbeBw)
    ensures InFlight(cfg, b', gain) == InFlight(cfg, b, gain)
  {
    assert Bdp(b') == Bdp(b);
  }

  lemma StepAdvances(cfg: Config, s: Sys, e: Event)
    requires e.AckReceived? && s.b.phase.mode == ProbeBw && GainsMatch(cfg, s.b.phase)
    ensures Advances(cfg, s, e) <==> EndsNow(cfg, s, e)
    ensures Advances(cfg, s, e) ==>
              var p, q := s.b.phase, MeasuredBy(cfg, s, e).b.phase;
              q.mode == ProbeBw && q.cycleIndex == (p.cycleIndex + 1) % 8 && q.cycleStamp == e.At()
  {
    var s0, i := Refreshed(s, e.net), e.i;
    BeforeCycle(cfg, s0, i);
    var b := AfterAggregation(cfg, AfterBtlBw(WithConnection(s0, i.rc).b, i.rs, i.best), i.rs, i.now, s.t.cWnd);
    SameInFlight(cfg, s.b.(best := MeasuredBy(cfg, s, e).b.best), b, 1.25);
    SameInFlight(cfg, s.b.(best := MeasuredBy(cfg, s, e).b.best), b, 1.0);
    CycleIff(cfg, WithConnection(s0, i.rc).(b := b), i.rs, i.now);
    FullPipeFrame(AfterCyclePhase(cfg, WithConnection(s0, i.rc).(b := b), i.rs, i.now).b, i.rs);
  }

  lemma CycleIff(cfg: Config, s: Sys, rs: Sample, now: nat)
    requires s.b.phase.mode == ProbeBw && GainsMatch(cfg, s.b.phase)
    ensures var s' := AfterCyclePhase(cfg, s, rs, now);
            var full := now - s.b.phase.cycleStamp > s.b.rtt.rtProp;
            var ends := if s.b.phase.cycleIndex == 0 then
                          full && (rs.bytesLoss > 0 || rs.priorInFlight >= InFlight(cfg, s.b, 1.25))
                        else if s.b.phase.cycleIndex == 1 then full || rs.priorInFlight <= InFlight(cfg, s.b, 1.0)
                        else full;
            && (s'.trace != s.trace <==> ends)
            && (ends ==> s'.b.phase.mode == ProbeBw && s'.b.phase.cycleIndex == (s.b.phase.cycleIndex + 1) % 8
                         && s'.b.phase.cycleStamp == now)
  {
  }

  // Where phases of PROBE_BW come from

  function DrawOf(e: Event): Draw {
    match e
    case AckReceived(_, i) => i.draw
    case TransmissionStarted(_, _, draw) => draw
    case _ => 0
  }

  /**
   A phase of PROBE_BW is the one of before, or is stamped now: the next of its
   stay, or the first, counted down from the end of the cycle by the draw.
   */
  ghost predicate PhaseMoves(s: Sys, s': Sys, now: nat, draw: Draw) {
    var p, q := s.b.phase, s'.b.phase;
    q.mode == ProbeBw && q != p ==>
      q.cycleStamp == now && q.cycleIndex == if p.mode == ProbeBw then (p.cycleIndex + 1) % 8 else (8 - draw) % 8
  }

  lemma MeasuredMoves(cfg: Config, s: Sys, e: Event)
    requires e.AckReceived?
    ensures PhaseMoves(s, MeasuredBy(cfg, s, e), e.At(), DrawOf(e))
  {
    var s0, i := Refreshed(s, e.net), e.i;
    BeforeCycle(cfg, s0, i);
    var b := AfterAggregation(cfg, AfterBtlBw(WithConnection(s0, i.rc).b, i.rs, i.best), i.rs, i.now, s.t.cWnd);
    FullPipeFrame(AfterCyclePhase(cfg, WithConnection(s0, i.rc).(b := b), i.rs, i.now).b, i.rs);
  }

  lemma DrainMoves(cfg: Config, s: Sys, now: nat, draw: Draw)
    ensures PhaseMoves(s, AfterDrain(cfg, s, now, draw), now, draw)
    ensures s.b.phase.mode == ProbeBw ==> AfterDrain(cfg, s, now, draw) == s
  {
  }

  lemma ProbingMoves(cfg: Config, s: Sys, rs: Sample, now: nat, draw: Draw)
    ensures PhaseMoves(s, AfterProbeRtt(cfg, s, rs, now, draw), now, draw)
    ensures s.b.phase.mode == ProbeBw ==>
              var q := AfterProbeRtt(cfg, s, rs, now, draw).b.phase; q == s.b.phase || q.mode != ProbeBw
  {
    var s1 := AfterProbeEntry(s);
    if s1.b.phase.mode == ProbeRtt {
      HandlingMoves(cfg, s1, now, draw);
      if s1.b.phase != s.b.phase {
        assert s1.b.probe.doneStamp == 0;
      }
    }
  }

  lemma HandlingMoves(cfg: Config, s: Sys, now: nat, draw: Draw)
    requires s.b.phase.mode == ProbeRtt
    ensures PhaseMoves(s, HandledProbeRtt(cfg, s, now, draw), now, draw)
    ensures s.b.probe.doneStamp == 0 ==> HandledProbeRtt(cfg, s, now, draw).b.phase == s.b.phase
  {
  }

  lemma AckPhase(cfg: Config, s: Sys, e: Event)
    requires e.AckReceived?
    ensures PhaseMoves(s, AfterCongControl(cfg, Refreshed(s, e.net), e.i), e.At(), DrawOf(e))
  {
    var s0, i := Refreshed(s, e.net), e.i;
    MeasuredMoves(cfg, s, e);
    MeasuringFrame(cfg, s0, i);
    var s1 := MeasuredBy(cfg, s, e);
    DrainMoves(cfg, s1, i.now, i.draw);
    var s2 := AfterRtt(cfg, AfterDrain(cfg, s1, i.now, i.draw), i.now);
    ProbingMoves(cfg, s2, i.rs, i.now, i.draw);
    ControlFrame(cfg, AfterModel(cfg, s0, i), i.rs);
  }

  lemma StepPhase(cfg: Config, s: Sys, e: Event)
    requires s.b.isInitialized
    ensures PhaseMoves(s, Step(cfg, s, e), e.At(), DrawOf(e))
  {
    match e
    case AckReceived(_, _) => AckPhase(cfg, s, e);
    case TransmissionStarted(net, now, _) => PacingFrame(cfg, Idled(Refreshed(s, net), now), 1.0);
    case _ =>
  }

  lemma PhaseAt(cfg: Config, states: seq<Sys>, events: seq<Event>, k: nat)
    requires IsRun(cfg, states, events) && k < |events|
    ensures PhaseMoves(states[k], states[k + 1], events[k].At(), DrawOf(events[k]))
  {
    RunKeepsModes(cfg, states, events, k);
    assert StepAt(cfg, states, events, k);
    StepPhase(cfg, states[k], events[k]);
  }

  /** A phase of PROBE_BW is stamped with the time of the event m that entered it. */
  lemma {:induction false} StampIs(cfg: Config, states: seq<Sys>, events: seq<Event>, k: nat) returns (m: nat)
    requires IsRun(cfg, states, events) && k <= |events| && states[k].b.phase.mode == ProbeBw
    ensures m < k && states[k].b.phase.cycleStamp == events[m].At() && states[m].b.phase != states[m + 1].b.phase
    ensures forall j :: m < j <= k ==> states[j].b.phase == states[k].b.phase
  {
    RunKeepsModes(cfg, states, events, k);
    if k == 0 {
      StartsInStartup(cfg, states, events);
      assert false;
    } else {
      PhaseAt(cfg, states, events, k - 1);
      if states[k].b.phase == states[k - 1].b.phase {
        m := StampIs(cfg, states, events, k - 1);
      } else {
        m := k - 1;
      }
    }
  }

  lemma StartsInStartup(cfg: Config, states: seq<Sys>, events: seq<Event>)
    requires IsRun(cfg, states, events)
    ensures states[0].b.phase.mode == Startup
  {
  }

  /**
   In every run a phase of the cycle ends exactly by that rule; one that does
   not drain lasts longer than the estimated RTT from the event that entered it.
   */
  lemma PhasesLast(cfg: Config, states: seq<Sys>, events: seq<Event>, k: nat) returns (m: nat)
    requires IsRun(cfg, states, events) && k < |events| && events[k].AckReceived?
    requires states[k].b.phase.mode == ProbeBw
    ensures Advances(cfg, states[k], events[k]) <==> EndsNow(cfg, states[k], events[k])
    ensures m < k && states[m].b.phase != states[m + 1].b.phase == states[k].b.phase
    ensures Advances(cfg, states[k], events[k]) && states[k].b.phase.pacingGain >= 1.0 ==>
              events[k].At() > events[m].At() + states[k].b.rtt.rtProp
  {
    m := StampIs(cfg, states, events, k);
    RunKeepsModes(cfg, states, events, k);
    assert StepAt(cfg, states, events, k);
    StepAdvances(cfg, states[k], events[k]);
  }

  /** A stay in PROBE_BW starts where the draw of its event says, each of six phases for one draw. */
  lemma StartIsDrawn(cfg: Config, states: seq<Sys>, events: seq<Event>, k: nat)
    requires IsRun(cfg, states, events) && k < |events|
    requires states[k].b.phase.mode != ProbeBw && states[k + 1].b.phase.mode == ProbeBw
    ensures states[k + 1].b.phase.cycleIndex == (8 - DrawOf(events[k])) % 8
  {
    PhaseAt(cfg, states, events, k);
  }

  // Draining

  /** An ACK that finds, or declares, the pipe full in STARTUP, or comes in DRAIN. */
  ghost predicate Drains(cfg: Config, s: Sys, e: Event) {
    e.AckReceived? && ((s.b.phase.mode == Startup && MeasuredBy(cfg, s, e).b.pipe.filled) || s.b.phase.mode == Drain)
  }

  /** It leads to PROBE_BW if no more than the pipe's data is in flight, else to DRAIN; PROBE_RTT may come after it. */
  ghost predicate DrainedTo(cfg: Config, s: Sys, e: Event, mode: Mode)
    requires e.AckReceived?
  {
    || mode == ProbeRtt
    || mode == if !Drains(cfg, s, e) then s.b.phase.mode
               else if e.net.bytesInFlight <= Needed(cfg, s, e, 1.0) then ProbeBw
               else Drain
  }

  lemma DrainIs(cfg: Config, s: Sys, e: Event)
    requires e.AckReceived? && (s.b.phase.mode == Startup || s.b.phase.mode == Drain)
    ensures var s' := AfterDrain(cfg, MeasuredBy(cfg, s, e), e.At(), DrawOf(e));
            && s'.b.phase.mode != ProbeRtt && DrainedTo(cfg, s, e, s'.b.phase.mode)
            && s'.t.ssThresh == if s.b.phase.mode == Startup && Drains(cfg, s, e) then Needed(cfg, s, e, 1.0)
                                else s.t.ssThresh
  {
    var s0 := Refreshed(s, e.net);
    MeasuringFrame(cfg, s0, e.i);
    BeforeCycle(cfg, s0, e.i);
    var s1 := MeasuredBy(cfg, s, e);
    var s2 := Enter(s1, EnteredDrain(cfg, s1.b.phase));
    StaysPut(cfg, s, e);
    SameInFlight(cfg, s.b.(best := s1.b.best), s1.b, 1.0);
    SameInFlight(cfg, s.b.(best := s1.b.best), s2.b, 1.0);
  }

  lemma StaysPut(cfg: Config, s: Sys, e: Event)
    requires e.AckReceived? && s.b.phase.mode != ProbeBw
    ensures MeasuredBy(cfg, s, e).b.phase == s.b.phase
  {
    var s0, i := Refreshed(s, e.net), e.i;
    BeforeCycle(cfg, s0, i);
    var b := AfterAggregation(cfg, AfterBtlBw(WithConnection(s0, i.rc).b, i.rs, i.best), i.rs, i.now, s.t.cWnd);
    FullPipeFrame(AfterCyclePhase(cfg, WithConnection(s0, i.rc).(b := b), i.rs, i.now).b, i.rs);
  }

  lemma ProbingFromOther(cfg: Config, s: Sys, rs: Sample, now: nat, draw: Draw)
    requires s.b.phase.mode != ProbeRtt
    ensures var p := AfterProbeRtt(cfg, s, rs, now, draw).b.phase; p == s.b.phase || p.mode == ProbeRtt
  {
    var s1 := AfterProbeEntry(s);
    if s1.b.phase.mode == ProbeRtt {
      HandlingMoves(cfg, s1, now, draw);
    }
  }

  lemma AckDrains(cfg: Config, s: Sys, e: Event)
    requires e.AckReceived? && (s.b.phase.mode == Startup || s.b.phase.mode == Drain)
    ensures var s' := AfterCongControl(cfg, Refreshed(s, e.net), e.i);
            && DrainedTo(cfg, s, e, s'.b.phase.mode)
            && s'.t.ssThresh == if s.b.phase.mode == Startup && Drains(cfg, s, e) then Needed(cfg, s, e, 1.0)
                                else s.t.ssThresh
  {
    var s0, i := Refreshed(s, e.net), e.i;
    DrainIs(cfg, s, e);
    var s2 := AfterRtt(cfg, AfterDrain(cfg, MeasuredBy(cfg, s, e), i.now, i.draw), i.now);
    ProbingFromOther(cfg, s2, i.rs, i.now, i.draw);
    ProbeRttFrame(cfg, s2, i.rs, i.now, i.draw);
    ControlFrame(cfg, AfterModel(cfg, s0, i), i.rs);
  }

  /** In every run an ACK in STARTUP or DRAIN does this; the end of start-up sets the threshold to the pipe's data. */
  lemma DrainsInRun(cfg: Config, states: seq<Sys>, events: seq<Event>, k: nat)
    requires IsRun(cfg, states, events) && k < |events| && events[k].AckReceived?
    requires states[k].b.phase.mode == Startup || states[k].b.phase.mode == Drain
    ensures DrainedTo(cfg, states[k], events[k], states[k + 1].b.phase.mode)
    ensures states[k + 1].t.ssThresh
         == if states[k].b.phase.mode == Startup && Drains(cfg, states[k], events[k])
            then Needed(cfg, states[k], events[k], 1.0) else states[k].t.ssThresh
  {
    assert StepAt(cfg, states, events, k);
    AckDrains(cfg, states[k], events[k]);
  }

  /** Nothing else changes the threshold. */
  lemma ThresholdStays(cfg: Config, states: seq<Sys>, events: seq<Event>, k: nat)
    requires IsRun(cfg, states, events) && k < |events|
    requires events[k].AckReceived? ==> states[k].b.phase.mode == ProbeBw || Probing(states[k])
    ensures states[k + 1].t.ssThresh == states[k].t.ssThresh
  {
    RunKeepsModes(cfg, states, events, k);
    assert StepAt(cfg, states, events, k);
    StepKeepsThreshold(cfg, states[k], events[k]);
  }

  lemma StepKeepsThreshold(cfg: Config, s: Sys, e: Event)
    requires s.b.isInitialized && (e.AckReceived? ==> s.b.phase.mode == ProbeBw || Probing(s))
    ensures Step(cfg, s, e).t.ssThresh == s.t.ssThresh
  {
    var s0 := Refreshed(s, e.net);
    match e
    case AckReceived(_, i) =>
      MeasuringFrame(cfg, s0, i);
      var s2 := AfterRtt(cfg, AfterDrain(cfg, MeasuredBy(cfg, s, e), i.now, i.draw), i.now);
      ProbeRttFrame(cfg, s2, i.rs, i.now, i.draw);
      ControlFrame(cfg, AfterModel(cfg, s0, i), i.rs);
    case TransmissionStarted(_, now, _) => PacingFrame(cfg, Idled(s0, now), 1.0);
    case _ =>
  }
}
