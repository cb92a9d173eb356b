/** The modes of BBR over whole runs: their gains, their order and the gain cycle. */
module BbrModes {
  import opened RateTypes
  import opened BbrModel
  import opened BbrRuns

  ghost predicate GainsMatch(cfg: Config, p: Phase) {
    match p.mode
    case Startup => p.pacingGain == cfg.highGain && p.cWndGain == cfg.highGain
    case Drain => p.pacingGain == 1.0 / cfg.highGain && p.cWndGain == cfg.highGain
    case ProbeBw =>
      && p.cycleIndex < 8 && p.cWndGain == 2.0
      && p.pacingGain == (if p.cycleIndex == 0 then 1.25 else if p.cycleIndex == 1 then 0.75 else 1.0)
    case ProbeRtt => p.pacingGain == 1.0 && p.cWndGain == 1.0
  }

  ghost predicate Probing(s: Sys) {
    s.b.phase.mode == ProbeRtt
  }

  /** A stay in PROBE_BW starts in phase 0 or in one of the phases from 3 on. */
  ghost predicate CycleStart(p: Phase) {
    p.cycleIndex == 0 || 3 <= p.cycleIndex < GAIN_CYCLE_LENGTH
  }

  /** The ways from one phase to the next. */
  ghost predicate Edge(p: Phase, q: Phase) {
    match q.mode
    case Startup => p.mode == ProbeRtt
    case Drain => p.mode == Startup
    case ProbeBw =>
      if p.mode == ProbeBw then q.cycleIndex == (p.cycleIndex + 1) % GAIN_CYCLE_LENGTH
      else p.mode != Startup && CycleStart(q)
    case ProbeRtt => p.mode != ProbeRtt
  }

  ghost predicate ValidTrace(cfg: Config, trace: seq<Phase>) {
    && trace != [] && trace[0].mode == Startup
    && (forall k :: 0 <= k < |trace| ==> GainsMatch(cfg, trace[k]))
    && (forall k :: 0 < k < |trace| ==> Edge(trace[k - 1], trace[k]))
  }

  ghost predicate ModeInv(cfg: Config, s: Sys) {
    && s.b.isInitialized
    && ValidTrace(cfg, s.trace) && s.b.phase == s.trace[|s.trace| - 1]
    && (s.b.phase.mode == Drain || s.b.phase.mode == ProbeBw ==> s.b.pipe.filled)
  }

  /** Steps that enter no phase and do not empty the pipe. */
  ghost predicate SameModes(s: Sys, s': Sys) {
    && s'.trace == s.trace && s'.b.phase == s.b.phase && s'.b.isInitialized == s.b.isInitialized
    && (s.b.pipe.filled ==> s'.b.pipe.filled)
  }

  lemma EnterKeeps(cfg: Config, s: Sys, p: Phase)
    requires ModeInv(cfg, s) && Edge(s.b.phase, p) && GainsMatch(cfg, p)
    requires p.mode == Drain || p.mode == ProbeBw ==> s.b.pipe.filled
    ensures ModeInv(cfg, Enter(s, p))
  {
  }

  lemma MeasuringKeepsModes(cfg: Config, s: Sys, i: AckInput)
    requires ModeInv(cfg, s)
    ensures ModeInv(cfg, AfterMeasuring(cfg, s, i))
  {
    var s0 := WithConnection(s, i.rc);
    BtlBwFrame(s0.b, i.rs, i.best);
    AggregationFrame(cfg, AfterBtlBw(s0.b, i.rs, i.best), i.rs, i.now, s.t.cWnd);
    var s1 := s0.(b := AfterAggregation(cfg, AfterBtlBw(s0.b, i.rs, i.best), i.rs, i.now, s.t.cWnd));
    assert SameModes(s, s1);
    CyclePhaseKeepsModes(cfg, s1, i.rs, i.now);
    FullPipeFrame(AfterCyclePhase(cfg, s1, i.rs, i.now).b, i.rs);
  }

  lemma CyclePhaseKeepsModes(cfg: Config, s: Sys, rs: Sample, now: nat)
    requires ModeInv(cfg, s)
    ensures ModeInv(cfg, AfterCyclePhase(cfg, s, rs, now))
  {
    if s.b.phase.mode == ProbeBw {
      EnterKeeps(cfg, s, AdvancedCycle(s.b.phase, now));
    }
  }

  lemma DrainKeepsModes(cfg: Config, s: Sys, now: nat, draw: Draw)
    requires ModeInv(cfg, s)
    ensures ModeInv(cfg, AfterDrain(cfg, s, now, draw))
  {
    var s1 := s;
    if s.b.phase.mode == Startup && s.b.pipe.filled {
      EnterKeeps(cfg, s, EnteredDrain(cfg, s.b.phase));
      var s0 := Enter(s, EnteredDrain(cfg, s.b.phase));
      s1 := s0.(t := s0.t.(ssThresh := InFlight(cfg, s0.b, 1.0)));
      assert ModeInv(cfg, s1);
    }
    if s1.b.phase.mode == Drain {
      EnterKeeps(cfg, s1, EnteredProbeBw(s1.b.phase, now, draw));
    }
  }

  lemma ExitKeepsModes(cfg: Config, s: Sys, now: nat, draw: Draw)
    requires ModeInv(cfg, s) && s.b.phase.mode == ProbeRtt
    ensures ModeInv(cfg, ExitedProbeRtt(cfg, s, now, draw))
  {
    var s1 := s.(b := s.b.(rtt := s.b.rtt.(stamp := now)), t := RestoredCwnd(s.b, s.t));
    assert ModeInv(cfg, s1);
    if s1.b.pipe.filled {
      EnterKeeps(cfg, s1, EnteredProbeBw(s1.b.phase, now, draw));
    } else {
      EnterKeeps(cfg, s1, EnteredStartup(cfg, s1.b.phase));
    }
  }

  lemma ProbeRttKeepsModes(cfg: Config, s: Sys, rs: Sample, now: nat, draw: Draw)
    requires ModeInv(cfg, s)
    ensures ModeInv(cfg, AfterProbeRtt(cfg, s, rs, now, draw))
  {
    var s1 := s;
    if s.b.phase.mode != ProbeRtt && s.b.rtt.expired && !s.b.idleRestart {
      EnterKeeps(cfg, s, EnteredProbeRtt(s.b.phase));
      s1 := ProbeBegun(s);
      assert ModeInv(cfg, s1);
    }
    if s1.b.phase.mode == ProbeRtt {
      HandlingKeepsModes(cfg, s1, now, draw);
    }
  }

  lemma HandlingKeepsModes(cfg: Config, s: Sys, now: nat, draw: Draw)
    requires ModeInv(cfg, s) && s.b.phase.mode == ProbeRtt
    ensures ModeInv(cfg, HandledProbeRtt(cfg, s, now, draw))
  {
    var s' := HandledProbeRtt(cfg, s, now, draw);
    if s'.trace != s.trace {
      var s1 := RoundNoted(MarkedAppLimited(s));
      assert SameModes(s, s1);
      ExitKeepsModes(cfg, s1, now, draw);
    }
  }

  lemma AckKeepsModes(cfg: Config, s: Sys, i: AckInput)
    requires ModeInv(cfg, s)
    ensures ModeInv(cfg, AfterCongControl(cfg, s, i))
  {
    MeasuringKeepsModes(cfg, s, i);
    var s1 := AfterMeasuring(cfg, s, i);
    DrainKeepsModes(cfg, s1, i.now, i.draw);
    var s2 := AfterDrain(cfg, s1, i.now, i.draw);
    assert SameModes(s2, AfterRtt(cfg, s2, i.now));
    ProbeRttKeepsModes(cfg, AfterRtt(cfg, s2, i.now), i.rs, i.now, i.draw);
    ControlFrame(cfg, AfterModel(cfg, s, i), i.rs);
  }

  lemma StepKeepsModes(cfg: Config, s: Sys, e: Event)
    requires ModeInv(cfg, s)
    ensures ModeInv(cfg, Step(cfg, s, e))
  {
    var s0 := Refreshed(s, e.net);
    assert ModeInv(cfg, s0);
    match e
    case AckReceived(_, i) => AckKeepsModes(cfg, s0, i);
    case TransmissionStarted(_, now, draw) =>
      var s1 := Idled(s0, now);
      assert ModeInv(cfg, s1);
      PacingFrame(cfg, s1, 1.0);
      if s1.b.phase.mode == ProbeRtt {
        ExitKeepsModes(cfg, s1, now, draw);
      }
    case _ => assert SameModes(s0, Step(cfg, s, e));
  }

  /**
   In every run the gains match the modes, the modes follow the allowed edges, and
   DRAIN and PROBE_BW mean a full pipe.
   */
  lemma {:induction false} RunKeepsModes(cfg: Config, states: seq<Sys>, events: seq<Event>, k: nat)
    requires IsRun(cfg, states, events) && k <= |events|
    ensures ModeInv(cfg, states[k])
  {
    if k > 0 {
      RunKeepsModes(cfg, states, events, k - 1);
      assert StepAt(cfg, states, events, k - 1);
      StepKeepsModes(cfg, states[k - 1], events[k - 1]);
    }
  }

  /** Every three-quarters phase directly follows a five-quarters phase of the same stay in PROBE_BW. */
  lemma ThreeQuartersFollowsFiveQuarters(cfg: Config, states: seq<Sys>, events: seq<Event>, k: nat)
    requires IsRun(cfg, states, events)
    ensures var trace := states[|events|].trace;
            k < |trace| && trace[k].mode == ProbeBw && trace[k].pacingGain == 0.75 ==>
              k > 0 && trace[k - 1].mode == ProbeBw && trace[k - 1].pacingGain == 1.25
  {
    RunKeepsModes(cfg, states, events, |events|);
    var trace := states[|events|].trace;
    if k < |trace| && trace[k].mode == ProbeBw && trace[k].pacingGain == 0.75 {
      assert trace[k].cycleIndex == 1;
      assert k > 0 && Edge(trace[k - 1], trace[k]);
    }
  }

  ghost function GainSum(trace: seq<Phase>): real {
    if trace == [] then 0.0 else GainSum(trace[..|trace| - 1]) + trace[|trace| - 1].pacingGain
  }

  /** n phases of the cycle from phase i on. */
  ghost function CycleSum(i: nat, n: nat): real {
    if n == 0 then 0.0 else CycleSum(i, n - 1) + CycleGain((i + n - 1) % GAIN_CYCLE_LENGTH)
  }

  lemma {:induction false} StayIndex(cfg: Config, trace: seq<Phase>, k: nat, n: nat)
    requires ValidTrace(cfg, trace) && k + n < |trace|
    requires forall j :: k <= j <= k + n ==> trace[j].mode == ProbeBw
    ensures trace[k + n].cycleIndex == (trace[k].cycleIndex + n) % GAIN_CYCLE_LENGTH
  {
    assert GainsMatch(cfg, trace[k]);
    if n > 0 {
      StayIndex(cfg, trace, k, n - 1);
      assert Edge(trace[k + n - 1], trace[k + n]);
    }
  }

  lemma {:induction false} StaySum(cfg: Config, trace: seq<Phase>, k: nat, n: nat)
    requires ValidTrace(cfg, trace) && k + n <= |trace|
    requires forall j :: k <= j < k + n ==> trace[j].mode == ProbeBw
    ensures n > 0 ==> GainSum(trace[k..k + n]) == CycleSum(trace[k].cycleIndex, n)
    ensures n == 0 ==> GainSum(trace[k..k + n]) == 0.0
  {
    if n > 0 {
      StaySum(cfg, trace, k, n - 1);
      StayIndex(cfg, trace, k, n - 1);
      assert trace[k..k + n][..n - 1] == trace[k..k + n - 1];
      assert GainsMatch(cfg, trace[k + n - 1]);
    }
  }

  lemma EightPhases(i: nat)
    requires i < GAIN_CYCLE_LENGTH
    ensures CycleSum(i, 8) == 8.0
  {
    assert CycleSum(i, 1) == CycleGain(i);
    assert CycleSum(i, 2) == CycleSum(i, 1) + CycleGain((i + 1) % 8);
    assert CycleSum(i, 3) == CycleSum(i, 2) + CycleGain((i + 2) % 8);
    assert CycleSum(i, 4) == CycleSum(i, 3) + CycleGain((i + 3) % 8);
    assert CycleSum(i, 5) == CycleSum(i, 4) + CycleGain((i + 4) % 8);
    assert CycleSum(i, 6) == CycleSum(i, 5) + CycleGain((i + 5) % 8);
    assert CycleSum(i, 7) == CycleSum(i, 6) + CycleGain((i + 6) % 8);
  }

  /** Any eight phases in a row of PROBE_BW pace at the estimated bandwidth on average. */
  lemma EightGainsAverageOne(cfg: Config, states: seq<Sys>, events: seq<Event>, k: nat)
    requires IsRun(cfg, states, events) && k + 8 <= |states[|events|].trace|
    requires forall j :: k <= j < k + 8 ==> states[|events|].trace[j].mode == ProbeBw
    ensures GainSum(states[|events|].trace[k..k + 8]) == 8.0
  {
    RunKeepsModes(cfg, states, events, |events|);
    var trace := states[|events|].trace;
    StaySum(cfg, trace, k, 8);
    EightPhases(trace[k].cycleIndex);
  }
}
