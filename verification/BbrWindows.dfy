/** The congestion window of BBR over whole runs: its bounds, and what is saved and restored. */
module BbrWindows {
  import opened Arithmetic
  import opened SocketState
  import opened RateTypes
  import opened BbrModel
  import opened BbrRuns
  import opened BbrModes

  // At least one segment

  ghost predicate WindowInv(cfg: Config, s: Sys) {
    && s.b.isInitialized
    && s.t.cWnd >= cfg.segmentSize && s.t.ssThresh >= cfg.segmentSize
    && s.b.minPipeCwnd == 4 * cfg.segmentSize && s.b.sendQuantum == cfg.segmentSize
  }

  lemma InFlightAtLeast(cfg: Config, b: Bbr, gain: real)
    requires cfg.initialCWnd >= 1 && b.sendQuantum == cfg.segmentSize
    ensures InFlight(cfg, b, gain) >= cfg.segmentSize
  {
    ProductMonotone(cfg.segmentSize, 1, cfg.initialCWnd);
  }

  lemma DrainKeepsWindow(cfg: Config, s: Sys, now: nat, draw: Draw)
    requires cfg.initialCWnd >= 1 && WindowInv(cfg, s)
    ensures WindowInv(cfg, AfterDrain(cfg, s, now, draw))
  {
    var s0 := Enter(s, EnteredDrain(cfg, s.b.phase));
    InFlightAtLeast(cfg, s0.b, 1.0);
  }

  lemma HandlingKeepsWindow(cfg: Config, s: Sys, now: nat, draw: Draw)
    requires WindowInv(cfg, s)
    ensures WindowInv(cfg, HandledProbeRtt(cfg, s, now, draw))
  {
  }

  lemma ProbeRttKeepsWindow(cfg: Config, s: Sys, rs: Sample, now: nat, draw: Draw)
    requires WindowInv(cfg, s)
    ensures WindowInv(cfg, AfterProbeRtt(cfg, s, rs, now, draw))
  {
    HandlingKeepsWindow(cfg, AfterProbeEntry(s), now, draw);
  }

  lemma ModelKeepsWindow(cfg: Config, s: Sys, i: AckInput)
    requires cfg.initialCWnd >= 1 && WindowInv(cfg, s)
    ensures WindowInv(cfg, AfterModel(cfg, s, i))
  {
    MeasuringFrame(cfg, s, i);
    var s1 := AfterMeasuring(cfg, s, i);
    DrainKeepsWindow(cfg, s1, i.now, i.draw);
    ProbeRttKeepsWindow(cfg, AfterRtt(cfg, AfterDrain(cfg, s1, i.now, i.draw), i.now), i.rs, i.now, i.draw);
  }

  lemma CwndKeepsWindow(cfg: Config, s: Sys, rs: Sample)
    requires WindowInv(cfg, s)
    ensures WindowInv(cfg, AfterCwnd(cfg, s, rs))
  {
  }

  lemma ControlKeepsWindow(cfg: Config, s: Sys, rs: Sample)
    requires WindowInv(cfg, s)
    ensures WindowInv(cfg, AfterControl(cfg, s, rs))
  {
    PacingFrame(cfg, s, s.b.phase.pacingGain);
    var s1 := AfterPacingRate(cfg, s, s.b.phase.pacingGain);
    CwndKeepsWindow(cfg, s1.(b := s1.b.(sendQuantum := cfg.segmentSize)), rs);
  }

  lemma StepKeepsWindow(cfg: Config, s: Sys, e: Event)
    requires cfg.initialCWnd >= 1 && WindowInv(cfg, s)
    ensures WindowInv(cfg, Step(cfg, s, e))
  {
    var s0 := Refreshed(s, e.net);
    match e
    case AckReceived(_, i) =>
      ModelKeepsWindow(cfg, s0, i);
      ControlKeepsWindow(cfg, AfterModel(cfg, s0, i), i.rs);
    case TransmissionStarted(_, now, _) => PacingFrame(cfg, Idled(s0, now), 1.0);
    case _ =>
  }

  lemma {:induction false} RunKeepsWindow(cfg: Config, states: seq<Sys>, events: seq<Event>, k: nat)
    requires IsRun(cfg, states, events) && k <= |events| && cfg.initialCWnd >= 1
        && cfg.initialSsThresh >= cfg.segmentSize
    ensures WindowInv(cfg, states[k])
  {
    if k == 0 {
      ProductMonotone(cfg.segmentSize, 1, cfg.initialCWnd);
    } else {
      RunKeepsWindow(cfg, states, events, k - 1);
      assert StepAt(cfg, states, events, k - 1);
      StepKeepsWindow(cfg, states[k - 1], events[k - 1]);
    }
  }

  /** The window stays at least one segment in all runs exactly if the initial window and the initial threshold are. */
  lemma WindowAtLeastSegmentIff(cfg: Config)
    ensures (forall states: seq<Sys>, events: seq<Event> :: IsRun(cfg, states, events) ==>
               states[|events|].t.cWnd >= cfg.segmentSize)
       <==> cfg.segmentSize == 0 || (cfg.initialCWnd >= 1 && cfg.initialSsThresh >= cfg.segmentSize)
  {
    if cfg.segmentSize == 0 {
    } else if cfg.initialCWnd == 0 {
      var states, events := JustOpen(cfg);
      assert states[|events|].t.cWnd < cfg.segmentSize;
    } else if cfg.initialSsThresh >= cfg.segmentSize {
      forall states: seq<Sys>, events: seq<Event> | IsRun(cfg, states, events)
        ensures states[|events|].t.cWnd >= cfg.segmentSize
      {
        RunKeepsWindow(cfg, states, events, |events|);
      }
    } else {
      var states, events := ShortRecovery(cfg);
      assert states[|events|].t.cWnd < cfg.segmentSize;
    }
  }

  lemma JustOpen(cfg: Config) returns (states: seq<Sys>, events: seq<Event>)
    ensures IsRun(cfg, states, events) && states[|events|].t.cWnd == cfg.initialCWnd * cfg.segmentSize
  {
    var t := Tcb(cfg.initialCWnd * cfg.segmentSize, 0, 0, Open, 1, 1, 0, true, 0);
    states, events := [Opened(cfg, t, 0)], [];
    assert WasOpened(cfg, states[0], events, t, 0);
  }

  /** A recovery that ends at once leaves the window at the threshold. */
  lemma ShortRecovery(cfg: Config) returns (states: seq<Sys>, events: seq<Event>)
    ensures IsRun(cfg, states, events) && states[|events|].t.cWnd == cfg.initialSsThresh
  {
    var net := Net(0, 1, 1, 0);
    var e0, e1, e2 := StateNoted(net, 0, Disorder), RecoveryEntered(net, 0), RecoveryLeft(net, 0, 0);
    var s0 := OpenedForRecovery(cfg);
    var s1 := Step(cfg, s0, e0);
    assert AtThreshold(cfg, s1);
    states, events := FirstStep(cfg, s0, e0, s1);
    var s2 := Step(cfg, s1, e1);
    assert AtThreshold(cfg, s2);
    states, events := OneMoreStep(cfg, states, events, e1, s2);
    states, events := OneMoreStep(cfg, states, events, e2, Step(cfg, s2, e2));
  }

  /** With the initial threshold, and an RTT of one tick. */
  ghost predicate AtThreshold(cfg: Config, s: Sys) {
    s.b.isInitialized && s.t.ssThresh == cfg.initialSsThresh && s.t.lastRtt == 1 && s.t.minRtt == 1
  }

  lemma OpenedForRecovery(cfg: Config) returns (s: Sys)
    ensures AtThreshold(cfg, s) && s.t.congState == Open && forall e: Event :: Starts(cfg, s, [e])
  {
    var t := Tcb(cfg.initialCWnd * cfg.segmentSize, 0, 0, Open, 1, 1, 0, true, 0);
    s := Opened(cfg, t, 0);
    assert forall e: Event :: WasOpened(cfg, s, [e], t, 0);
  }

  // Upper bounds

  /** Four segments are the floor of the window, and its cap in PROBE_RTT. */
  lemma StepKeepsFloor(cfg: Config, s: Sys, e: Event)
    requires s.b.isInitialized
    ensures Step(cfg, s, e).b.minPipeCwnd == s.b.minPipeCwnd
  {
    var s0 := Refreshed(s, e.net);
    match e
    case AckReceived(_, i) =>
      ModelKeepsFloor(cfg, s0, i);
      ControlFrame(cfg, AfterModel(cfg, s0, i), i.rs);
    case TransmissionStarted(_, now, _) => PacingFrame(cfg, Idled(s0, now), 1.0);
    case _ =>
  }

  lemma {:induction false} RunKeepsFloor(cfg: Config, states: seq<Sys>, events: seq<Event>, k: nat)
    requires IsRun(cfg, states, events) && k <= |events|
    ensures states[k].b.minPipeCwnd == 4 * cfg.segmentSize
  {
    if k > 0 {
      RunKeepsFloor(cfg, states, events, k - 1);
      RunKeepsModes(cfg, states, events, k - 1);
      assert StepAt(cfg, states, events, k - 1);
      StepKeepsFloor(cfg, states[k - 1], events[k - 1]);
    }
  }

  /**
   After every ACK: at most four segments in PROBE_RTT; with a full pipe and
   outside packet conservation an ACK of new data leaves at most the target,
   or four segments; outside PROBE_RTT it leaves at least four segments.
   */
  lemma AckBoundsWindow(cfg: Config, states: seq<Sys>, events: seq<Event>, net: Net, i: AckInput)
    requires IsRun(cfg, states, events)
    ensures var s := states[|events|];
            var s' := Step(cfg, s, AckReceived(net, i));
            var four := 4 * cfg.segmentSize;
            && (s'.b.phase.mode == ProbeRtt ==> s'.t.cWnd <= four)
            && (i.rs.ackedSacked > 0 && !Conserving(s') ==>
                  && (s'.b.pipe.filled ==> s'.t.cWnd <= Max(s'.b.targetCWnd, four))
                  && (s'.b.phase.mode != ProbeRtt ==> s'.t.cWnd >= four))
  {
    RunKeepsModes(cfg, states, events, |events|);
    RunKeepsFloor(cfg, states, events, |events|);
    var s0 := Refreshed(states[|events|], net);
    ModelKeepsFloor(cfg, s0, i);
    var s1 := AfterModel(cfg, s0, i);
    PacingFrame(cfg, s1, s1.b.phase.pacingGain);
    var s2 := AfterPacingRate(cfg, s1, s1.b.phase.pacingGain);
    CwndBounds(cfg, s2.(b := s2.b.(sendQuantum := cfg.segmentSize)), i.rs);
  }

  lemma ModelKeepsFloor(cfg: Config, s: Sys, i: AckInput)
    ensures AfterModel(cfg, s, i).b.minPipeCwnd == s.b.minPipeCwnd
  {
    MeasuringFrame(cfg, s, i);
    var s1 := AfterMeasuring(cfg, s, i);
    DrainFrame(cfg, s1, i.now, i.draw);
    ProbeRttFrame(cfg, AfterRtt(cfg, AfterDrain(cfg, s1, i.now, i.draw), i.now), i.rs, i.now, i.draw);
  }

  lemma CwndBounds(cfg: Config, s: Sys, rs: Sample)
    requires s.b.minPipeCwnd == 4 * cfg.segmentSize
    ensures var s' := AfterCwnd(cfg, s, rs);
            var four := 4 * cfg.segmentSize;
            && (s'.b.phase.mode == ProbeRtt ==> s'.t.cWnd <= four)
            && (rs.ackedSacked > 0 && !Conserving(s') ==>
                  && (s'.b.pipe.filled ==> s'.t.cWnd <= Max(s'.b.targetCWnd, four))
                  && (s'.b.phase.mode != ProbeRtt ==> s'.t.cWnd >= four))
  {
  }

  // Save and restore

  /** While BBR probes the RTT or the socket recovers, the saved window only grows. */
  ghost predicate Protected(s: Sys) {
    s.b.phase.mode == ProbeRtt || s.t.congState == Recovery
  }

  /** What probing does to the saved window: entering covers the window, leaving restores the saved one. */
  lemma ProbeRttSaves(cfg: Config, s: Sys, rs: Sample, now: nat, draw: Draw)
    ensures var s' := AfterProbeRtt(cfg, s, rs, now, draw);
            && s'.b.priorCwnd >= s.b.priorCwnd
            && (s.b.phase.mode != ProbeRtt && s'.b.phase.mode == ProbeRtt ==> s'.b.priorCwnd >= s.t.cWnd)
            && (s.b.phase.mode == ProbeRtt && s'.b.phase.mode != ProbeRtt ==> s'.t.cWnd >= s.b.priorCwnd)
  {
    HandlingSaves(cfg, AfterProbeEntry(s), now, draw);
  }

  lemma HandlingSaves(cfg: Config, s: Sys, now: nat, draw: Draw)
    ensures var s' := HandledProbeRtt(cfg, s, now, draw);
            && s'.b.priorCwnd == s.b.priorCwnd
            && (s'.b.phase.mode != ProbeRtt ==> s'.b.phase == s.b.phase || s'.t.cWnd >= s.b.priorCwnd)
  {
  }

  lemma AckSaves(cfg: Config, s: Sys, i: AckInput)
    ensures var s1, s' := AfterModel(cfg, s, i), AfterCongControl(cfg, s, i);
            && s'.b.priorCwnd == s1.b.priorCwnd >= s.b.priorCwnd && s'.b.phase.mode == s1.b.phase.mode
            && (s.b.phase.mode != ProbeRtt && s'.b.phase.mode == ProbeRtt ==> s'.b.priorCwnd >= s.t.cWnd)
            && (s.b.phase.mode == ProbeRtt && s'.b.phase.mode != ProbeRtt ==> s1.t.cWnd >= s.b.priorCwnd)
  {
    MeasuringFrame(cfg, s, i);
    var s1 := AfterMeasuring(cfg, s, i);
    DrainFrame(cfg, s1, i.now, i.draw);
    ProbeRttSaves(cfg, AfterRtt(cfg, AfterDrain(cfg, s1, i.now, i.draw), i.now), i.rs, i.now, i.draw);
    ControlFrame(cfg, AfterModel(cfg, s, i), i.rs);
  }

  lemma StepSaves(cfg: Config, s: Sys, e: Event)
    requires s.b.isInitialized && Possible(s, e) && Protected(s)
    ensures Step(cfg, s, e).b.priorCwnd >= s.b.priorCwnd
  {
    var s0 := Refreshed(s, e.net);
    match e
    case AckReceived(_, i) => AckSaves(cfg, s0, i);
    case TransmissionStarted(_, now, _) => PacingFrame(cfg, Idled(s0, now), 1.0);
    case _ =>
  }

  lemma {:induction false} PriorMonotone(cfg: Config, states: seq<Sys>, events: seq<Event>, i: nat, j: nat)
    requires IsRun(cfg, states, events) && i <= j <= |events| && forall k :: i <= k < j ==> Protected(states[k])
    ensures states[i].b.priorCwnd <= states[j].b.priorCwnd
    decreases j
  {
    if i < j {
      PriorMonotone(cfg, states, events, i, j - 1);
      RunKeepsModes(cfg, states, events, j - 1);
      assert StepAt(cfg, states, events, j - 1);
      StepSaves(cfg, states[j - 1], events[j - 1]);
    }
  }

  /** The window at the point of an event where BBR has restored it. */
  function RestoredBy(cfg: Config, s: Sys, e: Event): nat {
    var s0 := Refreshed(s, e.net);
    match e
    case AckReceived(_, i) => AfterModel(cfg, s0, i).t.cWnd
    case RecoveryLeft(_, now, draw) => AfterCwndEvent(cfg, s0, CompleteCwr, now, draw).t.cWnd
    case _ => Step(cfg, s, e).t.cWnd
  }

  lemma EntryCovers(cfg: Config, s: Sys, e: Event)
    requires s.b.isInitialized && Possible(s, e)
    requires e.RecoveryEntered? || (s.b.phase.mode != ProbeRtt && Step(cfg, s, e).b.phase.mode == ProbeRtt)
    ensures Step(cfg, s, e).b.priorCwnd >= s.t.cWnd
  {
    var s0 := Refreshed(s, e.net);
    match e
    case AckReceived(_, i) => AckSaves(cfg, s0, i);
    case TransmissionStarted(_, now, _) => PacingFrame(cfg, Idled(s0, now), 1.0);
    case _ =>
  }

  lemma ExitRestores(cfg: Config, s: Sys, e: Event)
    requires s.b.isInitialized && Possible(s, e)
    requires e.RecoveryLeft? || (s.b.phase.mode == ProbeRtt && Step(cfg, s, e).b.phase.mode != ProbeRtt)
    ensures RestoredBy(cfg, s, e) >= s.b.priorCwnd
  {
    var s0 := Refreshed(s, e.net);
    match e
    case AckReceived(_, i) => AckSaves(cfg, s0, i);
    case TransmissionStarted(_, now, _) => PacingFrame(cfg, Idled(s0, now), 1.0);
    case _ =>
  }

  /**
   A stay in PROBE_RTT from event i to event j, with any losses, recoveries
   and timeouts in between, ends with the window restored to at least what it
   was when the stay began.
   */
  lemma ProbeRttRestoresWindow(cfg: Config, states: seq<Sys>, events: seq<Event>, i: nat, j: nat)
    requires IsRun(cfg, states, events)
    requires i < j < |events| && states[i].b.phase.mode != ProbeRtt && states[j + 1].b.phase.mode != ProbeRtt
    requires forall k :: i < k <= j ==> states[k].b.phase.mode == ProbeRtt
    ensures RestoredBy(cfg, states[j], events[j]) >= states[i].t.cWnd
  {
    StayRestores(cfg, states, events, i, j);
  }

  /**
   The same for a recovery from its entry to its regular end, where the socket then
   overwrites the window by the threshold.
   */
  lemma RecoveryRestoresWindow(cfg: Config, states: seq<Sys>, events: seq<Event>, i: nat, j: nat)
    requires IsRun(cfg, states, events)
    requires i < j < |events| && events[i].RecoveryEntered? && events[j].RecoveryLeft?
    requires forall k :: i < k <= j ==> states[k].t.congState == Recovery
    ensures RestoredBy(cfg, states[j], events[j]) >= states[i].t.cWnd
    ensures states[j + 1].t.cWnd == states[j].t.ssThresh
  {
    StayRestores(cfg, states, events, i, j);
    RunKeepsModes(cfg, states, events, j);
    assert StepAt(cfg, states, events, j);
  }

  lemma StayRestores(cfg: Config, states: seq<Sys>, events: seq<Event>, i: nat, j: nat)
    requires IsRun(cfg, states, events)
    requires i < j < |events| && forall k :: i < k <= j ==> Protected(states[k])
    requires events[i].RecoveryEntered?
          || (states[i].b.phase.mode != ProbeRtt && states[i + 1].b.phase.mode == ProbeRtt)
    requires events[j].RecoveryLeft? || (states[j].b.phase.mode == ProbeRtt && states[j + 1].b.phase.mode != ProbeRtt)
    ensures RestoredBy(cfg, states[j], events[j]) >= states[i].t.cWnd
  {
    RunKeepsModes(cfg, states, events, i);
    assert StepAt(cfg, states, events, i);
    EntryCovers(cfg, states[i], events[i]);
    PriorMonotone(cfg, states, events, i + 1, j);
    RunKeepsModes(cfg, states, events, j);
    assert StepAt(cfg, states, events, j);
    ExitRestores(cfg, states[j], events[j]);
  }
}
