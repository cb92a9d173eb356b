/**
 Runs of BBR: the socket's calls in any order that its congestion states
 allow, with whatever the network makes of the values in between.
 */
module BbrRuns {
  import opened Arithmetic
  import opened SocketState
  import opened RateTypes
  import opened BbrModel

  /** What the socket refreshes before it calls back. */
  datatype Net = Net(bytesInFlight: nat, lastRtt: nat, minRtt: nat, lastAckedSackedBytes: nat)

  /**
   The socket's calls.  Each event is the group of callbacks and window
   writes that the socket makes together; the socket state is written after
   the callback that announces it.
   */
  datatype Event =
    | AckReceived(net: Net, i: AckInput)
    | RecoveryEntered(net: Net, now: nat)
    | RecoveryLeft(net: Net, now: nat, draw: Draw)
    | TimedOut(net: Net, now: nat, queried: bool)
    | StateNoted(net: Net, now: nat, state: CongState)
    | TransmissionStarted(net: Net, now: nat, draw: Draw)
    | CwrEntered(net: Net, now: nat)
    | CwrLeft(net: Net, now: nat)
  {
    function At(): nat {
      if AckReceived? then i.now else now
    }
  }

  function Refreshed(s: Sys, n: Net): Sys {
    s.(t := s.t.(bytesInFlight := n.bytesInFlight, lastRtt := n.lastRtt, minRtt := n.minRtt,
                 lastAckedSackedBytes := n.lastAckedSackedBytes))
  }

  function Noted(s: Sys, state: CongState): Sys {
    s.(t := s.t.(congState := state))
  }

  function AfterRecoveryEntry(cfg: Config, s: Sys, now: nat): Sys {
    AfterSsThreshQuery(Noted(AfterStateSet(cfg, s, Recovery, now), Recovery))
  }

  function AfterRecoveryExit(cfg: Config, s: Sys, now: nat, draw: Draw): Sys {
    var s1 := Noted(AfterStateSet(cfg, AfterCwndEvent(cfg, s, CompleteCwr, now, draw), Open, now), Open);
    s1.(t := s1.t.(cWnd := s1.t.ssThresh))
  }

  function AfterTimeout(cfg: Config, s: Sys, now: nat, queried: bool): Sys {
    var s1 := if queried then AfterSsThreshQuery(s) else s;
    var s2 := Noted(AfterStateSet(cfg, s1, Loss, now), Loss);
    s2.(t := s2.t.(cWnd := cfg.segmentSize))
  }

  function Step(cfg: Config, s: Sys, e: Event): Sys {
    var s0 := Refreshed(s, e.net);
    match e
    case AckReceived(_, i) => AfterCongControl(cfg, s0, i)
    case RecoveryEntered(_, now) => AfterRecoveryEntry(cfg, s0, now)
    case RecoveryLeft(_, now, draw) => AfterRecoveryExit(cfg, s0, now, draw)
    case TimedOut(_, now, queried) => AfterTimeout(cfg, s0, now, queried)
    case StateNoted(_, now, state) => Noted(AfterStateSet(cfg, s0, state, now), state)
    case TransmissionStarted(_, now, draw) => AfterCwndEvent(cfg, s0, TxStart, now, draw)
    case CwrEntered(_, _) => Noted(AfterSsThreshQuery(s0), Cwr)
    case CwrLeft(_, _) => Noted(s0, Open)
  }

  /** A pair of last and minimum RTT as `EstimateRtt` leaves it; before the first sample there is neither. */
  predicate RttPair(lastRtt: nat, minRtt: nat) {
    (lastRtt == 0 && minRtt == TIME_MAX) || 0 < minRtt <= lastRtt
  }

  /** Since the last event there was no RTT sample, or the minimum has taken account of the last one. */
  predicate RttFollows(t: Tcb, net: Net) {
    || (net.lastRtt == t.lastRtt && net.minRtt == t.minRtt)
    || (0 < net.minRtt <= net.lastRtt && net.minRtt <= t.minRtt)
  }

  /**
   What the socket's states allow: each change of state from where the socket
   makes it, a timeout outside Loss with a query, and the start of a
   transmission with nothing in flight.
   */
  ghost predicate Possible(s: Sys, e: Event) {
    && RttFollows(s.t, e.net)
    && match e
      case AckReceived(_, _) => true
      case RecoveryEntered(_, _) => s.t.congState == Disorder
      case RecoveryLeft(_, _, _) => s.t.congState == Recovery
      case TimedOut(_, _, queried) => queried || s.t.congState == Loss
      case StateNoted(_, _, Open) => s.t.congState == Disorder || s.t.congState == Loss
      case StateNoted(_, _, Disorder) => s.t.congState == Open
      case StateNoted(_, _, _) => false
      case TransmissionStarted(net, _, _) => net.bytesInFlight == 0
      case CwrEntered(_, _) => s.t.congState != Cwr
      case CwrLeft(_, _) => s.t.congState == Cwr
  }

  /** A connection that has just been opened. */
  function Opened(cfg: Config, t: Tcb, now: nat): Sys {
    Noted(AfterStateSet(cfg, Sys(NEW_BBR, t, []), Open, now), Open)
  }

  ghost predicate WasOpened(cfg: Config, s: Sys, events: seq<Event>, t: Tcb, now: nat) {
    && t.cWnd == cfg.initialCWnd * cfg.segmentSize && RttPair(t.lastRtt, t.minRtt)
    && s == Opened(cfg, t, now) && (events != [] ==> now <= events[0].At())
  }

  ghost predicate StepAt(cfg: Config, states: seq<Sys>, events: seq<Event>, k: nat)
    requires k < |events| < |states|
  {
    Possible(states[k], events[k]) && states[k + 1] == Step(cfg, states[k], events[k])
  }

  ghost predicate Starts(cfg: Config, s: Sys, events: seq<Event>) {
    exists t: Tcb, now: nat :: WasOpened(cfg, s, events, t, now)
  }

  ghost predicate IsRun(cfg: Config, states: seq<Sys>, events: seq<Event>) {
    && |states| == |events| + 1
    && Starts(cfg, states[0], events)
    && (forall k :: 0 <= k < |events| ==> StepAt(cfg, states, events, k))
    && InOrder(events)
  }

  ghost predicate InOrder(events: seq<Event>) {
    forall j, k :: 0 <= j < k < |events| ==> events[j].At() <= events[k].At()
  }

  // Longer runs

  lemma FirstStep(cfg: Config, s0: Sys, e: Event, s1: Sys) returns (states: seq<Sys>, events: seq<Event>)
    requires Starts(cfg, s0, [e]) && Possible(s0, e) && s1 == Step(cfg, s0, e)
    ensures IsRun(cfg, states, events) && states == [s0, s1] && events == [e]
  {
    states, events := [s0, s1], [e];
    assert StepAt(cfg, states, events, 0);
  }

  lemma StillOpened(cfg: Config, s: Sys, events: seq<Event>, e: Event)
    requires events != [] && Starts(cfg, s, events)
    ensures Starts(cfg, s, events + [e])
  {
    var t: Tcb, now: nat :| WasOpened(cfg, s, events, t, now);
    assert WasOpened(cfg, s, events + [e], t, now);
  }

  lemma OneMoreStep(cfg: Config, states: seq<Sys>, events: seq<Event>, e: Event, s: Sys)
      returns (states': seq<Sys>, events': seq<Event>)
    requires IsRun(cfg, states, events) && events != [] && events[|events| - 1].At() <= e.At()
    requires Possible(states[|events|], e) && s == Step(cfg, states[|events|], e)
    ensures IsRun(cfg, states', events') && states' == states + [s] && events' == events + [e]
  {
    states', events' := states + [s], events + [e];
    StillOpened(cfg, states[0], events, e);
    OrderKept(events, e);
    forall k | 0 <= k < |events'|
      ensures StepAt(cfg, states', events', k)
    {
      if k < |events| {
        EarlierStep(cfg, states, events, e, s, k);
      } else {
        LastStep(cfg, states, events, e, s);
      }
    }
  }

  lemma OrderKept(events: seq<Event>, e: Event)
    requires InOrder(events) && events != [] && events[|events| - 1].At() <= e.At()
    ensures InOrder(events + [e])
  {
    var events' := events + [e];
    forall j, k | 0 <= j < k < |events'|
      ensures events'[j].At() <= events'[k].At()
    {
      assert events[j].At() <= events[|events| - 1].At();
    }
  }

  lemma EarlierStep(cfg: Config, states: seq<Sys>, events: seq<Event>, e: Event, s: Sys, k: nat)
    requires k < |events| < |states| && StepAt(cfg, states, events, k)
    ensures StepAt(cfg, states + [s], events + [e], k)
  {
    var states', events' := states + [s], events + [e];
    assert states'[k] == states[k] && states'[k + 1] == states[k + 1] && events'[k] == events[k];
  }

  lemma LastStep(cfg: Config, states: seq<Sys>, events: seq<Event>, e: Event, s: Sys)
    requires |states| == |events| + 1 && Possible(states[|events|], e) && s == Step(cfg, states[|events|], e)
    ensures StepAt(cfg, states + [s], events + [e], |events|)
  {
  }

  // What the parts of a callback leave alone

  lemma MeasuringFrame(cfg: Config, s: Sys, i: AckInput)
    ensures var s' := AfterMeasuring(cfg, s, i);
            var s0 := WithConnection(s, i.rc);
            && s' == s0.(b := s0.b.(round := s'.b.round, packetConservation := s'.b.packetConservation,
                                    best := s'.b.best, agg := s'.b.agg, phase := s'.b.phase, pipe := s'.b.pipe),
                         trace := s'.trace)
            && s'.b.phase.mode == s.b.phase.mode
  {
    var s0 := WithConnection(s, i.rc);
    BtlBwFrame(s0.b, i.rs, i.best);
    AggregationFrame(cfg, AfterBtlBw(s0.b, i.rs, i.best), i.rs, i.now, s.t.cWnd);
    var s1 := s0.(b := AfterAggregation(cfg, AfterBtlBw(s0.b, i.rs, i.best), i.rs, i.now, s.t.cWnd));
    CyclePhaseFrame(cfg, s1, i.rs, i.now);
    FullPipeFrame(AfterCyclePhase(cfg, s1, i.rs, i.now).b, i.rs);
  }

  lemma BtlBwFrame(b: Bbr, rs: Sample, best: nat)
    ensures var b' := AfterBtlBw(b, rs, best);
            b' == b.(round := b'.round, packetConservation := b'.packetConservation, best := b'.best)
  {
  }

  lemma AggregationFrame(cfg: Config, b: Bbr, rs: Sample, now: nat, cWnd: nat)
    ensures var b' := AfterAggregation(cfg, b, rs, now, cWnd); b' == b.(agg := b'.agg)
  {
  }

  lemma CyclePhaseFrame(cfg: Config, s: Sys, rs: Sample, now: nat)
    ensures var s' := AfterCyclePhase(cfg, s, rs, now);
            s' == s.(b := s.b.(phase := s'.b.phase), trace := s'.trace) && s'.b.phase.mode == s.b.phase.mode
  {
  }

  lemma FullPipeFrame(b: Bbr, rs: Sample)
    ensures var b' := AfterFullPipe(b, rs); b' == b.(pipe := b'.pipe)
  {
  }

  lemma DrainFrame(cfg: Config, s: Sys, now: nat, draw: Draw)
    ensures var s' := AfterDrain(cfg, s, now, draw);
            && s' == s.(b := s.b.(phase := s'.b.phase), t := s.t.(ssThresh := s'.t.ssThresh), trace := s'.trace)
            && (s'.b.phase.mode == ProbeRtt <==> s.b.phase.mode == ProbeRtt)
  {
  }

  lemma ProbeRttFrame(cfg: Config, s: Sys, rs: Sample, now: nat, draw: Draw)
    ensures var s' := AfterProbeRtt(cfg, s, rs, now, draw);
            s' == s.(b := s.b.(phase := s'.b.phase, probe := s'.b.probe, rtt := s'.b.rtt, round := s'.b.round,
                               appLimited := s'.b.appLimited, priorCwnd := s'.b.priorCwnd,
                               idleRestart := s'.b.idleRestart),
                     t := s.t.(cWnd := s'.t.cWnd), trace := s'.trace)
  {
    ProbeEntryFrame(s);
    HandlingFrame(cfg, AfterProbeEntry(s), now, draw);
  }

  lemma ProbeEntryFrame(s: Sys)
    ensures var s' := AfterProbeEntry(s);
            s' == s.(b := s.b.(phase := s'.b.phase, probe := s'.b.probe, priorCwnd := s'.b.priorCwnd),
                     trace := s'.trace)
  {
  }

  lemma HandlingFrame(cfg: Config, s: Sys, now: nat, draw: Draw)
    ensures var s' := HandledProbeRtt(cfg, s, now, draw);
            s' == s.(b := s.b.(phase := s'.b.phase, probe := s'.b.probe, rtt := s'.b.rtt, round := s'.b.round,
                               appLimited := s'.b.appLimited),
                     t := s.t.(cWnd := s'.t.cWnd), trace := s'.trace)
  {
    ExitFrame(cfg, RoundNoted(MarkedAppLimited(s)), now, draw);
  }

  lemma ExitFrame(cfg: Config, s: Sys, now: nat, draw: Draw)
    ensures var s' := ExitedProbeRtt(cfg, s, now, draw);
            s' == s.(b := s.b.(phase := s'.b.phase, rtt := s'.b.rtt), t := s.t.(cWnd := s'.t.cWnd), trace := s'.trace)
  {
  }

  lemma PacingFrame(cfg: Config, s: Sys, gain: real)
    ensures var s' := AfterPacingRate(cfg, s, gain);
            s' == s.(b := s.b.(hasSeenRtt := s'.b.hasSeenRtt, best := s'.b.best),
                     t := s.t.(pacing := s'.t.pacing, pacingRate := s'.t.pacingRate))
  {
  }

  lemma CwndFrame(cfg: Config, s: Sys, rs: Sample)
    ensures var s' := AfterCwnd(cfg, s, rs);
            s' == s.(b := s.b.(targetCWnd := s'.b.targetCWnd), t := s.t.(cWnd := s'.t.cWnd))
  {
  }

  lemma ControlFrame(cfg: Config, s: Sys, rs: Sample)
    ensures var s' := AfterControl(cfg, s, rs);
            s' == s.(b := s.b.(hasSeenRtt := s'.b.hasSeenRtt, best := s'.b.best, sendQuantum := cfg.segmentSize,
                               targetCWnd := s'.b.targetCWnd),
                     t := s.t.(pacing := s'.t.pacing, pacingRate := s'.t.pacingRate, cWnd := s'.t.cWnd))
  {
    PacingFrame(cfg, s, s.b.phase.pacingGain);
    var s1 := AfterPacingRate(cfg, s, s.b.phase.pacingGain);
    CwndFrame(cfg, s1.(b := s1.b.(sendQuantum := cfg.segmentSize)), rs);
  }
}
