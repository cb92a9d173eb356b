/** How BBR's congestion window grows towards its target, and which windows it saves, over whole runs. */
module BbrGrowth {
  import opened Arithmetic
  import opened SocketState
  import opened RateTypes
  import opened BbrModel
  import opened BbrRuns
  import opened BbrModes
  import opened BbrWindows

  // The target

  /** x cut to a whole number. */
  ghost predicate IsFloor(n: int, x: real) {
    n as real <= x < n as real + 1.0
  }

  lemma TruncIsFloor(x: real)
    requires x >= 0.0
    ensures IsFloor(Trunc(x), x)
  {
  }

  /**
   The data in flight for a gain: the initial window while there is no RTT
   estimate, else the gain's share of the bandwidth-delay product in bytes with
   three send quanta on top, and two segments more in the phase that probes
   for bandwidth.
   */
  lemma InFlightIs(cfg: Config, b: Bbr, gain: real)
    requires gain >= 0.0
    ensures var n := InFlight(cfg, b, gain);
            var probing := b.phase.mode == ProbeBw && b.phase.cycleIndex == 0;
            if b.rtt.rtProp == TIME_MAX then n == cfg.initialCWnd * cfg.segmentSize
            else IsFloor(n - 3 * b.sendQuantum - (if probing then 2 * cfg.segmentSize else 0),
                         gain * (b.best as real * b.rtt.rtProp as real / 8000000000.0))
  {
    var bdp := b.best as real * b.rtt.rtProp as real / 8000000000.0;
    NonNegativeProduct(b.best as real, b.rtt.rtProp as real);
    NonNegativeProduct(gain, bdp);
    TruncIsFloor(gain * bdp);
  }

  lemma NonNegativeProduct(x: real, y: real)
    requires x >= 0.0 && y >= 0.0
    ensures x * y >= 0.0
  {
  }

  /**
   The allowance for aggregated ACKs: with a full pipe the gain times the larger
   of the two recorded excesses, at most a tenth of a second of bandwidth.
   */
  lemma AllowanceIs(cfg: Config, b: Bbr)
    ensures var n, larger := AggregationCwnd(cfg, b), Max(b.agg.extra0, b.agg.extra1);
            if !b.pipe.filled then n == 0
            else
              && n <= cfg.extraAckedGain * larger && (cfg.extraAckedGain > 0 ==> 80 * n <= b.best)
              && (n == cfg.extraAckedGain * larger || b.best < 80 * (n + 1))
  {
    ProductMonotone(cfg.extraAckedGain, 0, Max(b.agg.extra0, b.agg.extra1));
  }

  // One ACK

  /** What probing does to the window and the saved one. */
  ghost predicate ProbeMovesWindow(s: Sys, s': Sys) {
    && s'.t.cWnd == (if s.b.phase.mode == ProbeRtt && s'.b.phase.mode != ProbeRtt then Max(s.b.priorCwnd, s.t.cWnd)
                     else s.t.cWnd)
    && s'.b.priorCwnd == (if s.b.phase.mode != ProbeRtt && s'.b.phase.mode == ProbeRtt
                          then Max(s.b.priorCwnd, s.t.cWnd) else s.b.priorCwnd)
  }

  lemma ProbeRttWindow(cfg: Config, s: Sys, rs: Sample, now: nat, draw: Draw)
    ensures ProbeMovesWindow(s, AfterProbeRtt(cfg, s, rs, now, draw))
  {
    if AfterProbeEntry(s).b.phase.mode == ProbeRtt {
      HandlingWindow(cfg, AfterProbeEntry(s), now, draw);
    }
  }

  lemma HandlingWindow(cfg: Config, s: Sys, now: nat, draw: Draw)
    requires s.b.phase.mode == ProbeRtt
    ensures var s' := HandledProbeRtt(cfg, s, now, draw);
            && s'.b.priorCwnd == s.b.priorCwnd && (s.b.probe.doneStamp == 0 ==> s'.b.phase.mode == ProbeRtt)
            && s'.t.cWnd == if s'.b.phase.mode != ProbeRtt then Max(s.b.priorCwnd, s.t.cWnd) else s.t.cWnd
  {
  }

  lemma ModelWindow(cfg: Config, s: Sys, i: AckInput)
    ensures var s' := AfterModel(cfg, s, i);
            && ProbeMovesWindow(s, s') && s'.t == s.t.(cWnd := s'.t.cWnd, ssThresh := s'.t.ssThresh)
            && s'.b.minPipeCwnd == s.b.minPipeCwnd && s'.b.delivered == i.rc.delivered
  {
    MeasuringFrame(cfg, s, i);
    var s1 := AfterMeasuring(cfg, s, i);
    DrainFrame(cfg, s1, i.now, i.draw);
    var s2 := AfterRtt(cfg, AfterDrain(cfg, s1, i.now, i.draw), i.now);
    ProbeRttWindow(cfg, s2, i.rs, i.now, i.draw);
    ProbeRttFrame(cfg, s2, i.rs, i.now, i.draw);
  }

  /** The window before an ACK's growth: the saved one comes back with the end of PROBE_RTT. */
  ghost function Held(s: Sys, s': Sys): nat {
    if s.b.phase.mode == ProbeRtt && s'.b.phase.mode != ProbeRtt then Max(s.b.priorCwnd, s.t.cWnd) else s.t.cWnd
  }

  /** The window after losses in a recovery are taken off, down to a segment. */
  ghost function Reduced(cfg: Config, s: Sys, rs: Sample, w: nat): nat {
    if s.t.congState == Recovery && rs.bytesLoss > 0 then Max(w - rs.bytesLoss, cfg.segmentSize) else w
  }

  ghost predicate ConservesPackets(s: Sys) {
    s.t.congState == Recovery && s.b.packetConservation
  }

  /**
   Where an ACK moves the window from w: packet conservation makes room for what
   is in flight and acked; a full pipe grows by what is acked up to the
   target; before that the window grows by what is acked while it is below
   the target, or the connection has not delivered an initial window.  All
   but conservation keeps at least four segments.
   */
  ghost function Grown(cfg: Config, s': Sys, i: AckInput, w: nat): nat {
    var acked, four := i.rs.ackedSacked, 4 * cfg.segmentSize;
    if acked == 0 then w
    else if ConservesPackets(s') then Max(w, s'.t.bytesInFlight + acked)
    else if s'.b.pipe.filled then Max(Min(w + acked, s'.b.targetCWnd), four)
    else if w < s'.b.targetCWnd || i.rc.delivered < cfg.initialCWnd * cfg.segmentSize then Max(w + acked, four)
    else Max(w, four)
  }

  /** In PROBE_RTT the window is at most four segments. */
  ghost function Capped(cfg: Config, s': Sys, w: nat): nat {
    if s'.b.phase.mode == ProbeRtt then Min(w, 4 * cfg.segmentSize) else w
  }

  /** s' has the window that the ACK gives when it finds w. */
  ghost predicate MovesFrom(cfg: Config, s': Sys, i: AckInput, w: nat) {
    s'.t.cWnd == Capped(cfg, s', Grown(cfg, s', i, if i.rs.ackedSacked == 0 then w else Reduced(cfg, s', i.rs, w)))
  }

  /** The target of an ACK of new data: the data in flight for the mode's gain, and the allowance. */
  ghost predicate HasTarget(cfg: Config, s': Sys, i: AckInput) {
    i.rs.ackedSacked > 0 && !ConservesPackets(s') ==>
      s'.b.targetCWnd == InFlight(cfg, s'.b, s'.b.phase.cWndGain) + AggregationCwnd(cfg, s'.b)
  }

  lemma CwndMoves(cfg: Config, s: Sys, i: AckInput)
    requires s.b.minPipeCwnd == 4 * cfg.segmentSize && s.b.delivered == i.rc.delivered
    ensures MovesFrom(cfg, AfterCwnd(cfg, s, i.rs), i, s.t.cWnd)
  {
    if i.rs.ackedSacked > 0 && !ConservesPackets(s) {
      GrownIs(cfg, s, AfterCwnd(cfg, s, i.rs), i, Reduced(cfg, s, i.rs, s.t.cWnd));
    }
  }

  lemma GrownIs(cfg: Config, s: Sys, s': Sys, i: AckInput, w: nat)
    requires s.b.minPipeCwnd == 4 * cfg.segmentSize && s.b.delivered == i.rc.delivered && i.rs.ackedSacked > 0
    requires s'.b.targetCWnd == TargetCwnd(cfg, s.b) && !ConservesPackets(s') && s'.b.pipe == s.b.pipe
    ensures Grown(cfg, s', i, w) == GrownCwnd(cfg, s.b, w, i.rs.ackedSacked)
  {
  }

  lemma CwndTarget(cfg: Config, s: Sys, i: AckInput)
    ensures HasTarget(cfg, AfterCwnd(cfg, s, i.rs), i)
  {
    SameTarget(cfg, s.b, AfterCwnd(cfg, s, i.rs).b);
  }

  lemma SameBdp(b: Bbr, b': Bbr)
    requires b'.best == b.best && b'.rtt.rtProp == b.rtt.rtProp
    ensures Bdp(b') == Bdp(b)
  {
  }

  lemma SameTarget(cfg: Config, b: Bbr, b': Bbr)
    requires b' == b.(targetCWnd := b'.targetCWnd)
    ensures TargetCwnd(cfg, b') == TargetCwnd(cfg, b)
  {
    SameBdp(b, b');
  }

  lemma ControlMovesWindow(cfg: Config, s: Sys, i: AckInput)
    requires s.b.minPipeCwnd == 4 * cfg.segmentSize && s.b.delivered == i.rc.delivered
    ensures MovesFrom(cfg, AfterControl(cfg, s, i.rs), i, s.t.cWnd) && HasTarget(cfg, AfterControl(cfg, s, i.rs), i)
  {
    PacingFrame(cfg, s, s.b.phase.pacingGain);
    var s1 := AfterPacingRate(cfg, s, s.b.phase.pacingGain);
    CwndMoves(cfg, s1.(b := s1.b.(sendQuantum := cfg.segmentSize)), i);
    CwndTarget(cfg, s1.(b := s1.b.(sendQuantum := cfg.segmentSize)), i);
  }

  lemma AckMovesWindow(cfg: Config, s: Sys, i: AckInput)
    requires s.b.minPipeCwnd == 4 * cfg.segmentSize
    ensures var s' := AfterCongControl(cfg, s, i);
            && MovesFrom(cfg, s', i, Held(s, s')) && HasTarget(cfg, s', i)
            && s'.t.congState == s.t.congState && s'.t.bytesInFlight == s.t.bytesInFlight
            && s'.b.priorCwnd == if s.b.phase.mode != ProbeRtt && s'.b.phase.mode == ProbeRtt
                                 then Max(s.b.priorCwnd, s.t.cWnd) else s.b.priorCwnd
  {
    ModelWindow(cfg, s, i);
    var s1 := AfterModel(cfg, s, i);
    ControlFrame(cfg, s1, i.rs);
    ControlMovesWindow(cfg, s1, i);
  }

  /** In every run an ACK moves the window like that. */
  lemma AckWindowIs(cfg: Config, states: seq<Sys>, events: seq<Event>, k: nat)
    requires IsRun(cfg, states, events) && k < |events| && events[k].AckReceived?
    ensures MovesFrom(cfg, states[k + 1], events[k].i, Held(states[k], states[k + 1]))
    ensures HasTarget(cfg, states[k + 1], events[k].i)
    ensures states[k + 1].t.congState == states[k].t.congState
    ensures states[k + 1].t.bytesInFlight == events[k].net.bytesInFlight
  {
    assert StepAt(cfg, states, events, k);
    RunKeepsFloor(cfg, states, events, k);
    AckMovesWindow(cfg, Refreshed(states[k], events[k].net), events[k].i);
  }

  /** A connection opens with the initial window as window, target and saved window, and with the initial threshold. */
  lemma OpeningWindows(cfg: Config, states: seq<Sys>, events: seq<Event>)
    requires IsRun(cfg, states, events)
    ensures var s := states[0];
            && s.t.cWnd == s.b.targetCWnd == s.b.priorCwnd == cfg.initialCWnd * cfg.segmentSize
            && s.t.ssThresh == cfg.initialSsThresh && s.b.sendQuantum == cfg.segmentSize
  {
  }

  // Growth over many ACKs

  /** From event i to before event j there are only ACKs, and no recovery or RTT probe. */
  ghost predicate OnlyAcks(states: seq<Sys>, events: seq<Event>, i: nat, j: nat) {
    && i <= j <= |events| < |states|
    && (forall k :: i <= k <= j ==> !Probing(states[k]) && states[k].t.congState != Recovery)
    && (forall k :: i <= k < j ==> events[k].AckReceived?)
  }

  ghost function Acked(events: seq<Event>, i: nat, j: nat): nat
    requires i <= j <= |events|
  {
    if i == j then 0
    else Acked(events, i, j - 1) + (if events[j - 1].AckReceived? then events[j - 1].i.rs.ackedSacked else 0)
  }

  /** The target that the ACKs of new data find is at least T. */
  ghost predicate TargetAtLeast(states: seq<Sys>, events: seq<Event>, i: nat, j: nat, T: nat)
    requires i <= j <= |events| < |states|
  {
    forall k :: i <= k < j && events[k].AckReceived? && events[k].i.rs.ackedSacked > 0 ==>
      states[k + 1].b.targetCWnd >= T
  }

  /**
   Over ACKs outside recovery and PROBE_RTT the window grows by all that is
   acked until it reaches the target, during start-up as with a full pipe,
   and by no more than what is acked, except up to the floor of four segments.
   */
  lemma {:induction false} WindowReachesTarget(cfg: Config, states: seq<Sys>, events: seq<Event>, i: nat, j: nat,
                                               T: nat)
    requires IsRun(cfg, states, events) && OnlyAcks(states, events, i, j) && TargetAtLeast(states, events, i, j, T)
    ensures states[j].t.cWnd >= Min(states[i].t.cWnd + Acked(events, i, j), T)
    ensures states[j].t.cWnd <= Max(states[i].t.cWnd, 4 * cfg.segmentSize) + Acked(events, i, j)
    decreases j
  {
    if i < j {
      WindowReachesTarget(cfg, states, events, i, j - 1, T);
      AckWindowIs(cfg, states, events, j - 1);
      OneAckGrows(cfg, states[j], events[j - 1].i, states[j - 1].t.cWnd);
    }
  }

  lemma OneAckGrows(cfg: Config, s': Sys, i: AckInput, w: nat)
    requires MovesFrom(cfg, s', i, w) && !Probing(s') && s'.t.congState != Recovery
    ensures var acked, four := i.rs.ackedSacked, 4 * cfg.segmentSize;
            && (acked == 0 ==> s'.t.cWnd == w)
            && (acked > 0 ==> Min(w + acked, s'.b.targetCWnd) <= s'.t.cWnd <= Max(w + acked, four))
            && (acked > 0 && s'.b.pipe.filled ==> s'.t.cWnd <= Max(s'.b.targetCWnd, four) && s'.t.cWnd >= four)
  {
  }

  /** Event k acks new data with a full pipe and finds the target T. */
  ghost predicate SteadyAt(states: seq<Sys>, events: seq<Event>, k: nat, T: nat)
    requires k < |events| < |states|
  {
    events[k].AckReceived? && events[k].i.rs.ackedSacked > 0 && states[k + 1].b.pipe.filled
    && states[k + 1].b.targetCWnd == T
  }

  ghost predicate Steady(states: seq<Sys>, events: seq<Event>, i: nat, j: nat, T: nat)
    requires i <= j <= |events| < |states|
  {
    forall k :: i <= k < j ==> SteadyAt(states, events, k, T)
  }

  lemma SteadyTarget(states: seq<Sys>, events: seq<Event>, i: nat, j: nat, T: nat)
    requires i < j <= |events| < |states| && Steady(states, events, i, j, T)
    ensures TargetAtLeast(states, events, i, j, T) && SteadyAt(states, events, j - 1, T)
  {
    forall k | i <= k < j && events[k].AckReceived? && events[k].i.rs.ackedSacked > 0
      ensures states[k + 1].b.targetCWnd >= T
    {
      assert SteadyAt(states, events, k, T);
    }
  }

  lemma LastOfAcks(states: seq<Sys>, events: seq<Event>, i: nat, j: nat)
    requires OnlyAcks(states, events, i, j) && i < j
    ensures OnlyAcks(states, events, j - 1, j)
  {
  }

  /** With a full pipe and a steady target enough acked bytes bring the window to the target, or four segments. */
  lemma WindowSettles(cfg: Config, states: seq<Sys>, events: seq<Event>, i: nat, j: nat, T: nat)
    requires IsRun(cfg, states, events) && OnlyAcks(states, events, i, j) && i < j
    requires Steady(states, events, i, j, T) && states[i].t.cWnd + Acked(events, i, j) >= T
    ensures states[j].t.cWnd == Max(T, 4 * cfg.segmentSize)
  {
    SteadyTarget(states, events, i, j, T);
    LastOfAcks(states, events, i, j);
    WindowReachesTarget(cfg, states, events, i, j, T);
    LastSettles(cfg, states, events, j - 1, T);
  }

  lemma LastSettles(cfg: Config, states: seq<Sys>, events: seq<Event>, k: nat, T: nat)
    requires IsRun(cfg, states, events) && OnlyAcks(states, events, k, k + 1) && SteadyAt(states, events, k, T)
    ensures 4 * cfg.segmentSize <= states[k + 1].t.cWnd <= Max(T, 4 * cfg.segmentSize)
  {
    AckWindowIs(cfg, states, events, k);
    OneAckGrows(cfg, states[k + 1], events[k].i, states[k].t.cWnd);
  }

  // Other events, and the saved window

  /** Where BBR saves the window: entering a recovery, CWR or PROBE_RTT, or on a timeout. */
  ghost predicate Saves(s: Sys, e: Event, s': Sys) {
    e.RecoveryEntered? || e.CwrEntered? || e.TimedOut? || (!Probing(s) && Probing(s'))
  }

  /** A recovery or an RTT probe under way, or just begun, joins the window to the saved one. */
  ghost predicate Joins(s: Sys, s': Sys) {
    s.t.congState == Recovery || Probing(s) || Probing(s')
  }

  /** A recovery saves twice: the window it finds, and then the one it starts with, if that is larger. */
  ghost predicate SavedMoves(s: Sys, e: Event, s': Sys) {
    var found := if Joins(s, s') then Max(s.b.priorCwnd, s.t.cWnd) else s.t.cWnd;
    s'.b.priorCwnd == if !Saves(s, e, s') then s.b.priorCwnd
                      else if e.RecoveryEntered? then Max(found, s'.t.cWnd)
                      else found
  }

  /**
   The window after any other event: a recovery starts with what is in flight
   and what the ACK freed, at least a segment; it ends at the threshold; a
   timeout leaves one segment; the end of PROBE_RTT restores the saved window.
   */
  ghost predicate OtherMovesWindow(cfg: Config, s: Sys, e: Event, s': Sys) {
    s'.t.cWnd == match e
      case RecoveryEntered(net, _) => net.bytesInFlight + Max(net.lastAckedSackedBytes, cfg.segmentSize)
      case RecoveryLeft(_, _, _) => s.t.ssThresh
      case TimedOut(_, _, _) => cfg.segmentSize
      case _ => Held(s, s')
  }

  lemma StepMovesWindow(cfg: Config, s: Sys, e: Event)
    requires s.b.isInitialized && Possible(s, e) && s.b.minPipeCwnd == 4 * cfg.segmentSize
    ensures e.AckReceived? || OtherMovesWindow(cfg, s, e, Step(cfg, s, e))
  {
    var s0 := Refreshed(s, e.net);
    match e
    case TransmissionStarted(_, now, _) => PacingFrame(cfg, Idled(s0, now), 1.0);
    case _ =>
  }

  lemma StepSavesWindow(cfg: Config, s: Sys, e: Event)
    requires s.b.isInitialized && Possible(s, e) && s.b.minPipeCwnd == 4 * cfg.segmentSize
    ensures SavedMoves(s, e, Step(cfg, s, e))
  {
    var s0 := Refreshed(s, e.net);
    match e
    case AckReceived(_, i) => AckMovesWindow(cfg, s0, i);
    case TransmissionStarted(_, now, _) => PacingFrame(cfg, Idled(s0, now), 1.0);
    case _ =>
  }

  /** In every run, for the other events, and for what each event saves. */
  lemma WindowsMove(cfg: Config, states: seq<Sys>, events: seq<Event>, k: nat)
    requires IsRun(cfg, states, events) && k < |events|
    ensures SavedMoves(states[k], events[k], states[k + 1])
    ensures events[k].AckReceived? || OtherMovesWindow(cfg, states[k], events[k], states[k + 1])
  {
    RunKeepsModes(cfg, states, events, k);
    RunKeepsFloor(cfg, states, events, k);
    assert StepAt(cfg, states, events, k);
    StepMovesWindow(cfg, states[k], events[k]);
    StepSavesWindow(cfg, states[k], events[k]);
  }

  /** Since event m the savings only joined windows, none of them larger than what is saved at event k. */
  ghost predicate SavedSince(states: seq<Sys>, events: seq<Event>, m: nat, k: nat)
    requires m <= k <= |events| < |states|
  {
    && states[m].t.cWnd <= states[k].b.priorCwnd
    && forall j :: m < j < k && Saves(states[j], events[j], states[j + 1]) ==>
         Joins(states[j], states[j + 1]) && states[j].t.cWnd <= states[k].b.priorCwnd
  }

  lemma SavedStays(cfg: Config, states: seq<Sys>, events: seq<Event>, m: nat, k: nat)
    requires IsRun(cfg, states, events) && m < k <= |events| && SavedSince(states, events, m, k - 1)
    requires Saves(states[k - 1], events[k - 1], states[k]) ==> Joins(states[k - 1], states[k])
    ensures SavedSince(states, events, m, k)
  {
    WindowsMove(cfg, states, events, k - 1);
  }

  /**
   The saved window is one that the connection had at some time h, not before
   the last saving m that overwrote it, and no smaller than any saved since.
   */
  lemma {:induction false} SavedWindowIs(cfg: Config, states: seq<Sys>, events: seq<Event>, k: nat)
      returns (m: nat, h: nat)
    requires IsRun(cfg, states, events) && k <= |events|
    ensures m <= h <= k && states[k].b.priorCwnd == states[h].t.cWnd && SavedSince(states, events, m, k)
    ensures m > 0 ==> m < k && Saves(states[m], events[m], states[m + 1]) && !Joins(states[m], states[m + 1])
  {
    m, h := 0, 0;
    if k > 0 {
      m, h := SavedWindowIs(cfg, states, events, k - 1);
      WindowsMove(cfg, states, events, k - 1);
      if Saves(states[k - 1], events[k - 1], states[k]) && !Joins(states[k - 1], states[k]) {
        m := k - 1;
        h := if states[k].b.priorCwnd == states[k - 1].t.cWnd then k - 1 else k;
      } else {
        SavedStays(cfg, states, events, m, k);
        if states[k].b.priorCwnd != states[k - 1].b.priorCwnd {
          h := if states[k].b.priorCwnd == states[k - 1].t.cWnd then k - 1 else k;
        }
      }
    }
  }
}
