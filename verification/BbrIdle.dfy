/** When BBR probes the RTT at all, restarts from idle, and the application limit that it notes, over whole runs. */
module BbrIdle {
  import opened Arithmetic
  import opened RateTypes
  import opened BbrModel
  import opened BbrRuns
  import opened BbrModes
  import opened BbrWindows
  import opened BbrRounds
  import opened BbrProbeRtt

  /** A transmission starts on a connection that is limited by the application. */
  ghost predicate RestartsFromIdle(s: Sys, e: Event) {
    e.TransmissionStarted? && s.b.appLimited != 0
  }

  /** An ACK whose sample says that something was delivered, or that it is invalid. */
  ghost predicate EndsRestart(e: Event) {
    e.AckReceived? && e.i.rs.delivered != 0
  }

  ghost predicate EntersNow(cfg: Config, s: Sys, e: Event) {
    e.AckReceived? && !Probing(s) && e.At() > s.b.rtt.stamp + cfg.rtPropFilterLen && !s.b.idleRestart
  }

  ghost predicate IdleMoves(cfg: Config, s: Sys, e: Event, s': Sys) {
    && (s'.b.idleRestart <==> RestartsFromIdle(s, e) || (s.b.idleRestart && !EndsRestart(e)))
    && (!Probing(s) && Probing(s') <==> EntersNow(cfg, s, e))
    && s'.b.appLimited == (if !e.AckReceived? then s.b.appLimited
                           else if Probing(s) || EntersNow(cfg, s, e)
                           then Max(e.i.rc.delivered + e.net.bytesInFlight, 1)
                           else e.i.rc.appLimited)
  }

  lemma HandlingIdle(cfg: Config, s: Sys, now: nat, draw: Draw)
    requires Probing(s)
    ensures var s' := HandledProbeRtt(cfg, s, now, draw);
            && s'.b.idleRestart == s.b.idleRestart && (s.b.probe.doneStamp == 0 ==> Probing(s'))
            && s'.b.appLimited == Max(s.b.delivered + s.t.bytesInFlight, 1)
  {
  }

  lemma ProbingIdle(cfg: Config, s: Sys, rs: Sample, now: nat, draw: Draw)
    ensures var s' := AfterProbeRtt(cfg, s, rs, now, draw);
            var enters := !Probing(s) && s.b.rtt.expired && !s.b.idleRestart;
            && (s'.b.idleRestart <==> s.b.idleRestart && rs.delivered == 0)
            && (!Probing(s) && Probing(s') <==> enters)
            && s'.b.appLimited == if Probing(s) || enters then Max(s.b.delivered + s.t.bytesInFlight, 1)
                                  else s.b.appLimited
  {
    var s1 := AfterProbeEntry(s);
    if Probing(s1) {
      HandlingIdle(cfg, s1, now, draw);
    }
  }

  lemma AckIdle(cfg: Config, s: Sys, e: Event)
    requires e.AckReceived?
    ensures IdleMoves(cfg, s, e, AfterCongControl(cfg, Refreshed(s, e.net), e.i))
  {
    var s0, i := Refreshed(s, e.net), e.i;
    var s2 := BeforeProbe(cfg, s0, i);
    BeforeProbeKeeps(cfg, s0, i);
    MeasuringFrame(cfg, s0, i);
    DrainFrame(cfg, AfterMeasuring(cfg, s0, i), i.now, i.draw);
    ProbingIdle(cfg, s2, i.rs, i.now, i.draw);
    ControlFrame(cfg, AfterModel(cfg, s0, i), i.rs);
  }

  lemma StepIdle(cfg: Config, s: Sys, e: Event)
    requires s.b.isInitialized
    ensures IdleMoves(cfg, s, e, Step(cfg, s, e))
  {
    match e
    case AckReceived(_, _) => AckIdle(cfg, s, e);
    case TransmissionStarted(net, now, _) => PacingFrame(cfg, Idled(Refreshed(s, net), now), 1.0);
    case _ =>
  }

  /**
   In every run BBR enters PROBE_RTT exactly at an ACK more than the filter
   length after the stamp of its RTT estimate, unless a restart from idle is
   under way.  Each ACK in PROBE_RTT marks everything delivered or in flight
   as limited by the application; all others take the connection's mark over.
   */
  lemma EntersIff(cfg: Config, states: seq<Sys>, events: seq<Event>, k: nat)
    requires IsRun(cfg, states, events) && k < |events|
    ensures IdleMoves(cfg, states[k], events[k], states[k + 1])
    ensures Enters(states, k) <==> EntersNow(cfg, states[k], events[k])
  {
    RunKeepsModes(cfg, states, events, k);
    assert StepAt(cfg, states, events, k);
    StepIdle(cfg, states[k], events[k]);
  }

  /** Each ACK takes over the connection's counts of delivered bytes. */
  lemma CountsTaken(cfg: Config, states: seq<Sys>, events: seq<Event>, k: nat)
    requires IsRun(cfg, states, events) && k < |events| && events[k].AckReceived?
    ensures var b, rc := states[k + 1].b, events[k].i.rc;
            b.delivered == rc.delivered && b.txItemDelivered == rc.txItemDelivered
  {
    assert StepAt(cfg, states, events, k);
    AckTakesCounts(cfg, Refreshed(states[k], events[k].net), events[k].i);
  }

  lemma AckTakesCounts(cfg: Config, s: Sys, i: AckInput)
    ensures var b := AfterCongControl(cfg, s, i).b;
            b.delivered == i.rc.delivered && b.txItemDelivered == i.rc.txItemDelivered
  {
    MeasuringFrame(cfg, s, i);
    var s1 := AfterMeasuring(cfg, s, i);
    DrainFrame(cfg, s1, i.now, i.draw);
    ProbeRttFrame(cfg, AfterRtt(cfg, AfterDrain(cfg, s1, i.now, i.draw), i.now), i.rs, i.now, i.draw);
    ControlFrame(cfg, AfterModel(cfg, s, i), i.rs);
  }

  /** Event i restarts from idle, and no ACK between i and k ends that. */
  ghost predicate RestartsSince(states: seq<Sys>, events: seq<Event>, i: nat, k: nat)
    requires k <= |events| < |states|
  {
    i < k && RestartsFromIdle(states[i], events[i]) && forall j :: i < j < k ==> !EndsRestart(events[j])
  }

  /** A restart from idle is under way exactly from its transmission start up to the first ACK that ends it. */
  lemma {:induction false} RestartIff(cfg: Config, states: seq<Sys>, events: seq<Event>, k: nat)
    requires IsRun(cfg, states, events) && k <= |events|
    ensures states[k].b.idleRestart <==> exists i: nat :: RestartsSince(states, events, i, k)
  {
    if k > 0 {
      RestartIff(cfg, states, events, k - 1);
      EntersIff(cfg, states, events, k - 1);
      if states[k].b.idleRestart {
        if RestartsFromIdle(states[k - 1], events[k - 1]) {
          assert RestartsSince(states, events, k - 1, k);
        } else {
          var i: nat :| RestartsSince(states, events, i, k - 1);
          assert RestartsSince(states, events, i, k);
        }
      } else if i: nat :| RestartsSince(states, events, i, k) {
        assert i < k - 1 ==> RestartsSince(states, events, i, k - 1);
      }
    }
  }

  // The round of a stay

  lemma HandlingMarksRound(cfg: Config, s: Sys, now: nat, draw: Draw)
    requires Probing(s) && s.b.probe.doneStamp == 0 && s.t.bytesInFlight <= s.b.minPipeCwnd
    ensures HandledProbeRtt(cfg, s, now, draw).b.round.nextDelivered == s.b.delivered
  {
  }

  lemma DrainedMarksRound(cfg: Config, s: Sys, e: Event)
    requires FindsDrained(cfg, e) && s.b.minPipeCwnd == 4 * cfg.segmentSize
    requires EntersNow(cfg, s, e) || (Probing(s) && s.b.probe.doneStamp == 0)
    ensures AfterCongControl(cfg, Refreshed(s, e.net), e.i).b.round.nextDelivered == e.i.rc.delivered
  {
    var s0, i := Refreshed(s, e.net), e.i;
    var s2 := BeforeProbe(cfg, s0, i);
    BeforeProbeKeeps(cfg, s0, i);
    MeasuringFrame(cfg, s0, i);
    MeasuringRound(cfg, s0, i);
    DrainFrame(cfg, AfterMeasuring(cfg, s0, i), i.now, i.draw);
    HandlingMarksRound(cfg, AfterProbeEntry(s2), i.now, i.draw);
    ControlFrame(cfg, AfterModel(cfg, s0, i), i.rs);
  }

  lemma {:induction false} DrainedMarkStays(cfg: Config, states: seq<Sys>, events: seq<Event>, d: nat, k: nat)
    requires IsRun(cfg, states, events) && DeliveredGrows(events) && d < k <= |events| && FindsDrained(cfg, events[d])
    requires Enters(states, d) || (Probing(states[d]) && states[d].b.probe.doneStamp == 0)
    ensures states[k].b.round.nextDelivered >= events[d].i.rc.delivered
    decreases k
  {
    if d + 1 < k {
      DrainedMarkStays(cfg, states, events, d, k - 1);
      RoundAt(cfg, states, events, k - 1);
    } else {
      DrainedMarkAt(cfg, states, events, d);
    }
  }

  lemma DrainedMarkAt(cfg: Config, states: seq<Sys>, events: seq<Event>, d: nat)
    requires IsRun(cfg, states, events) && d < |events| && FindsDrained(cfg, events[d])
    requires Enters(states, d) || (Probing(states[d]) && states[d].b.probe.doneStamp == 0)
    ensures states[d + 1].b.round.nextDelivered == events[d].i.rc.delivered
  {
    EntersIff(cfg, states, events, d);
    RunKeepsFloor(cfg, states, events, d);
    assert StepAt(cfg, states, events, d);
    DrainedMarksRound(cfg, states[d], events[d]);
  }

  /**
   The round that a stay in PROBE_RTT waits for is a whole one: the packet whose
   ACK starts a round after the first ACK that found the pipe drained was sent
   when everything delivered at that ACK was.
   */
  lemma DwellIsARound(cfg: Config, states: seq<Sys>, events: seq<Event>, i: nat, d: nat, j: nat, r: nat)
    requires IsRun(cfg, states, events) && DeliveredGrows(events) && i < j <= |events| && d < r < |events|
    requires Enters(states, i) && (forall k :: i < k < j ==> Probing(states[k])) && FirstDrained(cfg, events, i, d, j)
    requires StartsRound(states[r], events[r])
    ensures events[r].i.rs.priorDelivered >= events[d].i.rc.delivered
  {
    if i < d {
      EntryIsLater(cfg, states, events, i);
      StayKeeps(cfg, states, events, i, d);
    }
    DrainedMarkStays(cfg, states, events, d, r);
  }
}
