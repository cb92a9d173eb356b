/** BBR's round-trip time estimate over whole runs. */
module BbrRtt {
  import opened RateTypes
  import opened BbrModel
  import opened BbrRuns
  import opened BbrModes

  /** CheckProbeRTT may stamp the estimate anew, but does not change it. */
  lemma ProbingRtt(cfg: Config, s: Sys, rs: Sample, now: nat, draw: Draw)
    ensures var r := AfterProbeRtt(cfg, s, rs, now, draw).b.rtt;
            r.rtProp == s.b.rtt.rtProp && (r.stamp == s.b.rtt.stamp || r.stamp == now)
  {
    HandlingRtt(cfg, AfterProbeEntry(s), now, draw);
  }

  lemma HandlingRtt(cfg: Config, s: Sys, now: nat, draw: Draw)
    ensures var r := HandledProbeRtt(cfg, s, now, draw).b.rtt;
            r.rtProp == s.b.rtt.rtProp && (r.stamp == s.b.rtt.stamp || r.stamp == now)
  {
  }

  lemma AckRtt(cfg: Config, s: Sys, i: AckInput)
    ensures var r, u := AfterCongControl(cfg, s, i).b.rtt, UpdatedRtt(cfg, s.b.rtt, s.t.lastRtt, i.now);
            r.rtProp == u.rtProp && (r.stamp == u.stamp || r.stamp == i.now)
  {
    MeasuringFrame(cfg, s, i);
    var s1 := AfterMeasuring(cfg, s, i);
    DrainFrame(cfg, s1, i.now, i.draw);
    ProbingRtt(cfg, AfterRtt(cfg, AfterDrain(cfg, s1, i.now, i.draw), i.now), i.rs, i.now, i.draw);
    ControlFrame(cfg, AfterModel(cfg, s, i), i.rs);
  }

  /** Only ACKs change the estimate. */
  lemma StepRtt(cfg: Config, s: Sys, e: Event)
    requires s.b.isInitialized
    ensures var r := Step(cfg, s, e).b.rtt;
            if e.AckReceived? then
              var u := UpdatedRtt(cfg, s.b.rtt, e.net.lastRtt, e.At());
              r.rtProp == u.rtProp && (r.stamp == u.stamp || r.stamp == e.At())
            else r.rtProp == s.b.rtt.rtProp
  {
    var s0 := Refreshed(s, e.net);
    match e
    case AckReceived(_, i) => AckRtt(cfg, s0, i);
    case TransmissionStarted(_, now, _) => PacingFrame(cfg, Idled(s0, now), 1.0);
    case _ =>
  }

  /**
   The estimate before event k is the RTT that event m - 1, or the opening, measured,
   and no ACK since measured less.
   */
  ghost predicate IsMinimumSince(states: seq<Sys>, events: seq<Event>, m: nat, k: nat)
    requires m <= k <= |events| < |states|
  {
    var rtProp := states[k].b.rtt.rtProp;
    && (if m == 0 then rtProp == states[0].t.lastRtt
        else events[m - 1].AckReceived? && rtProp == events[m - 1].net.lastRtt)
    && forall j :: m <= j < k && events[j].AckReceived? ==> rtProp < events[j].net.lastRtt
  }

  /** How the estimate moves at event k. */
  ghost predicate RttMoves(cfg: Config, r: RttFilter, e: Event, r': RttFilter) {
    if !e.AckReceived? then r'.rtProp == r.rtProp
    else
      && r'.rtProp <= e.net.lastRtt && (r'.rtProp == e.net.lastRtt || r'.rtProp == r.rtProp)
      && e.At() <= r'.stamp + cfg.rtPropFilterLen
      && (r'.rtProp > r.rtProp <==> e.net.lastRtt > r.rtProp && e.At() > r.stamp + cfg.rtPropFilterLen)
  }

  lemma RttAt(cfg: Config, states: seq<Sys>, events: seq<Event>, k: nat)
    requires IsRun(cfg, states, events) && k < |events|
    ensures RttMoves(cfg, states[k].b.rtt, events[k], states[k + 1].b.rtt)
  {
    RunKeepsModes(cfg, states, events, k);
    assert StepAt(cfg, states, events, k);
    StepRtt(cfg, states[k], events[k]);
  }

  /**
   In every run the RTT estimate is the minimum of the RTTs since it was set;
   after an ACK at most the length of the filter has passed since its stamp,
   and it is not above the RTT of that ACK.
   */
  lemma {:induction false} EstimateIsMinimum(cfg: Config, states: seq<Sys>, events: seq<Event>, k: nat) returns (m: nat)
    requires IsRun(cfg, states, events) && k <= |events|
    ensures m <= k && IsMinimumSince(states, events, m, k)
    ensures k > 0 && events[k - 1].AckReceived? ==>
              && states[k].b.rtt.rtProp <= events[k - 1].net.lastRtt
              && events[k - 1].At() <= states[k].b.rtt.stamp + cfg.rtPropFilterLen
  {
    m := 0;
    if k > 0 {
      m := EstimateIsMinimum(cfg, states, events, k - 1);
      RttAt(cfg, states, events, k - 1);
      if events[k - 1].AckReceived? && states[k].b.rtt.rtProp == events[k - 1].net.lastRtt {
        m := k;
      }
    }
  }

  /** The estimate rises exactly at an ACK with a larger RTT that comes more than the filter length after its stamp. */
  lemma EstimateRisesIff(cfg: Config, states: seq<Sys>, events: seq<Event>, k: nat)
    requires IsRun(cfg, states, events) && k < |events|
    ensures states[k + 1].b.rtt.rtProp > states[k].b.rtt.rtProp
       <==> && events[k].AckReceived? && events[k].net.lastRtt > states[k].b.rtt.rtProp
            && events[k].At() > states[k].b.rtt.stamp + cfg.rtPropFilterLen
  {
    RttAt(cfg, states, events, k);
  }

  // The stamp

  /** An ACK whose RTT is not above the estimate, or that comes too late after the stamp, or the end of PROBE_RTT. */
  ghost predicate Stamps(cfg: Config, s: Sys, e: Event, s': Sys) {
    || (e.AckReceived? && (e.net.lastRtt <= s.b.rtt.rtProp || e.At() > s.b.rtt.stamp + cfg.rtPropFilterLen))
    || (Probing(s) && !Probing(s'))
  }

  lemma ProbingStamp(cfg: Config, s: Sys, rs: Sample, now: nat, draw: Draw)
    ensures var s' := AfterProbeRtt(cfg, s, rs, now, draw);
            s'.b.rtt.stamp == if Probing(s) && !Probing(s') then now else s.b.rtt.stamp
  {
    HandlingStamp(cfg, AfterProbeEntry(s), now, draw);
  }

  lemma HandlingStamp(cfg: Config, s: Sys, now: nat, draw: Draw)
    ensures var s' := HandledProbeRtt(cfg, s, now, draw);
            && (Probing(s) ==> s'.b.rtt.stamp == if Probing(s') then s.b.rtt.stamp else now)
            && (s.b.probe.doneStamp == 0 ==> s'.b.phase == s.b.phase)
  {
  }

  lemma AckStamp(cfg: Config, s: Sys, i: AckInput)
    ensures var s', u := AfterCongControl(cfg, s, i), UpdatedRtt(cfg, s.b.rtt, s.t.lastRtt, i.now);
            s'.b.rtt.stamp == if Probing(s) && !Probing(s') then i.now else u.stamp
  {
    MeasuringFrame(cfg, s, i);
    var s1 := AfterMeasuring(cfg, s, i);
    DrainFrame(cfg, s1, i.now, i.draw);
    ProbingStamp(cfg, AfterRtt(cfg, AfterDrain(cfg, s1, i.now, i.draw), i.now), i.rs, i.now, i.draw);
    ControlFrame(cfg, AfterModel(cfg, s, i), i.rs);
  }

  lemma AckStamps(cfg: Config, s: Sys, e: Event)
    requires e.AckReceived?
    ensures var s' := AfterCongControl(cfg, Refreshed(s, e.net), e.i);
            s'.b.rtt.stamp == if Stamps(cfg, s, e, s') then e.At() else s.b.rtt.stamp
  {
    AckStamp(cfg, Refreshed(s, e.net), e.i);
    StampCases(cfg, s, e, AfterCongControl(cfg, Refreshed(s, e.net), e.i));
  }

  lemma StampCases(cfg: Config, s: Sys, e: Event, s': Sys)
    requires e.AckReceived?
    requires s'.b.rtt.stamp == if Probing(s) && !Probing(s') then e.At()
                               else UpdatedRtt(cfg, s.b.rtt, e.net.lastRtt, e.At()).stamp
    ensures s'.b.rtt.stamp == if Stamps(cfg, s, e, s') then e.At() else s.b.rtt.stamp
  {
  }

  lemma StepStamp(cfg: Config, s: Sys, e: Event)
    requires s.b.isInitialized
    ensures var s' := Step(cfg, s, e);
            s'.b.rtt.stamp == if Stamps(cfg, s, e, s') then e.At() else s.b.rtt.stamp
  {
    match e
    case AckReceived(_, _) => AckStamps(cfg, s, e);
    case TransmissionStarted(net, now, _) => PacingFrame(cfg, Idled(Refreshed(s, net), now), 1.0);
    case _ =>
  }

  /** In every run the estimate's stamp is the time of the last event m that stamped it, or of the opening. */
  lemma {:induction false} RttStampIs(cfg: Config, states: seq<Sys>, events: seq<Event>, k: nat) returns (m: int)
    requires IsRun(cfg, states, events) && k <= |events|
    ensures -1 <= m < k && (m >= 0 ==> Stamps(cfg, states[m], events[m], states[m + 1]))
    ensures forall j :: m < j < k ==> !Stamps(cfg, states[j], events[j], states[j + 1])
    ensures states[k].b.rtt.stamp == if m < 0 then states[0].b.rtt.stamp else events[m].At()
  {
    m := -1;
    if k > 0 {
      m := RttStampIs(cfg, states, events, k - 1);
      RunKeepsModes(cfg, states, events, k - 1);
      assert StepAt(cfg, states, events, k - 1);
      StepStamp(cfg, states[k - 1], events[k - 1]);
      if Stamps(cfg, states[k - 1], events[k - 1], states[k]) {
        m := k - 1;
      }
    }
  }

  /** The opening stamps the estimate, and starts the sampling epoch of ack aggregation. */
  lemma OpeningStamps(cfg: Config, states: seq<Sys>, events: seq<Event>, t: Tcb, now: nat)
    requires IsRun(cfg, states, events) && WasOpened(cfg, states[0], events, t, now)
    ensures states[0].b.rtt == RttFilter(t.lastRtt, now, false) && states[0].b.agg == Aggregation(0, 0, 0, 0, now, 0)
  {
  }
}
