/** Packet-timed rounds of BBR and packet conservation, over whole runs. */
module BbrRounds {
  import opened RateTypes
  import opened BbrModel
  import opened BbrRuns
  import opened BbrModes

  /** A sample that tells a rate. */
  ghost predicate HasRate(rs: Sample) {
    rs.deliveryRate != 0 && (rs.priorTime != 0 || rs.interval != 0)
  }

  /** The sampled packet was sent when everything up to the mark of the round was delivered. */
  ghost predicate StartsRound(s: Sys, e: Event) {
    e.AckReceived? && HasRate(e.i.rs) && e.i.rs.priorDelivered >= s.b.round.nextDelivered
  }

  // How an event treats the round

  lemma MeasuringRound(cfg: Config, s: Sys, i: AckInput)
    ensures var b, b' := AfterMeasuring(cfg, s, i).b, AfterBtlBw(WithConnection(s, i.rc).b, i.rs, i.best);
            b.round == b'.round && b.packetConservation == b'.packetConservation && b.best == b'.best
                && b.delivered == i.rc.delivered
  {
    var s0 := WithConnection(s, i.rc);
    BtlBwFrame(s0.b, i.rs, i.best);
    AggregationFrame(cfg, AfterBtlBw(s0.b, i.rs, i.best), i.rs, i.now, s.t.cWnd);
    var s1 := s0.(b := AfterAggregation(cfg, AfterBtlBw(s0.b, i.rs, i.best), i.rs, i.now, s.t.cWnd));
    CyclePhaseFrame(cfg, s1, i.rs, i.now);
    FullPipeFrame(AfterCyclePhase(cfg, s1, i.rs, i.now).b, i.rs);
  }

  lemma HandlingRound(cfg: Config, s: Sys, now: nat, draw: Draw)
    ensures var r := HandledProbeRtt(cfg, s, now, draw).b.round;
            r == s.b.round || r == s.b.round.(nextDelivered := s.b.delivered)
  {
  }

  lemma ProbingRound(cfg: Config, s: Sys, rs: Sample, now: nat, draw: Draw)
    ensures var r := AfterProbeRtt(cfg, s, rs, now, draw).b.round;
            r == s.b.round || r == s.b.round.(nextDelivered := s.b.delivered)
  {
    HandlingRound(cfg, AfterProbeEntry(s), now, draw);
  }

  /** CheckProbeRTT may move the mark to what is delivered now; nothing after it touches the round. */
  lemma AckRound(cfg: Config, s: Sys, i: AckInput)
    ensures var b, b' := AfterBtlBw(WithConnection(s, i.rc).b, i.rs, i.best), AfterCongControl(cfg, s, i).b;
            && (b'.round == b.round || b'.round == b.round.(nextDelivered := i.rc.delivered))
            && b'.packetConservation == b.packetConservation
  {
    MeasuringRound(cfg, s, i);
    MeasuringFrame(cfg, s, i);
    var s1 := AfterMeasuring(cfg, s, i);
    DrainFrame(cfg, s1, i.now, i.draw);
    var s2 := AfterRtt(cfg, AfterDrain(cfg, s1, i.now, i.draw), i.now);
    ProbingRound(cfg, s2, i.rs, i.now, i.draw);
    ProbeRttFrame(cfg, s2, i.rs, i.now, i.draw);
    ControlFrame(cfg, AfterModel(cfg, s, i), i.rs);
  }

  ghost predicate RoundMoves(s: Sys, e: Event, s': Sys) {
    var r, r' := s.b.round, s'.b.round;
    && r'.count == r.count + (if StartsRound(s, e) then 1 else 0)
    && (r'.nextDelivered == r.nextDelivered || (e.AckReceived? && r'.nextDelivered == e.i.rc.delivered))
    && (StartsRound(s, e) ==> r'.nextDelivered == e.i.rc.delivered)
    && (r'.start <==> if e.AckReceived? && HasRate(e.i.rs) then StartsRound(s, e) else r.start || e.TimedOut?)
  }

  ghost predicate ConservationMoves(s: Sys, e: Event, s': Sys) {
    s'.b.packetConservation <==>
      e.RecoveryEntered? || (s.b.packetConservation && !e.RecoveryLeft? && !StartsRound(s, e))
  }

  lemma AckMovesRound(cfg: Config, s: Sys, e: Event)
    requires e.AckReceived?
    ensures RoundMoves(s, e, AfterCongControl(cfg, Refreshed(s, e.net), e.i))
  {
    AckRound(cfg, Refreshed(s, e.net), e.i);
  }

  lemma StepRound(cfg: Config, s: Sys, e: Event)
    requires s.b.isInitialized && Possible(s, e)
    ensures RoundMoves(s, e, Step(cfg, s, e))
  {
    var s0 := Refreshed(s, e.net);
    match e
    case AckReceived(_, _) => AckMovesRound(cfg, s, e);
    case TransmissionStarted(_, now, _) => PacingFrame(cfg, Idled(s0, now), 1.0);
    case _ =>
  }

  lemma StepConservation(cfg: Config, s: Sys, e: Event)
    requires s.b.isInitialized && Possible(s, e)
    ensures ConservationMoves(s, e, Step(cfg, s, e))
  {
    var s0 := Refreshed(s, e.net);
    match e
    case AckReceived(_, i) => AckRound(cfg, s0, i);
    case TransmissionStarted(_, now, _) => PacingFrame(cfg, Idled(s0, now), 1.0);
    case _ =>
  }

  lemma RoundAt(cfg: Config, states: seq<Sys>, events: seq<Event>, k: nat)
    requires IsRun(cfg, states, events) && k < |events|
    ensures RoundMoves(states[k], events[k], states[k + 1]) && ConservationMoves(states[k], events[k], states[k + 1])
  {
    RunKeepsModes(cfg, states, events, k);
    assert StepAt(cfg, states, events, k);
    StepRound(cfg, states[k], events[k]);
    StepConservation(cfg, states[k], events[k]);
  }

  // Rounds

  ghost function RoundStarts(states: seq<Sys>, events: seq<Event>, k: nat): nat
    requires k <= |events| < |states|
  {
    if k == 0 then 0
    else RoundStarts(states, events, k - 1) + (if StartsRound(states[k - 1], events[k - 1]) then 1 else 0)
  }

  /** The round count counts the rounds; the start mark belongs to the last rated ACK or a timeout since. */
  lemma {:induction false} RoundCountIs(cfg: Config, states: seq<Sys>, events: seq<Event>, k: nat) returns (m: int)
    requires IsRun(cfg, states, events) && k <= |events|
    ensures states[k].b.round.count == RoundStarts(states, events, k)
    ensures -1 <= m < k && (m >= 0 ==> events[m].TimedOut? || (events[m].AckReceived? && HasRate(events[m].i.rs)))
    ensures forall j :: m < j < k ==> !events[j].TimedOut? && !(events[j].AckReceived? && HasRate(events[j].i.rs))
    ensures states[k].b.round.start <==> m >= 0 && (events[m].TimedOut? || StartsRound(states[m], events[m]))
  {
    m := -1;
    if k > 0 {
      m := RoundCountIs(cfg, states, events, k - 1);
      RoundAt(cfg, states, events, k - 1);
      var e := events[k - 1];
      if e.TimedOut? || (e.AckReceived? && HasRate(e.i.rs)) {
        m := k - 1;
      }
    }
  }

  /** What the connection has delivered never decreases from ACK to ACK. */
  ghost predicate DeliveredGrows(events: seq<Event>) {
    forall i, j :: 0 <= i < j < |events| && events[i].AckReceived? && events[j].AckReceived? ==>
      events[i].i.rc.delivered <= events[j].i.rc.delivered
  }

  lemma {:induction false} MarkStays(cfg: Config, states: seq<Sys>, events: seq<Event>, i: nat, k: nat)
    requires IsRun(cfg, states, events) && DeliveredGrows(events) && i < k <= |events|
    requires StartsRound(states[i], events[i])
    ensures states[k].b.round.nextDelivered >= events[i].i.rc.delivered
    decreases k
  {
    RoundAt(cfg, states, events, k - 1);
    if i + 1 < k {
      MarkStays(cfg, states, events, i, k - 1);
    }
  }

  /**
   Between two round starts lies a packet's way there and back: the packet whose
   ACK starts the later one was sent when all that was delivered at the
   earlier one was.
   */
  lemma RoundsAreSpaced(cfg: Config, states: seq<Sys>, events: seq<Event>, i: nat, j: nat)
    requires IsRun(cfg, states, events) && DeliveredGrows(events) && i < j < |events|
    requires StartsRound(states[i], events[i]) && StartsRound(states[j], events[j])
    ensures events[j].i.rs.priorDelivered >= events[i].i.rc.delivered
  {
    MarkStays(cfg, states, events, i, j);
  }

  /** The mark is what was delivered at some ACK, so that a packet sent after all of these starts a round. */
  lemma {:induction false} RoundsGoOn(cfg: Config, states: seq<Sys>, events: seq<Event>, k: nat)
    requires IsRun(cfg, states, events) && k < |events| && events[k].AckReceived? && HasRate(events[k].i.rs)
    requires forall j :: 0 <= j < k && events[j].AckReceived? ==>
               events[k].i.rs.priorDelivered >= events[j].i.rc.delivered
    ensures StartsRound(states[k], events[k])
  {
    MarkIsDelivered(cfg, states, events, k);
  }

  lemma {:induction false} MarkIsDelivered(cfg: Config, states: seq<Sys>, events: seq<Event>, k: nat)
    requires IsRun(cfg, states, events) && k <= |events|
    ensures var mark := states[k].b.round.nextDelivered;
            mark == 0 || exists j :: 0 <= j < k && events[j].AckReceived? && events[j].i.rc.delivered == mark
  {
    if k > 0 {
      MarkIsDelivered(cfg, states, events, k - 1);
      RoundAt(cfg, states, events, k - 1);
    }
  }

  // Packet conservation

  /** Event i entered a recovery, and before event k neither its end nor a round start came. */
  ghost predicate ConservesFrom(states: seq<Sys>, events: seq<Event>, i: nat, k: nat)
    requires k <= |events| < |states|
  {
    && i < k && events[i].RecoveryEntered?
    && forall j :: i < j < k ==> !events[j].RecoveryLeft? && !StartsRound(states[j], events[j])
  }

  /** Packet conservation lasts from the entry into a recovery to its end or to the next round, whichever is first. */
  lemma {:induction false} ConservesIff(cfg: Config, states: seq<Sys>, events: seq<Event>, k: nat)
    requires IsRun(cfg, states, events) && k <= |events|
    ensures states[k].b.packetConservation <==> exists i: nat :: ConservesFrom(states, events, i, k)
  {
    if k > 0 {
      ConservesIff(cfg, states, events, k - 1);
      RoundAt(cfg, states, events, k - 1);
      if states[k].b.packetConservation {
        if events[k - 1].RecoveryEntered? {
          assert ConservesFrom(states, events, k - 1, k);
        } else {
          var i: nat :| ConservesFrom(states, events, i, k - 1);
          assert ConservesFrom(states, events, i, k);
        }
      } else if i: nat :| ConservesFrom(states, events, i, k) {
        assert i < k - 1 ==> ConservesFrom(states, events, i, k - 1);
      }
    }
  }
}
