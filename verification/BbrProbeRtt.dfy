/** When BBR probes the round-trip time, and for how long, over whole runs. */
module BbrProbeRtt {
  import opened SocketState
  import opened RateTypes
  import opened BbrModel
  import opened BbrRuns
  import opened BbrModes
  import opened BbrWindows

  /** Event k starts a stay in PROBE_RTT. */
  ghost predicate Enters(states: seq<Sys>, k: nat)
    requires k + 1 < |states|
  {
    !Probing(states[k]) && Probing(states[k + 1])
  }

  // How an event treats the RTT filter and the probe

  /** The state in which an ACK meets CheckProbeRTT. */
  function BeforeProbe(cfg: Config, s: Sys, i: AckInput): Sys {
    AfterRtt(cfg, AfterDrain(cfg, AfterMeasuring(cfg, s, i), i.now, i.draw), i.now)
  }

  lemma BeforeProbeKeeps(cfg: Config, s: Sys, i: AckInput)
    ensures var s2 := BeforeProbe(cfg, s, i);
            && s2.b.probe == s.b.probe && (Probing(s2) <==> Probing(s)) && s2.b.minPipeCwnd == s.b.minPipeCwnd
            && s2.t.bytesInFlight == s.t.bytesInFlight
            && s2.b.round == AfterMeasuring(cfg, s, i).b.round
            && (s2.b.rtt.expired <==> i.now > s.b.rtt.stamp + cfg.rtPropFilterLen)
            && (s2.b.rtt.stamp == i.now || (s2.b.rtt.stamp == s.b.rtt.stamp && !s2.b.rtt.expired))
  {
    MeasuringFrame(cfg, s, i);
    DrainFrame(cfg, AfterMeasuring(cfg, s, i), i.now, i.draw);
  }

  /** What CheckProbeRTT does with the probe, case by case. */
  lemma ProbeCases(cfg: Config, s: Sys, rs: Sample, now: nat, draw: Draw)
    ensures var s' := AfterProbeRtt(cfg, s, rs, now, draw);
            var enters := !Probing(s) && s.b.rtt.expired && !s.b.idleRestart;
            var stamp := if enters then 0 else s.b.probe.doneStamp;
            && (!Probing(s) && !enters ==> !Probing(s') && s'.b.rtt == s.b.rtt)
            && (Probing(s) || enters ==>
                  if stamp == 0 then
                    && Probing(s') && s'.b.rtt == s.b.rtt
                    && s'.b.probe == if s.t.bytesInFlight <= s.b.minPipeCwnd
                                     then Probe(now + cfg.probeRttDuration, false)
                                     else Probe(0, s.b.probe.roundDone)
                  else
                    && (Probing(s') <==> !((s.b.probe.roundDone || s.b.round.start) && now > stamp))
                    && s'.b.probe == Probe(stamp, s.b.probe.roundDone || s.b.round.start)
                    && s'.b.rtt.stamp == (if Probing(s') then s.b.rtt.stamp else now))
  {
  }

  /** The stamp of the RTT filter moves only forward, to the present. */
  lemma StampStep(cfg: Config, s: Sys, e: Event)
    requires s.b.isInitialized && s.b.rtt.stamp <= e.At()
    ensures var s' := Step(cfg, s, e);
            && s.b.rtt.stamp <= s'.b.rtt.stamp <= e.At()
            && (!Probing(s) && Probing(s') ==> s'.b.rtt.stamp == e.At() > s.b.rtt.stamp + cfg.rtPropFilterLen)
  {
    var s0 := Refreshed(s, e.net);
    match e
    case AckReceived(_, i) =>
      var s2 := BeforeProbe(cfg, s0, i);
      BeforeProbeKeeps(cfg, s0, i);
      ProbeCases(cfg, s2, i.rs, i.now, i.draw);
      ControlFrame(cfg, AfterModel(cfg, s0, i), i.rs);
    case TransmissionStarted(_, now, _) => PacingFrame(cfg, Idled(s0, now), 1.0);
    case _ =>
  }

  lemma {:induction false} StampsInRun(cfg: Config, states: seq<Sys>, events: seq<Event>, k: nat)
    requires IsRun(cfg, states, events) && k <= |events|
    ensures forall j :: k <= j < |events| ==> states[k].b.rtt.stamp <= events[j].At()
  {
    if k > 0 {
      StampsInRun(cfg, states, events, k - 1);
      StampAt(cfg, states, events, k - 1);
    }
  }

  lemma StampAt(cfg: Config, states: seq<Sys>, events: seq<Event>, k: nat)
    requires IsRun(cfg, states, events) && k < |events| && states[k].b.rtt.stamp <= events[k].At()
    ensures states[k].b.rtt.stamp <= states[k + 1].b.rtt.stamp <= events[k].At()
    ensures Enters(states, k) ==>
              states[k + 1].b.rtt.stamp == events[k].At() > states[k].b.rtt.stamp + cfg.rtPropFilterLen
  {
    RunKeepsModes(cfg, states, events, k);
    assert StepAt(cfg, states, events, k);
    StampStep(cfg, states[k], events[k]);
  }

  lemma {:induction false} StampMonotone(cfg: Config, states: seq<Sys>, events: seq<Event>, i: nat, j: nat)
    requires IsRun(cfg, states, events) && i <= j <= |events|
    ensures states[i].b.rtt.stamp <= states[j].b.rtt.stamp
    decreases j
  {
    if i < j {
      StampMonotone(cfg, states, events, i, j - 1);
      StampsInRun(cfg, states, events, j - 1);
      StampAt(cfg, states, events, j - 1);
    }
  }

  /** Any two entries into PROBE_RTT are more than the length of the RTT filter apart. */
  lemma ProbesAreSpaced(cfg: Config, states: seq<Sys>, events: seq<Event>, i: nat, j: nat)
    requires IsRun(cfg, states, events) && i < j < |events| && Enters(states, i) && Enters(states, j)
    ensures events[j].At() > events[i].At() + cfg.rtPropFilterLen
  {
    StampsInRun(cfg, states, events, i);
    StampAt(cfg, states, events, i);
    StampMonotone(cfg, states, events, i + 1, j);
    StampsInRun(cfg, states, events, j);
    StampAt(cfg, states, events, j);
  }

  // How long a stay lasts

  /** An ACK that finds at most four segments in flight. */
  ghost predicate FindsDrained(cfg: Config, e: Event) {
    e.AckReceived? && e.net.bytesInFlight <= 4 * cfg.segmentSize
  }

  /** Event d is the first of the stay from event i on, before event k, that finds the pipe drained. */
  ghost predicate FirstDrained(cfg: Config, events: seq<Event>, i: nat, d: nat, k: nat) {
    && i <= d < k <= |events| && FindsDrained(cfg, events[d])
    && forall j :: i <= j < d ==> !FindsDrained(cfg, events[j])
  }

  /** An ACK whose rate sample starts a round, or that comes in a round start still in force. */
  ghost predicate SeesRoundStart(cfg: Config, s: Sys, e: Event) {
    e.AckReceived? && AfterMeasuring(cfg, Refreshed(s, e.net), e.i).b.round.start
  }

  ghost predicate SeenSince(cfg: Config, states: seq<Sys>, events: seq<Event>, d: nat, k: nat)
    requires k <= |events| < |states|
  {
    exists r: nat :: d < r < k && SeesRoundStart(cfg, states[r], events[r])
  }

  /** What the probe's fields say in the stay that event i started, before event k. */
  ghost predicate StayInv(cfg: Config, states: seq<Sys>, events: seq<Event>, i: nat, k: nat)
    requires i < k <= |events| < |states|
  {
    var p := states[k].b.probe;
    if p.doneStamp == 0 then forall j :: i <= j < k ==> !FindsDrained(cfg, events[j])
    else
      exists d: nat :: FirstDrained(cfg, events, i, d, k) && p.doneStamp == events[d].At() + cfg.probeRttDuration
        && (p.roundDone ==> SeenSince(cfg, states, events, d, k))
  }

  /**
   An event within a stay either leaves the probe alone or is an ACK that marks it;
   `starts` says whether it starts a round.
   */
  ghost predicate ProbeMoves(cfg: Config, s: Sys, e: Event, s': Sys, starts: bool) {
    var stamp := if Probing(s) then s.b.probe.doneStamp else 0;
    && (!Probing(s) && Probing(s') ==> e.AckReceived?)
    && (Probing(s) || Probing(s') ==>
          if !e.AckReceived? then s'.b.probe == s.b.probe
          else if stamp == 0 then
            s'.b.probe == if FindsDrained(cfg, e) then Probe(e.At() + cfg.probeRttDuration, false)
                          else Probe(0, s.b.probe.roundDone)
          else s'.b.probe == Probe(stamp, s.b.probe.roundDone || starts))
    && (Probing(s) && !Probing(s') && e.AckReceived? ==>
          stamp != 0 && e.At() > stamp && (s.b.probe.roundDone || starts))
    && (Probing(s) && e.TransmissionStarted? ==>
          (Probing(s') <==> !(s.b.appLimited != 0 && s.b.probe.roundDone && e.At() > stamp)))
    && (Probing(s) && !Probing(s') ==> e.AckReceived? || e.TransmissionStarted?)
  }

  lemma StayStep(cfg: Config, s: Sys, e: Event)
    requires s.b.minPipeCwnd == 4 * cfg.segmentSize && s.b.isInitialized
    ensures ProbeMoves(cfg, s, e, Step(cfg, s, e), SeesRoundStart(cfg, s, e))
  {
    var s0 := Refreshed(s, e.net);
    match e
    case AckReceived(_, i) => StayAck(cfg, s0, e);
    case TransmissionStarted(_, now, _) => PacingFrame(cfg, Idled(s0, now), 1.0);
    case _ =>
  }

  lemma StayAck(cfg: Config, s: Sys, e: Event)
    requires s.b.minPipeCwnd == 4 * cfg.segmentSize && e.AckReceived? && s == Refreshed(s, e.net)
    ensures ProbeMoves(cfg, s, e, AfterCongControl(cfg, s, e.i), AfterMeasuring(cfg, s, e.i).b.round.start)
  {
    var i := e.i;
    BeforeProbeKeeps(cfg, s, i);
    ProbeCases(cfg, BeforeProbe(cfg, s, i), i.rs, i.now, i.draw);
    ControlFrame(cfg, AfterModel(cfg, s, i), i.rs);
  }

  lemma StayAt(cfg: Config, states: seq<Sys>, events: seq<Event>, k: nat)
    requires IsRun(cfg, states, events) && k < |events|
    ensures ProbeMoves(cfg, states[k], events[k], states[k + 1], SeesRoundStart(cfg, states[k], events[k]))
  {
    RunKeepsModes(cfg, states, events, k);
    RunKeepsFloor(cfg, states, events, k);
    assert StepAt(cfg, states, events, k);
    StayStep(cfg, states[k], events[k]);
  }

  /** A stay does not start at time zero, so that its done stamp is never zero. */
  lemma EntryIsLater(cfg: Config, states: seq<Sys>, events: seq<Event>, i: nat)
    requires IsRun(cfg, states, events) && i < |events| && Enters(states, i)
    ensures events[i].At() > 0
  {
    StampsInRun(cfg, states, events, i);
    StampAt(cfg, states, events, i);
  }

  lemma {:induction false} StayKeeps(cfg: Config, states: seq<Sys>, events: seq<Event>, i: nat, k: nat)
    requires IsRun(cfg, states, events) && i < k <= |events| && events[i].At() > 0
    requires !Probing(states[i]) && forall j :: i < j <= k ==> Probing(states[j])
    ensures StayInv(cfg, states, events, i, k)
    decreases k
  {
    if k == i + 1 {
      StayBegins(cfg, states, events, i);
    } else {
      StayKeeps(cfg, states, events, i, k - 1);
      StayExtends(cfg, states, events, i, k - 1);
    }
  }

  lemma StayBegins(cfg: Config, states: seq<Sys>, events: seq<Event>, i: nat)
    requires IsRun(cfg, states, events) && i < |events| && events[i].At() > 0
    requires !Probing(states[i]) && Probing(states[i + 1])
    ensures StayInv(cfg, states, events, i, i + 1)
  {
    StayAt(cfg, states, events, i);
    if FindsDrained(cfg, events[i]) {
      assert FirstDrained(cfg, events, i, i, i + 1);
    }
  }

  lemma StayExtends(cfg: Config, states: seq<Sys>, events: seq<Event>, i: nat, k: nat)
    requires IsRun(cfg, states, events) && i < k < |events| && events[i].At() > 0
    requires Probing(states[k]) && Probing(states[k + 1]) && StayInv(cfg, states, events, i, k)
    ensures StayInv(cfg, states, events, i, k + 1)
  {
    StayAt(cfg, states, events, k);
    if states[k].b.probe.doneStamp == 0 {
      if FindsDrained(cfg, events[k]) {
        assert FirstDrained(cfg, events, i, k, k + 1);
      }
    } else {
      var d: nat :| FirstDrained(cfg, events, i, d, k)
          && states[k].b.probe.doneStamp == events[d].At() + cfg.probeRttDuration
        && (states[k].b.probe.roundDone ==> SeenSince(cfg, states, events, d, k));
      assert FirstDrained(cfg, events, i, d, k + 1);
      assert states[k + 1].b.probe.roundDone ==> SeenSince(cfg, states, events, d, k + 1);
    }
  }

  /**
   An ACK ends a stay in PROBE_RTT more than the probe duration after the
   first ACK of that stay that found at most four segments in flight, and
   not before a round start was seen after that.
   */
  lemma AckExitDwells(cfg: Config, states: seq<Sys>, events: seq<Event>, i: nat, j: nat) returns (d: nat, r: nat)
    requires IsRun(cfg, states, events) && i < j < |events|
    requires !Probing(states[i]) && (forall k :: i < k <= j ==> Probing(states[k])) && !Probing(states[j + 1])
    requires events[j].AckReceived?
    ensures FirstDrained(cfg, events, i, d, j) && events[j].At() > events[d].At() + cfg.probeRttDuration
    ensures d < r <= j && SeesRoundStart(cfg, states[r], events[r])
  {
    EntryIsLater(cfg, states, events, i);
    StayKeeps(cfg, states, events, i, j);
    StayAt(cfg, states, events, j);
    var p := states[j].b.probe;
    d :| FirstDrained(cfg, events, i, d, j) && p.doneStamp == events[d].At() + cfg.probeRttDuration
      && (p.roundDone ==> SeenSince(cfg, states, events, d, j));
    if p.roundDone {
      r :| d < r < j && SeesRoundStart(cfg, states[r], events[r]);
    } else {
      r := j;
    }
  }

  /**
   A stay that the start of a transmission ends had the same dwell exactly if
   the done stamp was set in it; otherwise no ACK of the stay ever found the
   pipe drained.
   */
  lemma TransmissionExitDwellsIff(cfg: Config, states: seq<Sys>, events: seq<Event>, i: nat, j: nat)
    requires IsRun(cfg, states, events) && i < j < |events|
    requires !Probing(states[i]) && (forall k :: i < k <= j ==> Probing(states[k])) && !Probing(states[j + 1])
    requires events[j].TransmissionStarted?
    ensures (exists d: nat :: FirstDrained(cfg, events, i, d, j) &&
                              events[j].At() > events[d].At() + cfg.probeRttDuration)
       <==> states[j].b.probe.doneStamp != 0
  {
    EntryIsLater(cfg, states, events, i);
    StayKeeps(cfg, states, events, i, j);
    StayAt(cfg, states, events, j);
  }

  /**
   Such an exit does happen: a round-done mark left from an earlier stay ends
   the next one, after a timeout has emptied the pipe without an ACK, and no ACK
   of the second stay ever found the pipe drained.
   */
  lemma StaleMarkEndsStay() returns (cfg: Config, states: seq<Sys>, events: seq<Event>)
    ensures IsRun(cfg, states, events) && |events| == 6 && cfg.probeRttDuration > 0
    ensures Enters(states, 3) && events[5].TransmissionStarted? && Probing(states[4]) && Probing(states[5])
        && !Probing(states[6])
    ensures events[5].At() == events[3].At() && forall k :: 3 <= k < 6 ==> !FindsDrained(cfg, events[k])
  {
    cfg, states, events := FirstStay();
    states, events := OneMoreAck(cfg, states, events, Net(100, 5, 5, 0), 29);
    states, events := OneMoreTimeout(cfg, states, events, TimedOut(Net(0, 5, 5, 0), 29, true));
    states, events := OneMoreExit(cfg, states, events, TransmissionStarted(Net(0, 5, 5, 0), 29, 0));
  }

  /** One-byte segments and a window of a hundred of them. */
  const ONE_BYTE := Config(2.0, 10, 1, 0, 5, 4096, 1, 100, 100, 1)

  /** A first, regular stay, which leaves its mark. */
  lemma FirstStay() returns (cfg: Config, states: seq<Sys>, events: seq<Event>)
    ensures IsRun(cfg, states, events) && |events| == 3 && cfg == ONE_BYTE
    ensures Quiet(states[3]) && !Probing(states[3]) && states[3].b.probe == Probe(17, true)
        && states[3].b.rtt.stamp == 18 && states[3].b.pipe.count <= 1
    ensures events[2].At() == 18
  {
    cfg, states, events := FirstEntry();
    states, events := OneMoreTimeout(cfg, states, events, TimedOut(Net(0, 5, 5, 0), 17, true));
    states, events := OneMoreAck(cfg, states, events, Net(0, 5, 5, 0), 18);
  }

  lemma FirstEntry() returns (cfg: Config, states: seq<Sys>, events: seq<Event>)
    ensures IsRun(cfg, states, events) && |events| == 1 && cfg == ONE_BYTE
    ensures Quiet(states[1]) && Probing(states[1]) && states[1].b.probe == Probe(17, false)
    ensures states[1].b.rtt.stamp == 16 && states[1].b.pipe.count == 0 && events[0].At() == 16
  {
    cfg := ONE_BYTE;
    var s0 := JustOpened(cfg);
    states, events := FirstAck(cfg, s0, Net(4, 5, 5, 0), 16);
  }

  lemma FirstAck(cfg: Config, s: Sys, net: Net, now: nat) returns (states: seq<Sys>, events: seq<Event>)
    requires cfg.extraAckedGain == 0 && Quiet(s) && QuietCount(s) <= 2 && net.lastRtt == 5 && net.minRtt == 5
    requires forall e: Event :: now == e.At() ==> Starts(cfg, s, [e])
    ensures IsRun(cfg, states, events) && |events| == 1 && events[0].At() == now
    ensures QuietlyAcked(cfg, s, net, now, states[1])
  {
    var e, s' := QuietAck(cfg, s, net, now);
    states, events := FirstStep(cfg, s, e, s');
  }

  /** `states'` and `events'` go one event further. */
  ghost predicate GoesOn(cfg: Config, states: seq<Sys>, events: seq<Event>, states': seq<Sys>, events': seq<Event>,
          now: nat) {
    && IsRun(cfg, states', events') && |states'| == |states| + 1 && |events'| == |events| + 1
    && states'[..|states|] == states && events'[..|events|] == events && events'[|events|].At() == now
  }

  lemma OneMoreAck(cfg: Config, states: seq<Sys>, events: seq<Event>, net: Net, now: nat)
      returns (states': seq<Sys>, events': seq<Event>)
    requires IsRun(cfg, states, events) && events != [] && events[|events| - 1].At() <= now
    requires cfg.extraAckedGain == 0 && Quiet(states[|events|]) && net.lastRtt == 5 && net.minRtt == 5
    requires QuietCount(states[|events|]) <= 2
    ensures GoesOn(cfg, states, events, states', events', now)
    ensures events'[|events|].AckReceived? && events'[|events|].net == net
    ensures QuietlyAcked(cfg, states[|events|], net, now, states'[|states|])
  {
    var e, s := QuietAck(cfg, states[|events|], net, now);
    states', events' := OneMoreStep(cfg, states, events, e, s);
  }

  lemma OneMoreTimeout(cfg: Config, states: seq<Sys>, events: seq<Event>, e: Event)
      returns (states': seq<Sys>, events': seq<Event>)
    requires IsRun(cfg, states, events) && events != [] && events[|events| - 1].At() <= e.At()
    requires e.TimedOut? && e.queried && Quiet(states[|events|]) && Probing(states[|events|])
    requires e.net.lastRtt == 5 && e.net.minRtt == 5
    ensures GoesOn(cfg, states, events, states', events', e.At()) && events'[|events|] == e
    ensures var s, s' := states[|events|], states'[|states|];
            s'.b.appLimited == s.b.appLimited && Quiet(s') && Probing(s') && s'.b.round.start
                && s'.b.probe == s.b.probe && s'.b.rtt == s.b.rtt && s'.b.pipe == s.b.pipe
  {
    var s := QuietTimeout(cfg, states[|events|], e);
    states', events' := OneMoreStep(cfg, states, events, e, s);
  }

  lemma OneMoreExit(cfg: Config, states: seq<Sys>, events: seq<Event>, e: Event)
      returns (states': seq<Sys>, events': seq<Event>)
    requires IsRun(cfg, states, events) && events != [] && events[|events| - 1].At() <= e.At()
    requires e.TransmissionStarted? && e.net.bytesInFlight == 0 && e.At() > 0 && cfg.segmentSize == 1
    requires e.net.lastRtt == 5 && e.net.minRtt == 5
    requires var s := states[|events|]; Quiet(s) && Probing(s) && s.b.probe == Probe(0, true) && s.b.appLimited != 0
    ensures GoesOn(cfg, states, events, states', events', e.At()) && events'[|events|] == e
        && !Probing(states'[|states|])
  {
    var s := Step(cfg, states[|events|], e);
    StayStep(cfg, states[|events|], e);
    states', events' := OneMoreStep(cfg, states, events, e, s);
  }

  lemma JustOpened(cfg: Config) returns (s: Sys)
    requires cfg.segmentSize == 1 && cfg.initialCWnd == 100
    ensures forall e: Event :: 5 <= e.At() ==> Starts(cfg, s, [e])
    ensures Quiet(s) && !Probing(s) && s.b.rtt == RttFilter(5, 5, false) && s.b.pipe.count == 0 && !s.b.round.start
  {
    var t := Tcb(100, 100, 0, Open, 5, 5, 0, true, 0);
    s := Opened(cfg, t, 5);
    assert forall e: Event :: 5 <= e.At() ==> WasOpened(cfg, s, [e], t, 5);
  }

  lemma QuietTimeout(cfg: Config, s: Sys, e: Event) returns (s': Sys)
    requires e.TimedOut? && Quiet(s) && Probing(s) && e.net.lastRtt == 5 && e.net.minRtt == 5
    ensures s' == Step(cfg, s, e) && Quiet(s') && Probing(s')
    ensures s'.b.round.start && s'.b.probe == s.b.probe && s'.b.rtt == s.b.rtt && s'.b.appLimited == s.b.appLimited
        && s'.b.pipe == s.b.pipe
  {
    s' := Step(cfg, s, e);
  }

  /** The pipe is not filled, segments are one byte long, and every RTT so far was five ticks. */
  ghost predicate Quiet(s: Sys) {
    && (s.b.phase.mode == Startup || Probing(s))
    && !s.b.pipe.filled && !s.b.idleRestart && s.b.minPipeCwnd == 4 && s.b.isInitialized
    && s.t.lastRtt == 5 && s.t.minRtt == 5
  }

  /** How far the full-pipe detector may have counted after another ACK. */
  function QuietCount(s: Sys): nat {
    s.b.pipe.count + if s.b.round.start then 1 else 0
  }

  /** The model before CheckProbeRTT after an ACK without a rate sample. */
  lemma QuietBeforeProbe(cfg: Config, s: Sys, i: AckInput)
    requires i.rs.deliveryRate == 0 && cfg.extraAckedGain == 0 && Quiet(s) && QuietCount(s) <= 2
    ensures var s' := BeforeProbe(cfg, s, i);
            var s1 := AfterRtt(cfg, WithConnection(s, i.rc), i.now);
            s' == s1.(b := s1.b.(pipe := s'.b.pipe)) && !s'.b.pipe.filled && s'.b.pipe.count <= QuietCount(s)
  {
    var b := WithConnection(s, i.rc).b;
    assert AfterAggregation(cfg, AfterBtlBw(b, i.rs, i.best), i.rs, i.now, s.t.cWnd) == b;
    var s1 := AfterMeasuring(cfg, s, i);
    assert s1 == WithConnection(s, i.rc).(b := AfterFullPipe(b, i.rs));
    assert AfterDrain(cfg, s1, i.now, i.draw) == s1;
  }

  lemma QuietProbe(cfg: Config, s: Sys, rs: Sample, now: nat, draw: Draw)
    requires Quiet(s)
    ensures var s' := AfterProbeRtt(cfg, s, rs, now, draw);
            Quiet(s') && s'.b.pipe == s.b.pipe && (Probing(s') ==> s'.b.appLimited != 0)
  {
    ProbeRttFrame(cfg, s, rs, now, draw);
  }

  lemma QuietControl(cfg: Config, s: Sys, rs: Sample)
    requires Quiet(s)
    ensures var s' := AfterControl(cfg, s, rs); Quiet(s') && s'.b.pipe == s.b.pipe && s'.b.appLimited == s.b.appLimited
  {
    ControlFrame(cfg, s, rs);
  }

  /** What an ACK without a rate sample does to the probe, with the RTT filter refreshed. */
  ghost predicate QuietlyAcked(cfg: Config, s: Sys, net: Net, now: nat, s': Sys) {
    var rtt := UpdatedRtt(cfg, s.b.rtt, net.lastRtt, now);
    var enters := !Probing(s) && rtt.expired;
    var stamp := if enters then 0 else s.b.probe.doneStamp;
    var done := s.b.probe.roundDone || s.b.round.start;
    && Quiet(s') && s'.b.pipe.count <= QuietCount(s) && (Probing(s') ==> s'.b.appLimited != 0)
    && (Probing(s) || enters ==>
          if stamp == 0 then
            && Probing(s') && s'.b.rtt == rtt
            && s'.b.probe == (if net.bytesInFlight <= 4 then Probe(now + cfg.probeRttDuration, false)
                              else Probe(0, s.b.probe.roundDone))
          else
            && (Probing(s') <==> !(done && now > stamp)) && s'.b.probe == Probe(stamp, done)
            && s'.b.rtt.stamp == (if Probing(s') then rtt.stamp else now))
  }

  lemma QuietAck(cfg: Config, s: Sys, net: Net, now: nat) returns (e: Event, s': Sys)
    requires cfg.extraAckedGain == 0 && Quiet(s) && QuietCount(s) <= 2 && net.lastRtt == 5 && net.minRtt == 5
    ensures e.AckReceived? && e.net == net && e.At() == now && s' == Step(cfg, s, e)
    ensures QuietlyAcked(cfg, s, net, now, s')
  {
    var rs := Sample(0, false, 0, -1, 0, 0, 0, 0, 0, 0, 0);
    var i := AckInput(Connection(0, 0, 0, 0, 0, 0, 0, false), rs, now, 0, 0);
    e := AckReceived(net, i);
    s' := Step(cfg, s, e);
    var s0 := Refreshed(s, net);
    var s2 := BeforeProbe(cfg, s0, i);
    QuietBeforeProbe(cfg, s0, i);
    ProbeCases(cfg, s2, rs, now, 0);
    QuietProbe(cfg, s2, rs, now, 0);
    ControlFrame(cfg, AfterModel(cfg, s0, i), rs);
    QuietControl(cfg, AfterModel(cfg, s0, i), rs);
  }
}
