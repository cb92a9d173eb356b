/** The pacing rate of BBR over whole runs. */
module BbrPacing {
  import opened Arithmetic
  import opened RateTypes
  import opened BbrModel
  import opened BbrRuns
  import opened BbrModes
  import opened BbrStartup
  import opened BbrRounds
  import opened BbrGrowth
  import opened BbrCycle

  /** How the rate may move once a round-trip time is known. */
  ghost predicate RateMoves(cfg: Config, s: Sys, s': Sys) {
    && s'.b.hasSeenRtt
    && (!s'.b.pipe.filled ==> s'.t.pacingRate >= s.t.pacingRate)
    && s'.t.pacingRate <= Max(s.t.pacingRate, cfg.maxPacingRate)
  }

  lemma PacingMoves(cfg: Config, s: Sys, gain: real)
    requires s.b.hasSeenRtt
    ensures var s' := AfterPacingRate(cfg, s, gain);
            && RateMoves(cfg, s, s') && s'.b == s.b
            && (s.b.pipe.filled ==> s'.t.pacingRate == Min(PacedRate(gain, s.b.best), cfg.maxPacingRate))
  {
  }

  lemma AckMoves(cfg: Config, s: Sys, i: AckInput)
    requires s.b.hasSeenRtt
    ensures var s' := AfterCongControl(cfg, s, i);
            && RateMoves(cfg, s, s')
            && (s'.b.pipe.filled ==>
                  s'.t.pacingRate == Min(PacedRate(s'.b.phase.pacingGain, s'.b.best), cfg.maxPacingRate))
  {
    MeasuringFrame(cfg, s, i);
    var s1 := AfterMeasuring(cfg, s, i);
    DrainFrame(cfg, s1, i.now, i.draw);
    ProbeRttFrame(cfg, AfterRtt(cfg, AfterDrain(cfg, s1, i.now, i.draw), i.now), i.rs, i.now, i.draw);
    ControlMoves(cfg, AfterModel(cfg, s, i), i.rs);
  }

  lemma ControlMoves(cfg: Config, s: Sys, rs: Sample)
    requires s.b.hasSeenRtt
    ensures var s' := AfterControl(cfg, s, rs);
            && RateMoves(cfg, s, s')
            && (s'.b.pipe.filled ==>
                  s'.t.pacingRate == Min(PacedRate(s'.b.phase.pacingGain, s'.b.best), cfg.maxPacingRate))
  {
    PacingMoves(cfg, s, s.b.phase.pacingGain);
    var s1 := AfterPacingRate(cfg, s, s.b.phase.pacingGain);
    CwndFrame(cfg, s1.(b := s1.b.(sendQuantum := cfg.segmentSize)), rs);
  }

  lemma StepMoves(cfg: Config, s: Sys, e: Event)
    requires s.b.isInitialized && s.b.hasSeenRtt
    ensures RateMoves(cfg, s, Step(cfg, s, e))
  {
    var s0 := Refreshed(s, e.net);
    match e
    case AckReceived(_, i) => AckMoves(cfg, s0, i);
    case TransmissionStarted(_, now, _) => PacingMoves(cfg, Idled(s0, now), 1.0);
    case _ =>
  }

  /**
   From the first round-trip time on, the pacing rate never drops before the
   pipe is declared full, and never exceeds the configured maximum unless it
   did so before.
   */
  lemma {:induction false} RateRisesUntilFull(cfg: Config, states: seq<Sys>, events: seq<Event>, i: nat, j: nat)
    requires IsRun(cfg, states, events) && i <= j <= |events| && states[i].b.hasSeenRtt
    ensures states[j].b.hasSeenRtt && states[j].t.pacingRate <= Max(states[i].t.pacingRate, cfg.maxPacingRate)
    ensures !states[j].b.pipe.filled ==> states[i].t.pacingRate <= states[j].t.pacingRate
    decreases j
  {
    if i < j {
      RateRisesUntilFull(cfg, states, events, i, j - 1);
      RateMovesAt(cfg, states, events, j - 1);
    }
  }

  lemma RateMovesAt(cfg: Config, states: seq<Sys>, events: seq<Event>, k: nat)
    requires IsRun(cfg, states, events) && k < |events| && states[k].b.hasSeenRtt
    ensures RateMoves(cfg, states[k], states[k + 1])
    ensures states[k].b.pipe.filled ==> states[k + 1].b.pipe.filled
  {
    RunKeepsModes(cfg, states, events, k);
    assert StepAt(cfg, states, events, k);
    StepMoves(cfg, states[k], events[k]);
    RunPipe(cfg, states, events, k);
    StepPipe(cfg, states[k], events[k]);
  }

  // The rate itself

  /** The rate for a gain and a bandwidth: their product cut to a whole number, at most the configured maximum. */
  ghost predicate IsPacedAt(cfg: Config, rate: nat, gain: real, best: nat) {
    && rate <= cfg.maxPacingRate && rate as real <= gain * best as real
    && (rate == cfg.maxPacingRate || gain * best as real < rate as real + 1.0)
  }

  /** The bandwidth of a window over an RTT in whole milliseconds, at least one, also without an RTT. */
  ghost predicate IsNominal(best: nat, cWnd: nat, minRtt: nat) {
    var ms := if minRtt == TIME_MAX || minRtt < 1_000_000 then 1 else minRtt / 1_000_000;
    ms >= 1 && best * ms <= 8000 * cWnd < (best + 1) * ms
  }

  lemma NominalIs(t: Tcb)
    ensures IsNominal(NominalBandwidth(t), t.cWnd, t.minRtt)
  {
    var ms := if t.minRtt != TIME_MAX then Max(t.minRtt / 1_000_000, 1) else 1;
    QuotientBounds(t.cWnd * 8 * 1000, ms);
  }

  lemma PacedIs(gain: real, rate: nat)
    requires gain >= 0.0
    ensures PacedRate(gain, rate) as real <= gain * rate as real < PacedRate(gain, rate) as real + 1.0
  {
    assert gain * rate as real >= 0.0;
  }

  /** An event at which BBR sets the rate, and the gain it takes. */
  ghost predicate Paces(s: Sys, e: Event) {
    e.AckReceived? || (e.TransmissionStarted? && s.b.phase.mode == ProbeBw && s.b.appLimited != 0)
  }

  ghost function GainAt(s': Sys, e: Event): real {
    if e.AckReceived? then s'.b.phase.pacingGain else 1.0
  }

  /** The first known RTT, met at such an event. */
  ghost predicate Seeds(s: Sys, e: Event) {
    Paces(s, e) && !s.b.hasSeenRtt && e.net.minRtt != TIME_MAX
  }

  /** What an event at which BBR sets the rate finds: bandwidth, window and minimum RTT. */
  datatype Found = Found(best: nat, cWnd: nat, minRtt: nat)

  ghost function FoundAt(cfg: Config, s: Sys, e: Event, s': Sys): Found {
    if e.AckReceived? then Found(MeasuredBy(cfg, s, e).b.best, Held(s, s'), e.net.minRtt)
    else Found(s.b.best, s.t.cWnd, e.net.minRtt)
  }

  /** Whether an RTT has been seen, and the socket's pacing. */
  datatype Pace = Pace(seen: bool, pacing: bool, rate: nat)

  ghost function PaceOf(s: Sys): Pace {
    Pace(s.b.hasSeenRtt, s.t.pacing, s.t.pacingRate)
  }

  /**
   The rate c of gain and bandwidth is taken with a full pipe, before that only
   if it is higher than the rate before.  The first RTT seeds the rate before,
   and the bandwidth, with the nominal bandwidth of the window and the gain
   of the mode.
   */
  ghost predicate RateFrom(cfg: Config, p: Pace, q: Pace, b': Bbr, seeds: bool, f: Found, gain: real, c: nat,
                           before: nat) {
    && (q.seen <==> p.seen || seeds)
    && IsPacedAt(cfg, c, gain, f.best) && q.rate == (if b'.pipe.filled then c else Max(before, c))
    && if seeds then
         && IsNominal(b'.best, f.cWnd, f.minRtt) && q.pacing
         && before as real <= b'.phase.pacingGain * b'.best as real < before as real + 1.0
       else before == p.rate && b'.best == f.best && q.pacing == p.pacing
  }

  lemma SeededPacing(s: Sys)
    requires s.b.phase.pacingGain >= 0.0
    ensures var s1 := InitedPacing(s);
            && IsNominal(s1.b.best, s.t.cWnd, s.t.minRtt) && s1.t.pacing
            && s1.b == s.b.(hasSeenRtt := s1.b.hasSeenRtt, best := s1.b.best)
            && s1.t.pacingRate as real <= s.b.phase.pacingGain * s1.b.best as real < s1.t.pacingRate as real + 1.0
  {
    NominalIs(s.t);
    PacedIs(s.b.phase.pacingGain, NominalBandwidth(s.t));
  }

  lemma CandidateIs(cfg: Config, gain: real, best: nat)
    requires gain >= 0.0
    ensures IsPacedAt(cfg, Min(PacedRate(gain, best), cfg.maxPacingRate), gain, best)
  {
    PacedIs(gain, best);
  }

  lemma PacingFrom(cfg: Config, s: Sys, gain: real) returns (c: nat, before: nat)
    requires gain >= 0.0 && s.b.phase.pacingGain >= 0.0
    ensures var s' := AfterPacingRate(cfg, s, gain);
            RateFrom(cfg, PaceOf(s), PaceOf(s'), s'.b, !s.b.hasSeenRtt && s.t.minRtt != TIME_MAX,
                     Found(s.b.best, s.t.cWnd, s.t.minRtt), gain, c, before)
  {
    c := Min(PacedRate(gain, s.b.best), cfg.maxPacingRate);
    CandidateIs(cfg, gain, s.b.best);
    SeededPacing(s);
    before := if !s.b.hasSeenRtt && s.t.minRtt != TIME_MAX then InitedPacing(s).t.pacingRate else s.t.pacingRate;
  }

  lemma ControlRate(cfg: Config, s: Sys, rs: Sample)
    ensures var s1, s' := AfterPacingRate(cfg, s, s.b.phase.pacingGain), AfterControl(cfg, s, rs);
            && s'.b == s1.b.(sendQuantum := cfg.segmentSize, targetCWnd := s'.b.targetCWnd)
            && s'.t == s1.t.(cWnd := s'.t.cWnd)
  {
    var s1 := AfterPacingRate(cfg, s, s.b.phase.pacingGain);
    CwndFrame(cfg, s1.(b := s1.b.(sendQuantum := cfg.segmentSize)), rs);
  }

  /** What the model leaves for the control part of an ACK. */
  lemma ModelFinds(cfg: Config, s: Sys, e: Event)
    requires e.AckReceived?
    ensures var s1 := AfterModel(cfg, Refreshed(s, e.net), e.i);
            && s1.b.best == MeasuredBy(cfg, s, e).b.best && s1.t.cWnd == Held(s, s1) && s1.t.minRtt == e.net.minRtt
            && s1.b.hasSeenRtt == s.b.hasSeenRtt && s1.t.pacing == s.t.pacing && s1.t.pacingRate == s.t.pacingRate
  {
    var s0, i := Refreshed(s, e.net), e.i;
    MeasuringFrame(cfg, s0, i);
    var s1 := AfterMeasuring(cfg, s0, i);
    DrainFrame(cfg, s1, i.now, i.draw);
    ProbeRttFrame(cfg, AfterRtt(cfg, AfterDrain(cfg, s1, i.now, i.draw), i.now), i.rs, i.now, i.draw);
    ModelWindow(cfg, s0, i);
  }

  lemma ControlFrom(cfg: Config, s: Sys, rs: Sample) returns (c: nat, before: nat)
    requires s.b.phase.pacingGain >= 0.0
    ensures var s' := AfterControl(cfg, s, rs);
            RateFrom(cfg, PaceOf(s), PaceOf(s'), s'.b, !s.b.hasSeenRtt && s.t.minRtt != TIME_MAX,
                     Found(s.b.best, s.t.cWnd, s.t.minRtt), s.b.phase.pacingGain, c, before)
  {
    c, before := PacingFrom(cfg, s, s.b.phase.pacingGain);
    ControlRate(cfg, s, rs);
    var s1, s' := AfterPacingRate(cfg, s, s.b.phase.pacingGain), AfterControl(cfg, s, rs);
    SameRate(cfg, PaceOf(s), PaceOf(s1), s1.b, s'.b, !s.b.hasSeenRtt && s.t.minRtt != TIME_MAX,
             Found(s.b.best, s.t.cWnd, s.t.minRtt), s.b.phase.pacingGain, c, before);
    assert PaceOf(s1) == PaceOf(s');
  }

  lemma AckRate(cfg: Config, s: Sys, e: Event) returns (c: nat, before: nat)
    requires e.AckReceived? && AfterModel(cfg, Refreshed(s, e.net), e.i).b.phase.pacingGain >= 0.0
    ensures var s' := AfterCongControl(cfg, Refreshed(s, e.net), e.i);
            RateFrom(cfg, PaceOf(s), PaceOf(s'), s'.b, Seeds(s, e), FoundAt(cfg, s, e, s'), s'.b.phase.pacingGain,
                     c, before)
  {
    var s1 := AfterModel(cfg, Refreshed(s, e.net), e.i);
    var s' := AfterControl(cfg, s1, e.i.rs);
    ModelFinds(cfg, s, e);
    ControlFrame(cfg, s1, e.i.rs);
    c, before := ControlFrom(cfg, s1, e.i.rs);
    assert PaceOf(s1) == PaceOf(s) && FoundAt(cfg, s, e, s') == Found(s1.b.best, s1.t.cWnd, s1.t.minRtt);
  }

  lemma SameRate(cfg: Config, p: Pace, q: Pace, b: Bbr, b': Bbr, seeds: bool, f: Found, gain: real, c: nat, before: nat)
    requires RateFrom(cfg, p, q, b, seeds, f, gain, c, before)
    requires b'.pipe == b.pipe && b'.best == b.best && b'.phase == b.phase
    ensures RateFrom(cfg, p, q, b', seeds, f, gain, c, before)
  {
  }

  lemma GainIsPositive(cfg: Config, p: Phase)
    requires GainsMatch(cfg, p)
    ensures p.pacingGain >= 0.0
  {
  }

  lemma ModelGains(cfg: Config, s: Sys, i: AckInput)
    requires ModeInv(cfg, s)
    ensures AfterModel(cfg, s, i).b.phase.pacingGain >= 0.0
  {
    AckKeepsModes(cfg, s, i);
    ControlFrame(cfg, AfterModel(cfg, s, i), i.rs);
    GainIsPositive(cfg, AfterModel(cfg, s, i).b.phase);
  }

  lemma StartRate(cfg: Config, s: Sys, e: Event) returns (c: nat, before: nat)
    requires e.TransmissionStarted? && Paces(s, e) && s.b.phase.pacingGain >= 0.0
    ensures var s' := Step(cfg, s, e);
            RateFrom(cfg, PaceOf(s), PaceOf(s'), s'.b, Seeds(s, e), FoundAt(cfg, s, e, s'), 1.0, c, before)
  {
    var s1 := Idled(Refreshed(s, e.net), e.now);
    c, before := PacingFrom(cfg, s1, 1.0);
    assert PaceOf(s1) == PaceOf(s) && FoundAt(cfg, s, e, s) == Found(s1.b.best, s1.t.cWnd, s1.t.minRtt);
  }

  lemma StepRate(cfg: Config, s: Sys, e: Event) returns (c: nat, before: nat)
    requires ModeInv(cfg, s) && Paces(s, e)
    ensures var s' := Step(cfg, s, e);
            RateFrom(cfg, PaceOf(s), PaceOf(s'), s'.b, Seeds(s, e), FoundAt(cfg, s, e, s'), GainAt(s', e), c, before)
  {
    if e.AckReceived? {
      assert ModeInv(cfg, Refreshed(s, e.net));
      ModelGains(cfg, Refreshed(s, e.net), e.i);
      c, before := AckRate(cfg, s, e);
    } else {
      GainIsPositive(cfg, s.b.phase);
      c, before := StartRate(cfg, s, e);
    }
  }

  /** In every run, where BBR sets the rate. */
  lemma RateInRun(cfg: Config, states: seq<Sys>, events: seq<Event>, k: nat) returns (c: nat, before: nat)
    requires IsRun(cfg, states, events) && k < |events| && Paces(states[k], events[k])
    ensures var s, s', e := states[k], states[k + 1], events[k];
            && RateFrom(cfg, PaceOf(s), PaceOf(s'), s'.b, Seeds(s, e), FoundAt(cfg, s, e, s'), GainAt(s', e), c, before)
            && GainsMatch(cfg, s'.b.phase)
  {
    RunKeepsModes(cfg, states, events, k);
    RunKeepsModes(cfg, states, events, k + 1);
    assert StepAt(cfg, states, events, k);
    c, before := StepRate(cfg, states[k], events[k]);
  }

  /** Elsewhere rate and bandwidth stay. */
  lemma RateStays(cfg: Config, states: seq<Sys>, events: seq<Event>, k: nat)
    requires IsRun(cfg, states, events) && k < |events| && !Paces(states[k], events[k])
    ensures var s, s' := states[k], states[k + 1];
            s'.t.pacingRate == s.t.pacingRate && s'.b.best == s.b.best && s'.b.hasSeenRtt == s.b.hasSeenRtt
  {
    RunKeepsModes(cfg, states, events, k);
    assert StepAt(cfg, states, events, k);
    StepRateStays(cfg, states[k], events[k]);
  }

  lemma StepRateStays(cfg: Config, s: Sys, e: Event)
    requires s.b.isInitialized && !Paces(s, e)
    ensures var s' := Step(cfg, s, e);
            s'.t.pacingRate == s.t.pacingRate && s'.b.best == s.b.best && s'.b.hasSeenRtt == s.b.hasSeenRtt
  {
  }

  /** With a full pipe every ACK sets the rate to the gain of its mode times the bandwidth, up to the maximum. */
  lemma RateFollowsBandwidth(cfg: Config, states: seq<Sys>, events: seq<Event>, k: nat)
    requires IsRun(cfg, states, events) && k < |events| && events[k].AckReceived? && states[k].b.hasSeenRtt
    ensures var s' := states[k + 1];
            && GainsMatch(cfg, s'.b.phase)
            && (s'.b.pipe.filled ==> IsPacedAt(cfg, s'.t.pacingRate, s'.b.phase.pacingGain, s'.b.best))
  {
    var c, before := RateInRun(cfg, states, events, k);
  }

  /** A connection opens with its nominal bandwidth, paced at the gain of STARTUP. */
  lemma OpeningRate(cfg: Config, states: seq<Sys>, events: seq<Event>)
    requires IsRun(cfg, states, events)
    ensures var s := states[0];
            && IsNominal(s.b.best, cfg.initialCWnd * cfg.segmentSize, s.t.minRtt) && s.t.pacing
            && s.t.pacingRate as real <= cfg.highGain * s.b.best as real < s.t.pacingRate as real + 1.0
            && (s.b.hasSeenRtt <==> s.t.minRtt != TIME_MAX)
  {
    var t: Tcb, now: nat :| WasOpened(cfg, states[0], events, t, now);
    OpenedPacing(cfg, t, now);
  }

  lemma OpenedPacing(cfg: Config, t: Tcb, now: nat)
    ensures var s, nominal := Opened(cfg, t, now), NominalBandwidth(t);
            && s.b.best == nominal && IsNominal(nominal, t.cWnd, t.minRtt) && s.t.minRtt == t.minRtt
            && s.t.pacingRate as real <= cfg.highGain * nominal as real < s.t.pacingRate as real + 1.0
            && s.t.pacing && (s.b.hasSeenRtt <==> t.minRtt != TIME_MAX)
  {
    NominalIs(t);
    PacedIs(cfg.highGain, NominalBandwidth(t));
  }

  /** The RTT counts as seen from the first event on that finds one when BBR sets the rate, the opening included. */
  lemma {:induction false} RttSeenIff(cfg: Config, states: seq<Sys>, events: seq<Event>, k: nat)
    requires IsRun(cfg, states, events) && k <= |events|
    ensures states[k].b.hasSeenRtt <==>
            || states[0].t.minRtt != TIME_MAX
            || exists j :: 0 <= j < k && Paces(states[j], events[j]) && events[j].net.minRtt != TIME_MAX
  {
    if k == 0 {
      OpeningRate(cfg, states, events);
    } else {
      RttSeenIff(cfg, states, events, k - 1);
      if Paces(states[k - 1], events[k - 1]) {
        var c, before := RateInRun(cfg, states, events, k - 1);
      } else {
        RateStays(cfg, states, events, k - 1);
      }
    }
  }

  // The bandwidth

  /**
   The bandwidth that an ACK finds is the filter's new best exactly for a rated
   sample that is not below it or not limited by the application.
   */
  lemma BestMoves(cfg: Config, s: Sys, e: Event)
    requires e.AckReceived?
    ensures var rs := e.i.rs;
            MeasuredBy(cfg, s, e).b.best
              == if HasRate(rs) && (rs.deliveryRate >= s.b.best || !rs.isAppLimited) then e.i.best else s.b.best
  {
    MeasuringRound(cfg, Refreshed(s, e.net), e.i);
  }
}
