/** How BBR's start-up ends: the full-pipe detector over whole runs. */
module BbrStartup {
  import opened Arithmetic
  import opened SocketState
  import opened RateTypes
  import opened BbrModel
  import opened BbrRuns
  import opened BbrModes

  const EMPTY_PIPE := Pipe(false, 0, 0)

  /** The detector after its qualifying calls, given the best bandwidth at each of them. */
  function PipeRun(bests: seq<nat>): Pipe {
    if bests == [] then EMPTY_PIPE else PipeStep(PipeRun(bests[..|bests| - 1]), bests[|bests| - 1])
  }

  /** Five quarters to the power J exceed B. */
  ghost predicate Outgrows(J: nat, B: nat) {
    Pow(5, J) > B * Pow(4, J)
  }

  lemma {:induction false} OutgrowsLater(J: nat, r: nat, B: nat)
    requires Outgrows(J, B) && J <= r
    ensures Outgrows(r, B)
    decreases r
  {
    if J < r {
      OutgrowsLater(J, r - 1, B);
      GrowthStep(Pow(5, r - 1), Pow(4, r - 1), B);
    }
  }

  lemma GrowthStep(x: nat, y: nat, B: nat)
    requires x > B * y
    ensures 5 * x > B * (4 * y)
  {
    assert B * (4 * y) == 4 * (B * y);
  }

  /**
   After n calls with `resets` growth resets among them: at most two calls
   came since the last reset and between any two, and each reset but the first
   raised the recorded bandwidth by a quarter.
   */
  ghost predicate Progress(p: Pipe, n: nat, resets: nat, B: nat) {
    && p.count <= 2 && n <= 3 * resets + p.count
    && (resets == 0 ==> n == 0 && p == EMPTY_PIPE)
    && (resets > 0 ==> 1 <= p.fullBandwidth <= B && Pow(5, resets - 1) <= p.fullBandwidth * Pow(4, resets - 1))
  }

  lemma ResetGrows(f: nat, best: nat, x: nat, y: nat)
    requires 4 * best >= 5 * f && x <= f * y
    ensures 5 * x <= best * (4 * y)
  {
    ProductMonotone(y, 5 * f, 4 * best);
    assert (5 * f) * y == 5 * (f * y) && (4 * best) * y == best * (4 * y);
  }

  /** z calls without any bandwidth come first. */
  ghost predicate FirstPositive(bests: seq<nat>, z: nat) {
    z <= |bests| && (forall k :: 0 <= k < z ==> bests[k] == 0) && (z < |bests| ==> bests[z] > 0)
  }

  lemma {:induction false} PipeProgress(bests: seq<nat>, z: nat, B: nat) returns (resets: nat)
    requires FirstPositive(bests, z) && forall k :: 0 <= k < |bests| ==> bests[k] <= B
    ensures PipeRun(bests).filled || Progress(PipeRun(bests), |bests| - z, resets, B)
    ensures z == |bests| ==> PipeRun(bests) == EMPTY_PIPE
    decreases |bests|
  {
    if bests == [] {
      resets := 0;
    } else {
      var n := |bests| - 1;
      var p := PipeRun(bests[..n]);
      resets := PipeProgress(bests[..n], if z == |bests| then n else z, B);
      if z < |bests| && !p.filled && 4 * bests[n] >= 5 * p.fullBandwidth {
        if resets > 0 {
          ResetGrows(p.fullBandwidth, bests[n], Pow(5, resets - 1), Pow(4, resets - 1));
        }
        resets := resets + 1;
      }
    }
  }

  /**
   With the best bandwidth at most B and J growths by a quarter beyond B, 3 (J + 1)
   calls from the first bandwidth on fill the pipe.
   */
  lemma PipeFills(bests: seq<nat>, z: nat, B: nat, J: nat)
    requires FirstPositive(bests, z) && forall k :: 0 <= k < |bests| ==> bests[k] <= B
    requires Outgrows(J, B) && |bests| >= z + 3 * (J + 1)
    ensures PipeRun(bests).filled
  {
    var resets := PipeProgress(bests, z, B);
    if !PipeRun(bests).filled {
      if resets - 1 >= J {
        OutgrowsLater(J, resets - 1, B);
        ProductMonotone(Pow(4, resets - 1), PipeRun(bests).fullBandwidth, B);
      }
    }
  }

  /** So in the long run the pipe is declared full if and only if there is any bandwidth at all. */
  lemma PipeFillsIff(bests: seq<nat>, z: nat, B: nat, J: nat)
    requires FirstPositive(bests, z) && forall k :: 0 <= k < |bests| ==> bests[k] <= B
    requires Outgrows(J, B) && (z < |bests| ==> |bests| >= z + 3 * (J + 1))
    ensures PipeRun(bests).filled <==> z < |bests|
  {
    if z < |bests| {
      PipeFills(bests, z, B, J);
    } else {
      var _ := PipeProgress(bests, z, B);
    }
  }

  /** None of the calls after r up to n found the bandwidth of call r grown by a quarter. */
  ghost predicate NoGrowth(bests: seq<nat>, r: nat, n: nat) {
    r < n <= |bests| && forall j :: r < j < n ==> 4 * bests[j] < 5 * bests[r]
  }

  /**
   The recorded bandwidth is that of call r, and the count says how many calls
   came since, none with growth by a quarter; at the third the pipe is full.
   */
  lemma {:induction false} PipeMeans(bests: seq<nat>) returns (r: nat)
    requires bests != []
    ensures var p := PipeRun(bests);
            && r < |bests| && p.fullBandwidth == bests[r]
            && (p.filled <==> p.count == 3)
            && if p.filled then r + 3 < |bests| && NoGrowth(bests, r, r + 4)
               else p.count <= 2 && r + p.count + 1 == |bests| && NoGrowth(bests, r, |bests|)
    decreases |bests|
  {
    var n := |bests| - 1;
    if n == 0 {
      r := 0;
    } else {
      r := PipeMeans(bests[..n]);
      var p := PipeRun(bests[..n]);
      if !p.filled && 4 * bests[n] >= 5 * p.fullBandwidth {
        r := n;
      }
    }
  }

  // In a run

  /** The best bandwidth at the qualifying calls that the first k events make. */
  ghost function Bests(cfg: Config, states: seq<Sys>, events: seq<Event>, k: nat): seq<nat>
    requires k <= |events| < |states|
  {
    if k == 0 then []
    else Bests(cfg, states, events, k - 1) + BestOf(cfg, states[k - 1], events[k - 1])
  }

  ghost function BestOf(cfg: Config, s: Sys, e: Event): seq<nat> {
    if !e.AckReceived? then []
    else
      var b := AfterMeasuring(cfg, Refreshed(s, e.net), e.i).b;
      if b.round.start && !e.i.rs.isAppLimited then [b.best] else []
  }

  lemma MeasuringPipe(cfg: Config, s: Sys, i: AckInput)
    ensures var b := AfterMeasuring(cfg, s, i).b;
            b.pipe == if Qualifies(b.round.start, i.rs.isAppLimited) then PipeStep(s.b.pipe, b.best) else s.b.pipe
  {
    var b := WithConnection(s, i.rc).b;
    BtlBwFrame(b, i.rs, i.best);
    AggregationFrame(cfg, AfterBtlBw(b, i.rs, i.best), i.rs, i.now, s.t.cWnd);
  }

  /** From CheckDrain on an ACK leaves the detector alone, and a full pipe is never left in STARTUP. */
  lemma ProbingPipe(cfg: Config, s: Sys, rs: Sample, now: nat, draw: Draw)
    ensures AfterProbeRtt(cfg, s, rs, now, draw).b.pipe == s.b.pipe
    ensures s.b.phase.mode == Startup || !s.b.pipe.filled
        || AfterProbeRtt(cfg, s, rs, now, draw).b.phase.mode != Startup
  {
    ProbeRttFrame(cfg, s, rs, now, draw);
    HandlingPipe(cfg, AfterProbeEntry(s), now, draw);
  }

  lemma HandlingPipe(cfg: Config, s: Sys, now: nat, draw: Draw)
    ensures s.b.phase.mode == Startup || !s.b.pipe.filled || HandledProbeRtt(cfg, s, now, draw).b.phase.mode != Startup
  {
  }

  lemma DrainPipe(cfg: Config, s: Sys, now: nat, draw: Draw)
    ensures var s' := AfterDrain(cfg, s, now, draw);
            s'.b.pipe == s.b.pipe && (s.b.pipe.filled ==> s'.b.phase.mode != Startup)
  {
  }

  lemma AckPipe(cfg: Config, s: Sys, i: AckInput)
    ensures var b, b' := AfterMeasuring(cfg, s, i).b, AfterCongControl(cfg, s, i).b;
            b'.pipe == b.pipe && (b'.pipe.filled ==> b'.phase.mode != Startup)
  {
    var s1 := AfterMeasuring(cfg, s, i);
    DrainPipe(cfg, s1, i.now, i.draw);
    ProbingPipe(cfg, AfterRtt(cfg, AfterDrain(cfg, s1, i.now, i.draw), i.now), i.rs, i.now, i.draw);
    ControlFrame(cfg, AfterModel(cfg, s, i), i.rs);
  }

  lemma StepPipe(cfg: Config, s: Sys, e: Event)
    requires s.b.isInitialized && (s.b.pipe.filled ==> s.b.phase.mode != Startup)
    ensures var s' := Step(cfg, s, e);
            && s'.b.pipe == (if BestOf(cfg, s, e) == [] then s.b.pipe else PipeStep(s.b.pipe, BestOf(cfg, s, e)[0]))
            && (s'.b.pipe.filled ==> s'.b.phase.mode != Startup)
  {
    var s0 := Refreshed(s, e.net);
    match e
    case AckReceived(_, i) =>
      MeasuringPipe(cfg, s0, i);
      AckPipe(cfg, s0, i);
    case TransmissionStarted(_, now, _) => PacingFrame(cfg, Idled(s0, now), 1.0);
    case _ =>
  }

  /** In every run the detector is what its qualifying calls made of it, and a full pipe means that start-up is over. */
  lemma {:induction false} RunPipe(cfg: Config, states: seq<Sys>, events: seq<Event>, k: nat)
    requires IsRun(cfg, states, events) && k <= |events|
    ensures states[k].b.pipe == PipeRun(Bests(cfg, states, events, k))
    ensures states[k].b.pipe.filled ==> states[k].b.phase.mode != Startup
    decreases k
  {
    if k > 0 {
      RunPipe(cfg, states, events, k - 1);
      RunKeepsModes(cfg, states, events, k - 1);
      assert StepAt(cfg, states, events, k - 1);
      StepPipe(cfg, states[k - 1], events[k - 1]);
      var before, last := Bests(cfg, states, events, k - 1), BestOf(cfg, states[k - 1], events[k - 1]);
      if last != [] {
        assert (before + last)[..|before|] == before;
      } else {
        assert before + last == before;
      }
    }
  }

  /**
   Start-up ends within 3 (J + 1) qualifying ACKs from the first that finds
   any bandwidth, and does not come back; while none does, it does not end.
   */
  lemma StartupEndsIff(cfg: Config, states: seq<Sys>, events: seq<Event>, k: nat, z: nat, B: nat, J: nat)
    requires IsRun(cfg, states, events) && k <= |events| && Outgrows(J, B)
    requires var bests := Bests(cfg, states, events, k);
             && FirstPositive(bests, z) && (z < |bests| ==> |bests| >= z + 3 * (J + 1))
             && forall n :: 0 <= n < |bests| ==> bests[n] <= B
    ensures states[k].b.pipe.filled <==> z < |Bests(cfg, states, events, k)|
    ensures states[k].b.pipe.filled ==>
              forall n :: k <= n <= |events| ==> states[n].b.pipe.filled && states[n].b.phase.mode != Startup
    ensures !states[k].b.pipe.filled ==> states[k].b.phase.mode == Startup || states[k].b.phase.mode == ProbeRtt
  {
    PipeFillsIff(Bests(cfg, states, events, k), z, B, J);
    RunPipe(cfg, states, events, k);
    RunKeepsModes(cfg, states, events, k);
    if states[k].b.pipe.filled {
      forall n | k <= n <= |events|
        ensures states[n].b.pipe.filled && states[n].b.phase.mode != Startup
      {
        BestsGrow(cfg, states, events, k, n);
        FilledPrefix(Bests(cfg, states, events, k), Bests(cfg, states, events, n));
        RunPipe(cfg, states, events, n);
      }
    }
  }

  lemma {:induction false} BestsGrow(cfg: Config, states: seq<Sys>, events: seq<Event>, k: nat, n: nat)
    requires k <= n <= |events| < |states|
    ensures Bests(cfg, states, events, k) <= Bests(cfg, states, events, n)
    decreases n
  {
    if k < n {
      BestsGrow(cfg, states, events, k, n - 1);
    }
  }

  lemma {:induction false} FilledPrefix(a: seq<nat>, b: seq<nat>)
    requires a <= b && PipeRun(a).filled
    ensures PipeRun(b).filled
    decreases b
  {
    if |a| < |b| {
      FilledPrefix(a, b[..|b| - 1]);
    } else {
      assert a == b;
    }
  }

  // A run in which start-up does not end

  /** One-byte segments and an RTT above eight seconds: the initial bandwidth estimate is zero. */
  const STARVED := Config(2.0, 10, 1, 0, 5, 4096, 1, 1, 1, 1)
  const SLOW_RTT: nat := 8_001_000_000
  const SLOW_NET := Net(0, SLOW_RTT, SLOW_RTT, 0)
  /** The opening, and everything after it. */
  const OPENING: nat := SLOW_RTT + 1

  const STARVED_ACK: Event := AckReceived(
    SLOW_NET,
    AckInput(Connection(0, 0, 0, 0, 0, 0, 0, false), Sample(0, false, 0, -1, 0, 0, 0, 0, 0, 0, 0), OPENING, 0, 0))

  /** In STARTUP without bandwidth, in a round start that no rate sample ends. */
  ghost predicate Starving(s: Sys) {
    && s.b.phase.mode == Startup && s.b.round.start && s.b.best == 0 && s.b.pipe == EMPTY_PIPE
    && s.b.hasSeenRtt && s.b.isInitialized && s.b.rtt.stamp == OPENING
    && s.t.lastRtt == SLOW_RTT && s.t.minRtt == SLOW_RTT
  }

  lemma StarvedMeasuring(s: Sys)
    requires Starving(s)
    ensures AfterMeasuring(STARVED, s, STARVED_ACK.i) == WithConnection(s, STARVED_ACK.i.rc)
  {
    var b := WithConnection(s, STARVED_ACK.i.rc).b;
    assert AfterAggregation(STARVED, AfterBtlBw(b, STARVED_ACK.i.rs, 0), STARVED_ACK.i.rs, OPENING, s.t.cWnd) == b;
  }

  lemma StarvedStep(s: Sys)
    requires Starving(s)
    ensures Starving(Step(STARVED, s, STARVED_ACK)) && BestOf(STARVED, s, STARVED_ACK) == [0]
  {
    var s0 := Refreshed(s, SLOW_NET);
    StarvedMeasuring(s0);
    var s1 := AfterModel(STARVED, s0, STARVED_ACK.i);
    assert Starving(s1);
    assert AfterPacingRate(STARVED, s1, s1.b.phase.pacingGain).b == s1.b;
    ControlFrame(STARVED, s1, STARVED_ACK.i.rs);
    StarvedControl(s1);
  }

  lemma StarvedControl(s: Sys)
    requires Starving(s)
    ensures AfterControl(STARVED, s, STARVED_ACK.i.rs).b.best == 0
        && AfterControl(STARVED, s, STARVED_ACK.i.rs).b.hasSeenRtt
  {
    var s1 := AfterPacingRate(STARVED, s, s.b.phase.pacingGain);
    CwndFrame(STARVED, s1.(b := s1.b.(sendQuantum := STARVED.segmentSize)), STARVED_ACK.i.rs);
  }

  lemma StarvedOpening() returns (states: seq<Sys>, events: seq<Event>)
    ensures IsRun(STARVED, states, events) && |events| == 1 && events[0].At() == OPENING
    ensures Starving(states[1]) && Bests(STARVED, states, events, 1) == []
  {
    var s0 := OpenedSlowly();
    var e := TimedOut(SLOW_NET, OPENING, true);
    var s1 := TimeoutStarves(s0, e);
    states, events := FirstStep(STARVED, s0, e, s1);
    assert Bests(STARVED, states, events, 0) == [] && BestOf(STARVED, s0, e) == [];
  }

  lemma OpenedSlowly() returns (s: Sys)
    ensures s.t.congState == Open && forall e: Event :: OPENING <= e.At() ==> Starts(STARVED, s, [e])
    ensures Starving(s.(b := s.b.(round := s.b.round.(start := true))))
  {
    var t := Tcb(1, 1, 0, Open, SLOW_RTT, SLOW_RTT, 0, true, 0);
    s := Opened(STARVED, t, OPENING);
    assert NominalBandwidth(t) == 0;
    assert forall e: Event :: OPENING <= e.At() ==> WasOpened(STARVED, s, [e], t, OPENING);
  }

  lemma TimeoutStarves(s: Sys, e: Event) returns (s': Sys)
    requires Starving(s.(b := s.b.(round := s.b.round.(start := true)))) && e.TimedOut? && e.net == SLOW_NET
    ensures s' == Step(STARVED, s, e) && Starving(s')
  {
    s' := Step(STARVED, s, e);
  }

  lemma {:induction false} BestsFrame(cfg: Config, states: seq<Sys>, events: seq<Event>, s: Sys, e: Event, k: nat)
    requires k <= |events| < |states|
    ensures Bests(cfg, states + [s], events + [e], k) == Bests(cfg, states, events, k)
  {
    if k > 0 {
      BestsFrame(cfg, states, events, s, e, k - 1);
      assert (states + [s])[k - 1] == states[k - 1] && (events + [e])[k - 1] == events[k - 1];
    }
  }

  /** For every n there is a run with n qualifying calls, none with any bandwidth, that is still in STARTUP. */
  lemma {:induction false} StartupNeedsBandwidth(n: nat) returns (states: seq<Sys>, events: seq<Event>)
    ensures IsRun(STARVED, states, events) && events != [] && events[|events| - 1].At() == OPENING
    ensures |Bests(STARVED, states, events, |events|)| == n && Starving(states[|events|])
  {
    if n == 0 {
      states, events := StarvedOpening();
    } else {
      states, events := StartupNeedsBandwidth(n - 1);
      var k := |events|;
      var s := states[k];
      StarvedStep(s);
      BestsFrame(STARVED, states, events, Step(STARVED, s, STARVED_ACK), STARVED_ACK, k);
      states, events := OneMoreStep(STARVED, states, events, STARVED_ACK, Step(STARVED, s, STARVED_ACK));
      var before := Bests(STARVED, states, events, k);
      assert Bests(STARVED, states, events, k + 1) == before + BestOf(STARVED, s, STARVED_ACK);
    }
  }
}
