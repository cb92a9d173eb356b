/**
 The two-slot filter of BBR's ack-aggregation estimate against the whole
 history of excesses, over any sequence of counted ACKs and over whole runs.
 */
module BbrAggregation {
  import opened Arithmetic
  import opened RateTypes
  import opened BbrModel
  import opened BbrRuns
  import opened BbrModes

  /** One counted ACK. */
  datatype Record = Record(roundStart: bool, excess: nat)

  const NO_EXCESS := Aggregation(0, 0, 0, 0, 0, 0)

  function FilterStep(a: Aggregation, r: Record, windowLength: nat): Aggregation {
    Recorded(if r.roundStart then Aged(a, windowLength) else a, r.excess)
  }

  function Filtered(records: seq<Record>, windowLength: nat): Aggregation {
    if records == [] then NO_EXCESS
    else FilterStep(Filtered(records[..|records| - 1], windowLength), records[|records| - 1], windowLength)
  }

  /** The number of counted round starts. */
  function Rounds(records: seq<Record>): nat {
    if records == [] then 0 else Rounds(records[..|records| - 1]) + (if records[|records| - 1].roundStart then 1 else 0)
  }

  /** The largest excess recorded in round `first` or later. */
  function MaxSince(records: seq<Record>, first: int): nat {
    if records == [] then 0
    else
      var before := MaxSince(records[..|records| - 1], first);
      if Rounds(records) >= first then Max(before, records[|records| - 1].excess) else before
  }

  /** `MaxSince` is what its name says. */
  lemma {:induction false} MaxSinceIsMax(records: seq<Record>, first: int)
    ensures forall i :: 0 <= i < |records| && Rounds(records[..i + 1]) >= first ==>
              records[i].excess <= MaxSince(records, first)
    ensures MaxSince(records, first) == 0
         || exists i :: 0 <= i < |records| && Rounds(records[..i + 1]) >= first &&
                        records[i].excess == MaxSince(records, first)
  {
    if records != [] {
      var last := |records| - 1;
      var before := records[..last];
      MaxSinceIsMax(before, first);
      assert records[..last + 1] == records;
      assert forall i :: 0 <= i < last ==> before[..i + 1] == records[..i + 1] && before[i] == records[i];
    }
  }

  /** Rounds later than the present have no record. */
  lemma {:induction false} NothingYet(records: seq<Record>, first: int)
    requires Rounds(records) < first
    ensures MaxSince(records, first) == 0
  {
    if records != [] {
      NothingYet(records[..|records| - 1], first);
    }
  }

  lemma NextMultiple(R: nat, L: nat)
    requires L >= 1
    ensures if R % L + 1 == L then (R + 1) % L == 0 && (R + 1) / L == R / L + 1
            else (R + 1) % L == R % L + 1 && (R + 1) / L == R / L
  {
    var q, r := R / L, R % L;
    QuotientBounds(R, L);
    assert R == q * L + r;
    if r + 1 == L {
      assert R + 1 == (q + 1) * L;
      assert (q + 2) * L == (q + 1) * L + L;
      QuotientIs(R + 1, L, q + 1);
    } else {
      assert (q + 1) * L == q * L + L;
      QuotientIs(R + 1, L, q);
    }
  }

  /**
   For a window length from 1 to 31: the age of the window is the round
   count modulo the length, the current slot holds the maximum since the last
   flip, and both slots together the maximum since the flip before it.
   */
  ghost predicate FilterInv(a: Aggregation, records: seq<Record>, L: nat)
    requires L >= 1
  {
    var R := Rounds(records);
    && a.winRtt == R % L && a.idx <= 1
    && Slot(a) == MaxSince(records, R - R % L)
    && Max(a.extra0, a.extra1) == MaxSince(records, R - R % L - L)
  }

  lemma {:induction false} FilterKeeps(records: seq<Record>, L: nat)
    requires 1 <= L <= 31
    ensures FilterInv(Filtered(records, L), records, L)
  {
    if records != [] {
      var before, r := records[..|records| - 1], records[|records| - 1];
      FilterKeeps(before, L);
      var R := Rounds(before);
      if r.roundStart {
        NextMultiple(R, L);
        NothingYet(before, R + 1);
      }
    }
  }

  /** The estimate is the largest excess recorded in the last L + R % L of R counted rounds. */
  ghost predicate IsWindowedMaximum(a: Aggregation, records: seq<Record>, L: nat)
    requires L >= 1
  {
    var R := Rounds(records);
    Max(a.extra0, a.extra1) == MaxSince(records, R - (L + R % L))
  }

  /** A window of no rounds flips at every round start, as one of a single round does. */
  lemma {:induction false} NoRoundsIsOne(records: seq<Record>)
    ensures Filtered(records, 0) == Filtered(records, 1)
  {
    if records != [] {
      NoRoundsIsOne(records[..|records| - 1]);
    }
  }

  /**
   The filter refines the full history: for a window of L rounds, where none
   counts as one, its estimate is the largest excess recorded in the last
   L + R % L of R counted rounds, at least L and fewer than 2 L of them.
   */
  lemma FilterIsWindowedMaximum(records: seq<Record>, length: nat)
    requires length <= 31
    ensures var L, R := Max(1, length), Rounds(records);
            L <= L + R % L < 2 * L && IsWindowedMaximum(Filtered(records, length), records, L)
  {
    FilterKeeps(records, Max(1, length));
    NoRoundsIsOne(records);
  }

  /** The age saturates at 31: a longer window never flips, and the filter never forgets. */
  lemma {:induction false} LongWindowNeverForgets(records: seq<Record>, L: nat)
    requires L > 31
    ensures var a := Filtered(records, L);
            && a.idx == 0 && a.extra1 == 0 && a.winRtt <= 31
            && Max(a.extra0, a.extra1) == MaxSince(records, 0)
  {
    if records != [] {
      LongWindowNeverForgets(records[..|records| - 1], L);
    }
  }

  // In a run

  /**
   The excess is never negative, so the unsigned subtraction of the source does not
   wrap, and it is at most a window.
   */
  lemma ExcessInRange(cfg: Config, a: Aggregation, acked: nat, best: nat, now: nat, cWnd: nat)
    ensures 0 <= Excess(cfg, a, acked, best, now, cWnd) <= cWnd
  {
  }

  /**
   The excess of an ACK: the bytes of its sampling epoch beyond what the bandwidth
   delivers in the whole seconds since the epoch began, at most a window.  An epoch that
   has no such bytes, or too many, begins anew with the ACK.
   */
  lemma ExcessIs(cfg: Config, a: Aggregation, acked: nat, best: nat, now: nat, cWnd: nat)
      returns (seconds: nat, expected: nat)
    ensures if now < a.epochTime then seconds == 0
            else seconds * TICKS_PER_SECOND <= now - a.epochTime < (seconds + 1) * TICKS_PER_SECOND
    ensures 8 * expected <= best * seconds < 8 * (expected + 1)
    ensures var anew := a.epochAcked <= expected || a.epochAcked + acked >= cfg.ackEpochAckedResetThresh;
            && Excess(cfg, a, acked, best, now, cWnd)
               == Min(if anew then acked else a.epochAcked + acked - expected, cWnd)
            && Epoch(cfg, a, acked, best, now)
               == if anew then a.(epochTime := now, epochAcked := acked) else a.(epochAcked := a.epochAcked + acked)
  {
    seconds := Max(0, now - a.epochTime) / TICKS_PER_SECOND;
    expected := best * seconds / 8;
  }

  /** The same slots and window age, whatever the sampling epoch. */
  ghost predicate SameFilter(a: Aggregation, b: Aggregation) {
    a.extra0 == b.extra0 && a.extra1 == b.extra1 && a.winRtt == b.winRtt && a.idx == b.idx
  }

  /** An ACK of new data that takes part in the estimate, with a sample of what was delivered. */
  ghost predicate CountsAt(cfg: Config, e: Event) {
    e.AckReceived? && cfg.extraAckedGain != 0 && e.i.rs.ackedSacked > 0 && e.i.rs.delivered >= 0
  }

  ghost function RecordOf(cfg: Config, s: Sys, e: Event): seq<Record> {
    if !CountsAt(cfg, e) then []
    else
      var s0 := Refreshed(s, e.net);
      var b := AfterBtlBw(WithConnection(s0, e.i.rc).b, e.i.rs, e.i.best);
      ExcessInRange(cfg, b.agg, e.i.rs.ackedSacked, b.best, e.i.now, s0.t.cWnd);
      [Record(b.round.start, Excess(cfg, b.agg, e.i.rs.ackedSacked, b.best, e.i.now, s0.t.cWnd))]
  }

  /** The counted ACKs among the first k events. */
  ghost function Records(cfg: Config, states: seq<Sys>, events: seq<Event>, k: nat): seq<Record>
    requires k <= |events| < |states|
  {
    if k == 0 then [] else Records(cfg, states, events, k - 1) + RecordOf(cfg, states[k - 1], events[k - 1])
  }

  lemma AggregationStep(cfg: Config, b: Bbr, rs: Sample, now: nat, cWnd: nat)
    requires Counted(cfg, rs)
    ensures var r := Record(b.round.start, Excess(cfg, b.agg, rs.ackedSacked, b.best, now, cWnd));
            SameFilter(AfterAggregation(cfg, b, rs, now, cWnd).agg, FilterStep(b.agg, r, cfg.extraAckedWinRttLength))
  {
    ExcessInRange(cfg, b.agg, rs.ackedSacked, b.best, now, cWnd);
  }

  /** The rest of the model leaves the filter alone. */
  lemma AckAggregation(cfg: Config, s: Sys, i: AckInput)
    ensures AfterCongControl(cfg, s, i).b.agg
         == AfterAggregation(cfg, AfterBtlBw(WithConnection(s, i.rc).b, i.rs, i.best), i.rs, i.now, s.t.cWnd).agg
  {
    var s0 := WithConnection(s, i.rc);
    var s1 := s0.(b := AfterAggregation(cfg, AfterBtlBw(s0.b, i.rs, i.best), i.rs, i.now, s.t.cWnd));
    CyclePhaseFrame(cfg, s1, i.rs, i.now);
    FullPipeFrame(AfterCyclePhase(cfg, s1, i.rs, i.now).b, i.rs);
    var s2 := AfterMeasuring(cfg, s, i);
    DrainFrame(cfg, s2, i.now, i.draw);
    ProbeRttFrame(cfg, AfterRtt(cfg, AfterDrain(cfg, s2, i.now, i.draw), i.now), i.rs, i.now, i.draw);
    ControlFrame(cfg, AfterModel(cfg, s, i), i.rs);
  }

  lemma StepAggregation(cfg: Config, s: Sys, e: Event)
    requires s.b.isInitialized
    ensures var a, r := Step(cfg, s, e).b.agg, RecordOf(cfg, s, e);
            if r == [] then SameFilter(a, s.b.agg)
            else SameFilter(a, FilterStep(s.b.agg, r[0], cfg.extraAckedWinRttLength))
  {
    var s0 := Refreshed(s, e.net);
    match e
    case AckReceived(_, i) =>
      var b := AfterBtlBw(WithConnection(s0, i.rc).b, i.rs, i.best);
      BtlBwFrame(WithConnection(s0, i.rc).b, i.rs, i.best);
      if Counted(cfg, i.rs) {
        AggregationStep(cfg, b, i.rs, i.now, s0.t.cWnd);
      }
      AckAggregation(cfg, s0, i);
    case TransmissionStarted(_, now, _) => PacingFrame(cfg, Idled(s0, now), 1.0);
    case _ =>
  }

  lemma SameFilterStep(a: Aggregation, b: Aggregation, r: Record, L: nat)
    requires SameFilter(a, b)
    ensures SameFilter(FilterStep(a, r, L), FilterStep(b, r, L))
  {
  }

  lemma FiltersAt(cfg: Config, states: seq<Sys>, events: seq<Event>, k: nat)
    requires IsRun(cfg, states, events) && k < |events|
    ensures var a, r := states[k + 1].b.agg, RecordOf(cfg, states[k], events[k]);
            if r == [] then SameFilter(a, states[k].b.agg)
            else SameFilter(a, FilterStep(states[k].b.agg, r[0], cfg.extraAckedWinRttLength))
  {
    RunKeepsModes(cfg, states, events, k);
    assert StepAt(cfg, states, events, k);
    StepAggregation(cfg, states[k], events[k]);
  }

  /** In every run the slots are what the counted ACKs made of them. */
  lemma {:induction false} RunFilters(cfg: Config, states: seq<Sys>, events: seq<Event>, k: nat)
    requires IsRun(cfg, states, events) && k <= |events|
    ensures SameFilter(states[k].b.agg, Filtered(Records(cfg, states, events, k), cfg.extraAckedWinRttLength))
    decreases k
  {
    if k > 0 {
      RunFilters(cfg, states, events, k - 1);
      FiltersAt(cfg, states, events, k - 1);
      FilterGoesOn(states[k - 1].b.agg, states[k].b.agg, Records(cfg, states, events, k - 1),
                   RecordOf(cfg, states[k - 1], events[k - 1]), cfg.extraAckedWinRttLength);
    }
  }

  lemma FilterGoesOn(a: Aggregation, a': Aggregation, before: seq<Record>, last: seq<Record>, L: nat)
    requires |last| <= 1 && SameFilter(a, Filtered(before, L))
    requires SameFilter(a', if last == [] then a else FilterStep(a, last[0], L))
    ensures SameFilter(a', Filtered(before + last, L))
  {
    if last == [] {
      assert before + last == before;
    } else {
      assert (before + last)[..|before|] == before;
      SameFilterStep(a, Filtered(before, L), last[0], L);
    }
  }

  /** The estimate of a run is the largest excess of at least L and fewer than 2 L counted rounds. */
  lemma EstimateIsWindowedMaximum(cfg: Config, states: seq<Sys>, events: seq<Event>)
    requires IsRun(cfg, states, events)
    requires cfg.extraAckedWinRttLength <= 31
    ensures var a, records := states[|events|].b.agg, Records(cfg, states, events, |events|);
            IsWindowedMaximum(a, records, Max(1, cfg.extraAckedWinRttLength))
  {
    var records, L := Records(cfg, states, events, |events|), cfg.extraAckedWinRttLength;
    RunFilters(cfg, states, events, |events|);
    FilterIsWindowedMaximum(records, L);
    SameEstimate(states[|events|].b.agg, Filtered(records, L), records, Max(1, L));
  }

  lemma SameEstimate(a: Aggregation, b: Aggregation, records: seq<Record>, L: nat)
    requires L >= 1 && SameFilter(a, b) && IsWindowedMaximum(b, records, L)
    ensures IsWindowedMaximum(a, records, L)
  {
  }

  // The sampling epoch

  /** The bandwidth that an ACK's aggregation is measured with. */
  ghost function BestAt(s: Sys, e: Event): nat
    requires e.AckReceived?
  {
    AfterBtlBw(WithConnection(Refreshed(s, e.net), e.i.rc).b, e.i.rs, e.i.best).best
  }

  /** No bytes beyond what the bandwidth explains, or too many. */
  ghost predicate BeginsAnew(cfg: Config, a: Aggregation, acked: nat, best: nat, now: nat) {
    a.epochAcked <= ExpectedAcked(best, now, a.epochTime) || a.epochAcked + acked >= cfg.ackEpochAckedResetThresh
  }

  /** A counted ACK that begins the epoch anew, or a restart from idle. */
  ghost predicate BeginsEpoch(cfg: Config, s: Sys, e: Event) {
    || (e.TransmissionStarted? && s.b.appLimited != 0)
    || (CountsAt(cfg, e) && BeginsAnew(cfg, s.b.agg, e.i.rs.ackedSacked, BestAt(s, e), e.i.now))
  }

  ghost function CountedBytes(cfg: Config, e: Event): nat {
    if CountsAt(cfg, e) then e.i.rs.ackedSacked else 0
  }

  lemma AggregationEpoch(cfg: Config, b: Bbr, rs: Sample, now: nat, cWnd: nat)
    requires Counted(cfg, rs)
    ensures var a := AfterAggregation(cfg, b, rs, now, cWnd).agg;
            if BeginsAnew(cfg, b.agg, rs.ackedSacked, b.best, now) then
              a.epochTime == now && a.epochAcked == rs.ackedSacked
            else a.epochTime == b.agg.epochTime && a.epochAcked == b.agg.epochAcked + rs.ackedSacked
  {
    var aged := if b.round.start then Aged(b.agg, cfg.extraAckedWinRttLength) else b.agg;
    assert aged.epochTime == b.agg.epochTime && aged.epochAcked == b.agg.epochAcked;
  }

  lemma AckEpoch(cfg: Config, s: Sys, e: Event)
    requires e.AckReceived?
    ensures var a, a' := s.b.agg, AfterCongControl(cfg, Refreshed(s, e.net), e.i).b.agg;
            if BeginsEpoch(cfg, s, e) then a'.epochTime == e.At() && a'.epochAcked == CountedBytes(cfg, e)
            else a'.epochTime == a.epochTime && a'.epochAcked == a.epochAcked + CountedBytes(cfg, e)
  {
    var s0, i := Refreshed(s, e.net), e.i;
    var b := AfterBtlBw(WithConnection(s0, i.rc).b, i.rs, i.best);
    BtlBwFrame(WithConnection(s0, i.rc).b, i.rs, i.best);
    AckAggregation(cfg, s0, i);
    if CountsAt(cfg, e) {
      AggregationEpoch(cfg, b, i.rs, i.now, s0.t.cWnd);
    }
  }

  lemma StepEpoch(cfg: Config, s: Sys, e: Event)
    requires s.b.isInitialized
    ensures var a, a' := s.b.agg, Step(cfg, s, e).b.agg;
            if BeginsEpoch(cfg, s, e) then a'.epochTime == e.At() && a'.epochAcked == CountedBytes(cfg, e)
            else a'.epochTime == a.epochTime && a'.epochAcked == a.epochAcked + CountedBytes(cfg, e)
  {
    match e
    case AckReceived(_, _) => AckEpoch(cfg, s, e);
    case TransmissionStarted(net, now, _) => PacingFrame(cfg, Idled(Refreshed(s, net), now), 1.0);
    case _ =>
  }

  ghost function BytesSince(cfg: Config, events: seq<Event>, m: nat, k: nat): nat
    requires m <= k <= |events|
  {
    if m == k then 0 else BytesSince(cfg, events, m, k - 1) + CountedBytes(cfg, events[k - 1])
  }

  /**
   In every run the epoch began with the last event m that begins one, or with
   the connection, and holds all bytes that counted ACKs acked from then on.
   */
  lemma {:induction false} EpochIs(cfg: Config, states: seq<Sys>, events: seq<Event>, k: nat) returns (m: int)
    requires IsRun(cfg, states, events) && k <= |events|
    ensures -1 <= m < k && (m >= 0 ==> BeginsEpoch(cfg, states[m], events[m]))
    ensures forall j :: m < j < k ==> !BeginsEpoch(cfg, states[j], events[j])
    ensures states[k].b.agg.epochTime == if m < 0 then states[0].b.agg.epochTime else events[m].At()
    ensures states[k].b.agg.epochAcked == BytesSince(cfg, events, Max(m, 0), k)
    decreases k
  {
    m := -1;
    if k > 0 {
      m := EpochIs(cfg, states, events, k - 1);
      RunKeepsModes(cfg, states, events, k - 1);
      assert StepAt(cfg, states, events, k - 1);
      StepEpoch(cfg, states[k - 1], events[k - 1]);
      if BeginsEpoch(cfg, states[k - 1], events[k - 1]) {
        m := k - 1;
      }
    }
  }
}
