/**
 What the fields of the delivery-rate sampler say about the past of a run:
 when an item was sent, what the spans of a sample measure, what its rate
 is, and how long the connection counts as limited by the application.
 */
module RateRuns {
  import opened Arithmetic
  import opened RateTypes
  import opened RateOps

  // The delivery rate

  /** `rate` is the number of bits per second for some bytes in some ticks, cut to a whole number. */
  ghost predicate IsRateOf(rate: int, bytes: nat, ticks: nat) {
    rate * ticks <= 8 * TICKS_PER_SECOND * bytes < (rate + 1) * ticks
  }

  lemma RateOfBytes(bytes: nat, ticks: nat)
    requires ticks > 0
    ensures IsRateOf(Rate(bytes, ticks), bytes, ticks)
  {
    QuotientBounds(bytes * 8 * TICKS_PER_SECOND, ticks);
  }

  /** A sample that the application did not limit, or that is no slower than the last one accepted. */
  ghost predicate Accepts(w: World, s: Sample) {
    !s.isAppLimited || s.delivered * w.conn.rateInterval >= w.conn.rateDelivered * s.interval
  }

  /**
   A valid sample gets the rate of its own bytes and interval exactly if it is
   accepted, which also makes it the one that limited samples are compared
   with; else, and without a valid sample, the rate is the one of before.
   */
  lemma RateIs(worlds: seq<World>, events: seq<Event>, ack: AckArgs)
    requires IsRun(worlds, events) && ack.minRtt > 0
    ensures var w := worlds[|events|];
            var w' := Step(w, Generate(ack));
            var s := w'.sample;
            if s.interval != 0 && Accepts(w, s) then
              && 0 <= s.delivered && 0 < s.interval && IsRateOf(s.deliveryRate, s.delivered, s.interval)
              && w'.conn.rateDelivered == s.delivered && w'.conn.rateInterval == s.interval
              && w'.conn.rateAppLimited == s.isAppLimited
            else
              && s.deliveryRate == w.sample.deliveryRate
              && w'.conn == w.conn.(appLimited := w'.conn.appLimited)
  {
    RunKeeps(worlds, events);
    var s := Step(worlds[|events|], Generate(ack)).sample;
    if s.interval != 0 {
      RateOfBytes(s.delivered, s.interval);
    }
  }

  /** On an ACK that refreshed the sample: the rate of exactly the bytes delivered since the sample's snapshot. */
  lemma RateIsOfDeliveries(worlds: seq<World>, events: seq<Event>, ack: AckArgs)
    requires IsRun(worlds, events) && ack.minRtt > 0 && worlds[|events|].refreshedAt == worlds[|events|].now
    ensures var w := worlds[|events|];
            var s := Step(w, Generate(ack)).sample;
            s.interval != 0 && Accepts(w, s) ==>
              && w.sampleMark <= |w.log| && s.interval == Max(s.sendElapsed, w.now - w.sample.priorTime) > 0
              && IsRateOf(s.deliveryRate, Total(w.log[w.sampleMark..]), s.interval)
  {
    RateIs(worlds, events, ack);
    SampleAccurate(worlds, events, ack);
    RunKeeps(worlds, events);
  }

  /** A sample that the application limited never lowers the rate that is recorded for the connection. */
  lemma LimitedNeverLowers(worlds: seq<World>, events: seq<Event>, ack: AckArgs)
    requires IsRun(worlds, events) && ack.minRtt > 0 && worlds[|events|].sample.isAppLimited
    ensures var c, c' := worlds[|events|].conn, Step(worlds[|events|], Generate(ack)).conn;
            c'.rateDelivered * c.rateInterval >= c.rateDelivered * c'.rateInterval
  {
    RateIs(worlds, events, ack);
  }

  /**
   What the test for a valid sample finds out: it takes a sample with timing
   information after reneging for a valid one, although its interval is zero
   and its bytes are -1.
   */
  lemma FoundValidIff(worlds: seq<World>, events: seq<Event>, ack: AckArgs)
    requires IsRun(worlds, events) && ack.minRtt > 0
    ensures var w := worlds[|events|];
            var s := Step(w, Generate(ack)).sample;
            var tooShort := Max(w.sample.sendElapsed, w.sample.ackElapsed) < ack.minRtt;
            && (IsValid(s) <==> w.sample.priorTime != 0 && (ack.isSackReneg || !tooShort))
            && (w.sample.priorTime == 0 || ack.isSackReneg ==> s.interval == 0 && s.delivered == -1)
            && s.ackedSacked == ack.delivered && s.bytesLoss == ack.lost && s.priorInFlight == ack.priorInFlight
  {
    RunKeeps(worlds, events);
  }

  // Which event a field comes from

  /** Event k starts a transmission. */
  ghost predicate StartsAt(events: seq<Event>, k: nat)
    requires k < |events|
  {
    events[k].Send? && events[k].isStart
  }

  /** Event k delivers an armed item. */
  ghost predicate DeliversAt(worlds: seq<World>, events: seq<Event>, k: nat)
    requires k < |events| < |worlds|
  {
    events[k].Deliver? && events[k].i < |worlds[k].items| && Armed(worlds[k].items[events[k].i])
  }

  /** Event k delivers an armed item sent later than that of the sample, or the first one sampled. */
  ghost predicate RefreshesAt(worlds: seq<World>, events: seq<Event>, k: nat)
    requires k < |events| < |worlds|
  {
    && DeliversAt(worlds, events, k)
    && var prior := worlds[k].sample.priorDelivered;
       prior == 0 || worlds[k].items[events[k].i].info.delivered > prior
  }

  lemma StepAt(worlds: seq<World>, events: seq<Event>, k: nat)
    requires IsRun(worlds, events) && k < |events|
    ensures Possible(worlds[k], events[k]) && worlds[k + 1] == Step(worlds[k], events[k])
  {
  }

  /** The event before which no item was armed and after which item i is: its last transmission. */
  ghost predicate LastSentAt(events: seq<Event>, i: nat, m: nat, k: nat) {
    && m < k <= |events| && events[m].Send? && events[m].i == i
    && forall n :: m < n < k && events[n].Send? ==> events[n].i != i
  }

  /** An armed item tells the time of its last transmission and the state of the connection then. */
  lemma {:induction false} ArmedItemIs(worlds: seq<World>, events: seq<Event>, i: nat, k: nat) returns (m: nat)
    requires IsRun(worlds, events) && k <= |events| && i < |worlds[k].items| && Armed(worlds[k].items[i])
    ensures LastSentAt(events, i, m, k) && worlds[k].items[i].lastSent == worlds[m].now
    ensures var info, c := worlds[k].items[i].info, worlds[m + 1].conn;
            && info.delivered == c.delivered && info.deliveredTime == c.deliveredTime
            && info.firstSent == c.firstSentTime && (info.isAppLimited <==> c.appLimited != 0)
  {
    if k == 0 {
      assert false;
    } else {
      StepAt(worlds, events, k - 1);
      if events[k - 1].Send? && events[k - 1].i == i {
        m := k - 1;
      } else {
        m := ArmedItemIs(worlds, events, i, k - 1);
      }
    }
  }

  /** The delivery time is the time of the last delivery or start of a transmission. */
  lemma {:induction false} DeliveredTimeIs(worlds: seq<World>, events: seq<Event>, k: nat) returns (m: int)
    requires IsRun(worlds, events) && k <= |events|
    ensures -1 <= m < k && worlds[k].conn.deliveredTime == if m < 0 then 0 else worlds[m].now
    ensures m >= 0 ==> StartsAt(events, m) || DeliversAt(worlds, events, m)
    ensures forall n :: m < n < k ==> !StartsAt(events, n) && !DeliversAt(worlds, events, n)
  {
    m := -1;
    if k > 0 {
      StepAt(worlds, events, k - 1);
      m := DeliveredTimeIs(worlds, events, k - 1);
      if StartsAt(events, k - 1) || DeliversAt(worlds, events, k - 1) {
        m := k - 1;
      }
    }
  }

  /**
   The first-sent time is when the item was sent that refreshed the sample
   last, or the start of a transmission since.
   */
  lemma {:induction false} FirstSentTimeIs(worlds: seq<World>, events: seq<Event>, k: nat) returns (m: int)
    requires IsRun(worlds, events) && k <= |events|
    ensures -1 <= m < k && (m >= 0 ==> StartsAt(events, m) || RefreshesAt(worlds, events, m))
    ensures worlds[k].conn.firstSentTime
         == if m < 0 then 0
            else if StartsAt(events, m) then worlds[m].now
            else worlds[m].items[events[m].i].lastSent
    ensures forall n :: m < n < k ==> !StartsAt(events, n) && !RefreshesAt(worlds, events, n)
  {
    m := -1;
    if k > 0 {
      StepAt(worlds, events, k - 1);
      m := FirstSentTimeIs(worlds, events, k - 1);
      if StartsAt(events, k - 1) || RefreshesAt(worlds, events, k - 1) {
        m := k - 1;
      }
    }
  }

  /** The sample `s` was refreshed by event n with an item that event m sent. */
  ghost predicate Spans(worlds: seq<World>, events: seq<Event>, m: nat, n: nat, s: Sample)
    requires n < |events| < |worlds| && events[n].Deliver?
  {
    && LastSentAt(events, events[n].i, m, n)
    && var c := worlds[m + 1].conn;
       && s.ackElapsed == worlds[n].now - c.deliveredTime
       && s.sendElapsed == worlds[m].now - c.firstSentTime
       && s.priorDelivered == c.delivered && (s.isAppLimited <==> c.appLimited != 0)
       && (s.priorTime == c.deliveredTime || s.priorTime == 0)
  }

  lemma RefreshedSpans(worlds: seq<World>, events: seq<Event>, n: nat) returns (m: nat)
    requires IsRun(worlds, events) && n < |events| && RefreshesAt(worlds, events, n)
    ensures Spans(worlds, events, m, n, worlds[n + 1].sample)
  {
    StepAt(worlds, events, n);
    m := ArmedItemIs(worlds, events, events[n].i, n);
  }

  /**
   The sample's spans, before event k: it was last refreshed by event n, the
   delivery of an item whose last transmission was event m.  The ACK span
   runs from the delivery time of that transmission to the delivery, the
   send span from the first-sent time of then to the transmission, and the
   sample is limited by the application if the connection was then.
   */
  lemma {:induction false} SpansAre(worlds: seq<World>, events: seq<Event>, k: nat) returns (m: nat, n: int)
    requires IsRun(worlds, events) && k <= |events|
    ensures -1 <= n < k && forall j :: n < j < k ==> !RefreshesAt(worlds, events, j)
    ensures if n < 0 then worlds[k].sample.priorTime == 0
            else RefreshesAt(worlds, events, n) && Spans(worlds, events, m, n, worlds[k].sample)
  {
    m, n := 0, -1;
    if k > 0 {
      StepAt(worlds, events, k - 1);
      if RefreshesAt(worlds, events, k - 1) {
        m := RefreshedSpans(worlds, events, k - 1);
        n := k - 1;
      } else {
        m, n := SpansAre(worlds, events, k - 1);
      }
    }
  }

  /** The connection's mark of the item delivered last is that item's count of delivered bytes. */
  lemma {:induction false} TxItemDeliveredIs(worlds: seq<World>, events: seq<Event>, k: nat) returns (m: int)
    requires IsRun(worlds, events) && k <= |events|
    ensures -1 <= m < k && (m >= 0 ==> DeliversAt(worlds, events, m))
    ensures worlds[k].conn.txItemDelivered == if m < 0 then 0 else worlds[m].items[events[m].i].info.delivered
    ensures forall n :: m < n < k ==> !DeliversAt(worlds, events, n)
  {
    m := -1;
    if k > 0 {
      StepAt(worlds, events, k - 1);
      m := TxItemDeliveredIs(worlds, events, k - 1);
      if DeliversAt(worlds, events, k - 1) {
        m := k - 1;
      }
    }
  }

  // Limited by the application

  /** Less than a segment to send, room in the window, and nothing lost that is not retransmitted. */
  ghost predicate RunsDry(a: SendArgs) {
    a.tailSeq - a.nextTx < a.segmentSize && a.inFlight < a.cWnd && a.lostOut <= a.retransOut
  }

  /** An event that tells where the limit is: a mark when the data runs dry, or a sample that brings one. */
  ghost predicate Limits(e: Event) {
    (e.Mark? && RunsDry(e.args)) || (e.Generate? && e.ack.appLimited != 0)
  }

  ghost function LimitOf(w: World, e: Event): nat
    requires Limits(e)
  {
    if e.Mark? then Max(w.conn.delivered + e.args.inFlight, 1) else e.ack.appLimited
  }

  /** A sample after more than `limit` bytes are delivered. */
  ghost predicate PassesAt(worlds: seq<World>, events: seq<Event>, limit: nat, k: nat)
    requires k < |events| < |worlds|
  {
    events[k].Generate? && worlds[k].conn.delivered > limit
  }

  ghost predicate Passed(worlds: seq<World>, events: seq<Event>, limit: nat, i: nat, k: nat)
    requires k <= |events| < |worlds|
  {
    exists n :: i <= n < k && PassesAt(worlds, events, limit, n)
  }

  lemma PassedSnoc(worlds: seq<World>, events: seq<Event>, limit: nat, i: nat, k: nat)
    requires i < k <= |events| < |worlds|
    ensures Passed(worlds, events, limit, i, k)
       <==> Passed(worlds, events, limit, i, k - 1) || PassesAt(worlds, events, limit, k - 1)
  {
  }

  lemma BubbleStep(w: World, e: Event, limit: nat)
    requires Possible(w, e) && !Limits(e) && (w.conn.appLimited == 0 || w.conn.appLimited == limit)
    ensures Step(w, e).conn.appLimited
         == if e.Generate? && w.conn.delivered > limit then 0 else w.conn.appLimited
  {
  }

  /**
   The connection counts as limited from then on exactly up to the first
   sample after everything up to the limit, and more, is delivered.  For a
   mark that is all that was then delivered or in flight.
   */
  lemma {:induction false} BubbleLasts(worlds: seq<World>, events: seq<Event>, i: nat, k: nat)
    requires IsRun(worlds, events) && i < k <= |events| && Limits(events[i])
    requires forall n :: i < n < k ==> !Limits(events[n])
    ensures var limit := LimitOf(worlds[i], events[i]);
            worlds[k].conn.appLimited == if Passed(worlds, events, limit, i, k) then 0 else limit
  {
    StepAt(worlds, events, k - 1);
    var limit := LimitOf(worlds[i], events[i]);
    PassedSnoc(worlds, events, limit, i, k);
    if i + 1 < k {
      BubbleLasts(worlds, events, i, k - 1);
      BubbleStep(worlds[k - 1], events[k - 1], limit);
    }
  }

  /** Until the data runs dry, or a sample says so, the connection does not count as limited. */
  lemma {:induction false} UnlimitedBefore(worlds: seq<World>, events: seq<Event>, k: nat)
    requires IsRun(worlds, events) && k <= |events| && forall n :: 0 <= n < k ==> !Limits(events[n])
    ensures worlds[k].conn.appLimited == 0
  {
    if k > 0 {
      StepAt(worlds, events, k - 1);
      UnlimitedBefore(worlds, events, k - 1);
    }
  }
}
