/**
 Delivery-rate sampling: every transmitted item carries a snapshot of the
 connection's delivery state; its delivery is accounted once and may refresh
 the rate sample.  Time and byte counts are natural numbers without wrap-around
 and no run reaches the time `TIME_MAX`, which marks an item as not in flight.
 */
module RateOps {
  import opened Arithmetic
  import opened RateTypes

  /**
   The snapshot in an item.  `deliveredTime` is TIME_MAX unless the item is armed, that
   is sent and not yet delivered.
   */
  datatype RateInformation = RateInformation(delivered: nat, deliveredTime: nat, firstSent: nat, isAppLimited: bool)

  datatype TxItem = TxItem(size: nat, lastSent: nat, info: RateInformation)

  const NEW_ITEM_INFO := RateInformation(0, TIME_MAX, 0, false)
  const NEW_CONNECTION := Connection(0, 0, 0, 0, 0, 0, 0, false)
  const NEW_SAMPLE := Sample(0, false, 0, 0, 0, 0, 0, 0, 0, 0, 0)

  predicate Armed(item: TxItem) {
    item.info.deliveredTime != TIME_MAX
  }

  function Started(c: Connection, now: nat, isStart: bool): Connection {
    if isStart then c.(firstSentTime := now, deliveredTime := now) else c
  }

  /** What `SkbSent` writes into the item, given the connection as it leaves it. */
  function Snapshot(c: Connection): RateInformation {
    RateInformation(c.delivered, c.deliveredTime, c.firstSentTime, c.appLimited != 0)
  }

  predicate Refreshes(s: Sample, item: TxItem) {
    Armed(item) && (s.priorDelivered == 0 || item.info.delivered > s.priorDelivered)
  }

  function DeliveredConnection(c: Connection, s: Sample, item: TxItem, now: nat): Connection {
    if !Armed(item) then c
    else
      c.(delivered := c.delivered + item.size, deliveredTime := now, txItemDelivered := item.info.delivered,
         firstSentTime := if Refreshes(s, item) then item.lastSent else c.firstSentTime)
  }

  function DeliveredSample(s: Sample, item: TxItem, now: nat): Sample {
    if !Refreshes(s, item) then s
    else
      s.(ackElapsed := now - item.info.deliveredTime, priorDelivered := item.info.delivered,
         priorTime := item.info.deliveredTime, isAppLimited := item.info.isAppLimited,
         sendElapsed := item.lastSent - item.info.firstSent)
  }

  function DeliveredItem(item: TxItem): TxItem {
    item.(info := item.info.(deliveredTime := TIME_MAX))
  }

  datatype AckArgs = AckArgs(delivered: nat, appLimited: nat, lost: nat, isSackReneg: bool, priorInFlight: nat,
          minRtt: nat)

  function AppLimitChecked(c: Connection, appLimited: nat): Connection {
    var limit := if appLimited != 0 then appLimited else c.appLimited;
    c.(appLimited := if limit != 0 && c.delivered > limit then 0 else limit)
  }

  function Rate(delivered: int, interval: nat): int
    requires interval > 0
  {
    delivered * 8 * TICKS_PER_SECOND / interval
  }

  /**
   The outcome of `GenerateSample`; a sample without timing, after reneging or shorter
   than the minimum RTT is invalidated.
   */
  function Generated(c0: Connection, s0: Sample, a: AckArgs): (Connection, Sample)
    requires a.minRtt > 0
  {
    var c := AppLimitChecked(c0, a.appLimited);
    var s := s0.(ackedSacked := a.delivered, bytesLoss := a.lost, priorInFlight := a.priorInFlight);
    if s.priorTime == 0 || a.isSackReneg then (c, s.(delivered := -1, interval := 0))
    else
      var s1 := s.(interval := Max(s.sendElapsed, s.ackElapsed), delivered := c.delivered - s.priorDelivered);
      if s1.interval < a.minRtt then (c, s1.(interval := 0, priorTime := 0))
      else if !s1.isAppLimited || s1.delivered * c.rateInterval >= c.rateDelivered * s1.interval then
        (c.(rateDelivered := s1.delivered, rateInterval := s1.interval, rateAppLimited := s1.isAppLimited),
         s1.(deliveryRate := Rate(s1.delivered, s1.interval)))
      else (c, s1)
  }

  datatype SendArgs = SendArgs(cWnd: nat, inFlight: nat, segmentSize: nat, tailSeq: nat, nextTx: nat, lostOut: nat,
          retransOut: nat)

  function AppLimitMarked(c: Connection, a: SendArgs): Connection {
    if a.tailSeq - a.nextTx < a.segmentSize && a.inFlight < a.cWnd && a.lostOut <= a.retransOut
    then c.(appLimited := Max(c.delivered + a.inFlight, 1)) else c
  }

  // Runs

  datatype Delivery = Delivery(at: nat, size: nat)

  /**
   A sender with its items.  The last five fields are history: all accounted
   deliveries, the bytes of all sends that armed an item, for each item and
   for the sample how many deliveries preceded the snapshot, and when the
   sample was last refreshed.
   */
  datatype World = World(
    now: nat, conn: Connection, sample: Sample, items: seq<TxItem>,
    log: seq<Delivery>, sentBytes: nat, marks: seq<nat>, sampleMark: nat, refreshedAt: nat)

  datatype Event =
    | Tick(elapsed: nat)
    | Send(i: nat, isStart: bool)
    | Deliver(i: nat)
    | Generate(ack: AckArgs)
    | Mark(args: SendArgs)

  /** A sender that has sent nothing; items have fixed sizes. */
  function Fresh(now: nat, sizes: seq<nat>): World {
    World(now, NEW_CONNECTION, NEW_SAMPLE,
          seq(|sizes|, i requires 0 <= i < |sizes| => TxItem(sizes[i], 0, NEW_ITEM_INFO)),
          [], 0, seq(|sizes|, _ => 0), 0, 0)
  }

  /** Only existing items are sent and delivered, and time stays below TIME_MAX. */
  predicate Possible(w: World, e: Event) {
    match e
    case Tick(elapsed) => w.now + elapsed < TIME_MAX
    case Send(i, _) => i < |w.items| == |w.marks|
    case Deliver(i) => i < |w.items| == |w.marks|
    case Generate(ack) => ack.minRtt > 0
    case Mark(_) => true
  }

  function Step(w: World, e: Event): World
    requires Possible(w, e)
  {
    match e
    case Tick(elapsed) => w.(now := w.now + elapsed)
    case Send(i, isStart) =>
      var c := Started(w.conn, w.now, isStart);
      var item := w.items[i];
      w.(conn := c, items := w.items[i := item.(lastSent := w.now, info := Snapshot(c))],
         sentBytes := w.sentBytes + (if Armed(item) then 0 else item.size), marks := w.marks[i := |w.log|])
    case Deliver(i) =>
      var item := w.items[i];
      if !Armed(item) then w
      else
        w.(conn := DeliveredConnection(w.conn, w.sample, item, w.now), sample := DeliveredSample(w.sample, item, w.now),
           items := w.items[i := DeliveredItem(item)], log := w.log + [Delivery(w.now, item.size)],
           sampleMark := if Refreshes(w.sample, item) then w.marks[i] else w.sampleMark,
           refreshedAt := if Refreshes(w.sample, item) then w.now else w.refreshedAt)
    case Generate(ack) =>
      var (c, s) := Generated(w.conn, w.sample, ack);
      w.(conn := c, sample := s)
    case Mark(args) => w.(conn := AppLimitMarked(w.conn, args))
  }

  ghost predicate IsRun(worlds: seq<World>, events: seq<Event>) {
    && |worlds| == |events| + 1
    && (exists now: nat, sizes :: now < TIME_MAX && worlds[0] == Fresh(now, sizes))
    && forall k :: 0 <= k < |events| ==> Possible(worlds[k], events[k]) && worlds[k + 1] == Step(worlds[k], events[k])
  }

  ghost function ArmedBytes(items: seq<TxItem>): nat {
    if items == [] then 0
    else ArmedBytes(items[..|items| - 1]) + (if Armed(items[|items| - 1]) then items[|items| - 1].size else 0)
  }

  ghost function Total(log: seq<Delivery>): nat {
    if log == [] then 0 else Total(log[..|log| - 1]) + log[|log| - 1].size
  }

  lemma {:induction false} ArmedBytesUpdate(items: seq<TxItem>, i: nat, item: TxItem)
    requires i < |items| && item.size == items[i].size
    ensures ArmedBytes(items[i := item]) + (if Armed(items[i]) then item.size else 0)
         == ArmedBytes(items) + (if Armed(item) then item.size else 0)
  {
    var last := |items| - 1;
    if i == last {
      assert items[i := item][..last] == items[..last];
    } else {
      assert items[i := item][..last] == items[..last][i := item];
      ArmedBytesUpdate(items[..last], i, item);
    }
  }

  lemma {:induction false} TotalSplit(log: seq<Delivery>, k: nat)
    requires k <= |log|
    ensures Total(log) == Total(log[..k]) + Total(log[k..])
  {
    if k == |log| {
      assert log[..k] == log;
    } else {
      var last := |log| - 1;
      TotalSplit(log[..last], k);
      assert log[..last][..k] == log[..k] && log[..last][k..] == log[k..][..last - k];
    }
  }

  /** A snapshot taken when `mark` deliveries were accounted, the last of them no later than `time`. */
  ghost predicate Snapshots(log: seq<Delivery>, mark: nat, delivered: nat, time: nat) {
    && mark <= |log|
    && Total(log[..mark]) == delivered
    && (forall j :: 0 <= j < mark ==> log[j].at <= time)
    && forall j :: mark <= j < |log| ==> log[j].at >= time
  }

  ghost predicate ItemInv(w: World, i: nat)
    requires i < |w.items| == |w.marks|
  {
    var item := w.items[i];
    item.lastSent <= w.now
    && (Armed(item) ==>
          && Snapshots(w.log, w.marks[i], item.info.delivered, item.info.deliveredTime)
          && item.info.delivered <= w.conn.delivered && item.info.deliveredTime <= w.conn.deliveredTime
          && item.info.firstSent <= item.lastSent)
  }

  ghost predicate SampleInv(w: World) {
    && w.sample.priorDelivered <= w.conn.delivered && w.sample.priorTime <= w.conn.deliveredTime
    && w.sample.sendElapsed >= 0 && w.sample.ackElapsed >= 0
    && w.refreshedAt <= w.now
    && (w.sample.priorTime != 0 ==>
          && Snapshots(w.log, w.sampleMark, w.sample.priorDelivered, w.sample.priorTime)
          && w.sample.ackElapsed == w.refreshedAt - w.sample.priorTime)
  }

  ghost predicate LogInv(w: World) {
    && Total(w.log) == w.conn.delivered
    && w.conn.deliveredTime <= w.now < TIME_MAX && w.conn.firstSentTime <= w.now
    && (forall j :: 0 <= j < |w.log| ==> w.log[j].at <= w.conn.deliveredTime)
  }

  ghost predicate Inv(w: World) {
    && |w.items| == |w.marks|
    && LogInv(w) && SampleInv(w)
    && (forall i :: 0 <= i < |w.items| ==> ItemInv(w, i))
    && w.conn.delivered + ArmedBytes(w.items) == w.sentBytes
  }

  lemma SnapshotGrows(log: seq<Delivery>, mark: nat, delivered: nat, time: nat, d: Delivery)
    requires Snapshots(log, mark, delivered, time) && d.at >= time
    ensures Snapshots(log + [d], mark, delivered, time)
  {
    assert (log + [d])[..mark] == log[..mark];
  }

  lemma FreshInv(now: nat, sizes: seq<nat>)
    requires now < TIME_MAX
    ensures Inv(Fresh(now, sizes))
  {
    var w := Fresh(now, sizes);
    NothingArmed(w.items);
    forall i | 0 <= i < |w.items|
      ensures ItemInv(w, i)
    {
    }
  }

  lemma {:induction false} NothingArmed(items: seq<TxItem>)
    requires forall i :: 0 <= i < |items| ==> !Armed(items[i])
    ensures ArmedBytes(items) == 0
  {
    if items != [] {
      NothingArmed(items[..|items| - 1]);
    }
  }

  lemma SendKeeps(w: World, i: nat, isStart: bool)
    requires Inv(w) && Possible(w, Send(i, isStart))
    ensures Inv(Step(w, Send(i, isStart)))
  {
    var w' := Step(w, Send(i, isStart));
    ArmedBytesUpdate(w.items, i, w'.items[i]);
    assert w.log[..|w.log|] == w.log;
    forall k | 0 <= k < |w'.items|
      ensures ItemInv(w', k)
    {
      assert ItemInv(w, k);
    }
  }

  lemma DeliverKeeps(w: World, i: nat)
    requires Inv(w) && Possible(w, Deliver(i))
    ensures Inv(Step(w, Deliver(i)))
  {
    if Armed(w.items[i]) {
      var w' := Step(w, Deliver(i));
      DeliverKeepsTotals(w, i);
      DeliverKeepsSample(w, i);
      forall k | 0 <= k < |w'.items|
        ensures ItemInv(w', k)
      {
        DeliverKeepsItem(w, i, k);
      }
    }
  }

  lemma TotalAppend(log: seq<Delivery>, d: Delivery)
    ensures Total(log + [d]) == Total(log) + d.size
  {
    assert (log + [d])[..|log|] == log;
  }

  lemma DeliverKeepsTotals(w: World, i: nat)
    requires Inv(w) && Possible(w, Deliver(i)) && Armed(w.items[i])
    ensures var w' := Step(w, Deliver(i)); LogInv(w') && w'.conn.delivered + ArmedBytes(w'.items) == w'.sentBytes
  {
    assert ItemInv(w, i);
    ArmedBytesUpdate(w.items, i, DeliveredItem(w.items[i]));
    TotalAppend(w.log, Delivery(w.now, w.items[i].size));
  }

  lemma DeliverKeepsItem(w: World, i: nat, k: nat)
    requires Possible(w, Deliver(i)) && Armed(w.items[i]) && k < |w.items| && LogInv(w) && ItemInv(w, k)
    ensures ItemInv(Step(w, Deliver(i)), k)
  {
    var item := w.items[k];
    if k != i && Armed(item) {
      SnapshotGrows(w.log, w.marks[k], item.info.delivered, item.info.deliveredTime, Delivery(w.now, w.items[i].size));
    }
  }

  lemma DeliverKeepsSample(w: World, i: nat)
    requires Inv(w) && Possible(w, Deliver(i)) && Armed(w.items[i])
    ensures SampleInv(Step(w, Deliver(i)))
  {
    var item := w.items[i];
    var d := Delivery(w.now, item.size);
    assert ItemInv(w, i);
    if Refreshes(w.sample, item) {
      SnapshotGrows(w.log, w.marks[i], item.info.delivered, item.info.deliveredTime, d);
    } else if w.sample.priorTime != 0 {
      SnapshotGrows(w.log, w.sampleMark, w.sample.priorDelivered, w.sample.priorTime, d);
    }
  }

  lemma OtherKeeps(w: World, e: Event)
    requires Inv(w) && Possible(w, e) && (e.Tick? || e.Generate? || e.Mark?)
    ensures Inv(Step(w, e))
  {
    var w' := Step(w, e);
    forall k | 0 <= k < |w'.items|
      ensures ItemInv(w', k)
    {
      assert ItemInv(w, k);
    }
  }

  lemma StepKeeps(w: World, e: Event)
    requires Inv(w) && Possible(w, e)
    ensures Inv(Step(w, e))
  {
    match e
    case Send(i, isStart) => SendKeeps(w, i, isStart);
    case Deliver(i) => DeliverKeeps(w, i);
    case _ => OtherKeeps(w, e);
  }

  lemma {:induction false} RunKeeps(worlds: seq<World>, events: seq<Event>)
    requires IsRun(worlds, events)
    ensures Inv(worlds[|events|])
    decreases |events|
  {
    if events == [] {
      var now: nat, sizes :| now < TIME_MAX && worlds[0] == Fresh(now, sizes);
      FreshInv(now, sizes);
    } else {
      var n := |events| - 1;
      Prefix(worlds, events);
      RunKeeps(worlds[..n + 1], events[..n]);
      StepKeeps(worlds[n], events[n]);
    }
  }

  lemma Prefix(worlds: seq<World>, events: seq<Event>)
    requires IsRun(worlds, events) && events != []
    ensures IsRun(worlds[..|events|], events[..|events| - 1])
  {
  }

  // What the runs keep

  /**
   Conservation: the bytes delivered and the bytes of items still armed are
   together the bytes of all sends that armed an item, so that no send is
   counted twice, neither by a SACK before the cumulative ACK nor otherwise.
   */
  lemma DeliveryConservation(worlds: seq<World>, events: seq<Event>)
    requires IsRun(worlds, events)
    ensures var w := worlds[|events|];
            w.conn.delivered + ArmedBytes(w.items) == w.sentBytes && w.conn.delivered == Total(w.log)
  {
    RunKeeps(worlds, events);
  }

  /** The snapshot the sample starts from only moves forward, and never past what is delivered. */
  lemma {:induction false} PriorDeliveredMonotone(worlds: seq<World>, events: seq<Event>, i: nat)
    requires IsRun(worlds, events) && i <= |events|
    ensures worlds[i].sample.priorDelivered <= worlds[|events|].sample.priorDelivered <= worlds[|events|].conn.delivered
    decreases |events|
  {
    RunKeeps(worlds, events);
    if i < |events| {
      var n := |events| - 1;
      Prefix(worlds, events);
      PriorDeliveredMonotone(worlds[..n + 1], events[..n], i);
    }
  }

  /** The deliveries a sample counts, and nothing else, lie in its window from `from` to `to`. */
  ghost predicate CountsExactly(w: World, from: int, to: int) {
    && w.sampleMark <= |w.log|
    && w.sample.delivered == Total(w.log[w.sampleMark..])
    && (forall j :: w.sampleMark <= j < |w.log| ==> from <= w.log[j].at <= to)
    && (forall j :: 0 <= j < w.sampleMark ==> w.log[j].at <= from)
  }

  /**
   On an ACK that refreshed the sample, a sample that is not invalidated
   counts exactly the bytes delivered since the snapshot of the item it was
   refreshed from, in an interval at least as long as the time from that
   snapshot to now and as the time over which the window was sent.
   */
  lemma SampleAccurate(worlds: seq<World>, events: seq<Event>, ack: AckArgs)
    requires IsRun(worlds, events) && ack.minRtt > 0 && worlds[|events|].refreshedAt == worlds[|events|].now
    ensures var w := worlds[|events|];
            var w' := Step(w, Generate(ack));
            w'.sample.interval != 0 ==>
              && CountsExactly(w', w.sample.priorTime, w.now)
              && w'.sample.interval >= w.now - w.sample.priorTime
              && w'.sample.interval >= w.sample.sendElapsed
              && w'.sample.interval >= ack.minRtt
  {
    RunKeeps(worlds, events);
    var w := worlds[|events|];
    if w.sample.priorTime != 0 {
      TotalSplit(w.log, w.sampleMark);
    }
  }

  /**
   The last delivery was the last event that set the connection's delivery time: no
   transmission has started since.
   */
  ghost predicate DeliveredLast(w: World) {
    w.log != [] && w.log[|w.log| - 1].at == w.conn.deliveredTime
  }

  /**
   Without asking for a refresh, in the fields of the sampler: a valid sample
   is exact if nothing was delivered after the end of its ACK span; unless a
   transmission has started since the last delivery, only then; and on an ACK
   that delivered something, exactly if that span ends now.
   */
  lemma SampleAccurateIff(worlds: seq<World>, events: seq<Event>, ack: AckArgs)
    requires IsRun(worlds, events) && ack.minRtt > 0
    ensures var w := worlds[|events|];
            var w' := Step(w, Generate(ack));
            var end := w.sample.priorTime + w.sample.ackElapsed;
            w'.sample.interval != 0 ==>
              && (w.conn.deliveredTime <= end ==> CountsExactly(w', w.sample.priorTime, end))
              && (DeliveredLast(w) ==> (CountsExactly(w', w.sample.priorTime, end) <==> w.conn.deliveredTime <= end))
              && (DeliveredLast(w) && w.conn.deliveredTime == w.now ==>
                    (CountsExactly(w', w.sample.priorTime, end) <==> end == w.now))
  {
    RunKeeps(worlds, events);
    var w := worlds[|events|];
    if w.sample.priorTime != 0 {
      TotalSplit(w.log, w.sampleMark);
    }
  }

  /** Every delivery since the sample's snapshot lies in its ACK span. */
  ghost predicate WithinSpan(w: World) {
    && w.sampleMark <= |w.log|
    && forall j :: w.sampleMark <= j < |w.log| ==> 0 <= w.log[j].at - w.sample.priorTime <= w.sample.ackElapsed
  }

  /**
   A further delivery keeps the sample exact if and only if it refreshes the sample, or
   comes at the time of the last refresh.
   */
  lemma DeliveryKeepsAccurateIff(worlds: seq<World>, events: seq<Event>, i: nat)
    requires IsRun(worlds, events) && Possible(worlds[|events|], Deliver(i)) && Armed(worlds[|events|].items[i])
    requires worlds[|events|].sample.priorTime != 0 && WithinSpan(worlds[|events|])
    ensures var w := worlds[|events|];
            var atEnd := w.now == w.sample.priorTime + w.sample.ackElapsed;
            WithinSpan(Step(w, Deliver(i))) <==> Refreshes(w.sample, w.items[i]) || atEnd
  {
    RunKeeps(worlds, events);
    var w := worlds[|events|];
    var w' := Step(w, Deliver(i));
    assert ItemInv(w, i);
    assert w'.log[|w.log|] == Delivery(w.now, w.items[i].size);
    if Refreshes(w.sample, w.items[i]) {
      assert Snapshots(w.log, w.marks[i], w.items[i].info.delivered, w.items[i].info.deliveredTime);
    } else {
      assert Snapshots(w.log, w.sampleMark, w.sample.priorDelivered, w.sample.priorTime);
    }
  }

  /**
   A sample is invalidated exactly without timing information, after reneging, or when
   it is shorter than the minimum RTT.
   */
  lemma InvalidatedIff(worlds: seq<World>, events: seq<Event>, ack: AckArgs)
    requires IsRun(worlds, events) && ack.minRtt > 0
    ensures var w := worlds[|events|];
            var invalid := w.sample.priorTime == 0 || ack.isSackReneg
                || Max(w.sample.sendElapsed, w.sample.ackElapsed) < ack.minRtt;
            Step(w, Generate(ack)).sample.interval == 0 <==> invalid
  {
    RunKeeps(worlds, events);
  }

  /**
   Without a refresh the sample of an earlier ACK is used again, and then it
   may count a delivery after its window: here item 1, sent later, is
   delivered first, and item 0 is added to item 1's old interval.  A sample is
   generated at every ACK.
   */
  lemma StaleSampleOvercounts() returns (worlds: seq<World>, events: seq<Event>)
    ensures IsRun(worlds, events) && EveryAckSamples(events)
    ensures var w := worlds[|events|];
            && IsValid(w.sample) && w.sample.interval > 0 && w.sampleMark < |w.log|
            && w.log[|w.log| - 1].at > w.sample.priorTime + w.sample.interval
            && w.sample.delivered == Total(w.log[w.sampleMark..]) > Total(w.log[w.sampleMark..|w.log| - 1])
  {
    worlds, events := FirstDelivered();
    worlds, events := SecondDelivered(worlds, events);
    worlds, events := Extend(worlds, events, Tick(10));
    worlds, events := Extend(worlds, events, Deliver(0));
    var w := worlds[|events|];
    assert w.log == [Delivery(2, 1), Delivery(3, 1), Delivery(13, 1)] && w.sampleMark == 1 && w.conn.delivered == 3;
    worlds, events := Extend(worlds, events, Generate(ONE_ACKED));
    TotalOfTail(w.log);
  }

  /** Every delivery is followed by a sample. */
  ghost predicate EveryAckSamples(events: seq<Event>) {
    forall k :: 0 <= k < |events| && events[k].Deliver? ==> k + 1 < |events| && events[k + 1].Generate?
  }

  const ONE_ACKED := AckArgs(1, 0, 0, false, 3, 1)

  lemma TotalOfTail(log: seq<Delivery>)
    requires log == [Delivery(2, 1), Delivery(3, 1), Delivery(13, 1)]
    ensures Total(log[1..]) == 2 && Total(log[1..2]) == 1
  {
    assert log[1..2] == [] + [Delivery(3, 1)] && log[1..] == log[1..2] + [Delivery(13, 1)];
    TotalAppend([], Delivery(3, 1));
    TotalAppend(log[1..2], Delivery(13, 1));
  }

  /** Items 2, 0 and, once item 2 is delivered, 1 are sent. */
  lemma FirstDelivered() returns (worlds: seq<World>, events: seq<Event>)
    ensures IsRun(worlds, events)
    ensures events == [Send(2, true), Send(0, false), Tick(1), Deliver(2), Generate(ONE_ACKED), Send(1, false)]
    ensures var w := worlds[|events|];
            && w.now == 2 && |w.items| == 3 && |w.marks| == 3 && w.log == [Delivery(2, 1)] && w.marks[1] == 1
            && w.items[1] == TxItem(1, 2, RateInformation(1, 2, 1, false))
            && w.items[0] == TxItem(1, 1, RateInformation(0, 1, 1, false))
            && w.sample.priorDelivered == 0 && w.conn.delivered == 1 && w.conn.appLimited == 0
  {
    worlds, events := [Fresh(1, [1, 1, 1])], [];
    worlds, events := Extend(worlds, events, Send(2, true));
    worlds, events := Extend(worlds, events, Send(0, false));
    worlds, events := Extend(worlds, events, Tick(1));
    worlds, events := Extend(worlds, events, Deliver(2));
    worlds, events := Extend(worlds, events, Generate(ONE_ACKED));
    worlds, events := Extend(worlds, events, Send(1, false));
  }

  /** Item 1 is delivered and refreshes the sample. */
  lemma SecondDelivered(worlds: seq<World>, events: seq<Event>) returns (worlds': seq<World>, events': seq<Event>)
    requires IsRun(worlds, events)
    requires var w := worlds[|events|];
             && w.now == 2 && |w.items| == 3 && |w.marks| == 3 && w.log == [Delivery(2, 1)] && w.marks[1] == 1
             && w.items[1] == TxItem(1, 2, RateInformation(1, 2, 1, false))
             && w.items[0] == TxItem(1, 1, RateInformation(0, 1, 1, false))
             && w.sample.priorDelivered == 0 && w.conn.delivered == 1 && w.conn.appLimited == 0
    ensures IsRun(worlds', events') && events' == events + [Tick(1), Deliver(1), Generate(ONE_ACKED)]
    ensures var w := worlds'[|events'|];
            && w.now == 3 && |w.items| == 3 && |w.marks| == 3 && w.log == [Delivery(2, 1), Delivery(3, 1)]
                && w.sampleMark == 1
            && w.items[0] == TxItem(1, 1, RateInformation(0, 1, 1, false))
            && w.sample.priorDelivered == 1 && w.sample.priorTime == 2 && !w.sample.isAppLimited
            && w.sample.ackElapsed == w.sample.sendElapsed == 1 && w.conn.delivered == 2 && w.conn.appLimited == 0
  {
    worlds', events' := Extend(worlds, events, Tick(1));
    worlds', events' := Extend(worlds', events', Deliver(1));
    worlds', events' := Extend(worlds', events', Generate(ONE_ACKED));
  }

  lemma Extend(worlds: seq<World>, events: seq<Event>, e: Event) returns (worlds': seq<World>, events': seq<Event>)
    requires IsRun(worlds, events) && Possible(worlds[|events|], e)
    ensures IsRun(worlds', events') && events' == events + [e]
    ensures worlds' == worlds + [Step(worlds[|events|], e)]
  {
    worlds', events' := worlds + [Step(worlds[|events|], e)], events + [e];
    assert worlds'[0] == worlds[0];
  }

  // The sampler as the program has it

  class TcpTxItem {
    const size: nat
    var lastSent: nat
    var info: RateInformation

    ghost function View(): TxItem
      reads this
    {
      TxItem(size, lastSent, info)
    }

    constructor (size: nat)
      ensures View() == TxItem(size, 0, NEW_ITEM_INFO)
    {
      this.size, lastSent, info := size, 0, NEW_ITEM_INFO;
    }
  }

  class TcpRateLinux {
    var rate: Connection
    var rateSample: Sample

    constructor ()
      ensures rate == NEW_CONNECTION && rateSample == NEW_SAMPLE
    {
      rate, rateSample := NEW_CONNECTION, NEW_SAMPLE;
    }

    method SkbSent(skb: TcpTxItem, isStartOfTransmission: bool, now: nat)
      modifies this`rate, skb`info
      ensures rate == Started(old(rate), now, isStartOfTransmission)
      ensures skb.info == Snapshot(rate)
    {
      if isStartOfTransmission {
        rate := rate.(firstSentTime := now);
        rate := rate.(deliveredTime := now);
      }
      skb.info := skb.info.(firstSent := rate.firstSentTime);
      skb.info := skb.info.(deliveredTime := rate.deliveredTime);
      skb.info := skb.info.(isAppLimited := rate.appLimited != 0);
      skb.info := skb.info.(delivered := rate.delivered);
    }

    method SkbDelivered(skb: TcpTxItem, now: nat)
      modifies this, skb`info
      ensures rate == DeliveredConnection(old(rate), old(rateSample), old(skb.View()), now)
      ensures rateSample == DeliveredSample(old(rateSample), old(skb.View()), now)
      ensures skb.View() == DeliveredItem(old(skb.View()))
    {
      if skb.info.deliveredTime == TIME_MAX {
        return;
      }
      rate := rate.(delivered := rate.delivered + skb.size);
      rate := rate.(deliveredTime := now);
      if rateSample.priorDelivered == 0 || skb.info.delivered > rateSample.priorDelivered {
        rateSample := rateSample.(ackElapsed := now - skb.info.deliveredTime);
        rateSample := rateSample.(priorDelivered := skb.info.delivered);
        rateSample := rateSample.(priorTime := skb.info.deliveredTime);
        rateSample := rateSample.(isAppLimited := skb.info.isAppLimited);
        rateSample := rateSample.(sendElapsed := skb.lastSent - skb.info.firstSent);
        rate := rate.(firstSentTime := skb.lastSent);
      }
      skb.info := skb.info.(deliveredTime := TIME_MAX);
      rate := rate.(txItemDelivered := skb.info.delivered);
    }

    method GenerateSample(a: AckArgs) returns (sample: Sample)
      requires a.minRtt > 0
      modifies this
      ensures (rate, rateSample) == Generated(old(rate), old(rateSample), a) && sample == rateSample
    {
      if a.appLimited != 0 {
        rate := rate.(appLimited := a.appLimited);
      }
      if rate.appLimited != 0 && rate.delivered > rate.appLimited {
        rate := rate.(appLimited := 0);
      }
      rateSample := rateSample.(ackedSacked := a.delivered, bytesLoss := a.lost, priorInFlight := a.priorInFlight);
      if rateSample.priorTime == 0 || a.isSackReneg {
        rateSample := rateSample.(delivered := -1, interval := 0);
        return rateSample;
      }
      rateSample := rateSample.(interval := Max(rateSample.sendElapsed, rateSample.ackElapsed));
      rateSample := rateSample.(delivered := rate.delivered - rateSample.priorDelivered);
      if rateSample.interval < a.minRtt {
        rateSample := rateSample.(interval := 0);
        rateSample := rateSample.(priorTime := 0);
        return rateSample;
      }
      if !rateSample.isAppLimited ||
         rateSample.delivered * rate.rateInterval >= rate.rateDelivered * rateSample.interval {
        rate := rate.(rateDelivered := rateSample.delivered);
        rate := rate.(rateInterval := rateSample.interval);
        rate := rate.(rateAppLimited := rateSample.isAppLimited);
        rateSample := rateSample.(deliveryRate := Rate(rateSample.delivered, rateSample.interval));
      }
      return rateSample;
    }

    method CalculateAppLimited(a: SendArgs)
      modifies this`rate
      ensures rate == AppLimitMarked(old(rate), a)
    {
      if a.tailSeq - a.nextTx < a.segmentSize && a.inFlight < a.cWnd && a.lostOut <= a.retransOut {
        rate := rate.(appLimited := Max(rate.delivered + a.inFlight, 1));
      }
    }
  }
}
