/**
 Loss recovery seen from the events of a run: when duplicate ACKs start a
 recovery, what the marks of the socket stand for, which timeouts count, and
 how ECN echoes are answered.
 */
module RecoveryRuns {
  import opened Arithmetic
  import opened SocketState
  import opened LossRecovery

  lemma LastStep(cfg: Config, s: Socket, events: seq<Event>, k: nat)
    requires k < |events|
    ensures Run(cfg, s, events[..k + 1]) == Step(cfg, Run(cfg, s, events[..k]), events[k])
  {
    assert events[..k + 1][..k] == events[..k];
  }

  // Duplicate ACKs

  /** With SACK an ACK whose blocks are news, else one that repeats the head while data is outstanding. */
  ghost predicate Duplicates(cfg: Config, s: Socket, a: Ack) {
    && s.head <= a.number <= s.highTxMark
    && if cfg.sackEnabled then a.scoreboardUpdated else a.number == s.head < s.highTxMark
  }

  /** ECN is off and no recovery is under way. */
  ghost predicate Calm(cfg: Config, s: Socket) {
    && Inv(cfg, s) && cfg.retxThresh >= 1 && s.ecnState == EcnDisabled
    && (s.congState == Open || s.congState == Disorder)
  }

  /**
   A duplicate ACK below the threshold counts and leads to Disorder, also when
   it moves the window on; the one that reaches it starts a fast recovery of
   everything sent.
   */
  lemma DuplicateCounts(cfg: Config, s: Socket, a: Ack)
    requires Calm(cfg, s) && Duplicates(cfg, s, a) && !a.headLost
    ensures var s' := AfterAck(cfg, s, a);
            && s'.head == a.number && s'.ecnState == EcnDisabled && s'.highTxMark == s.highTxMark
            && if s.dupAckCount + 1 < cfg.retxThresh then
                 s'.congState == Disorder && s'.dupAckCount == s.dupAckCount + 1 && s'.log == s.log
               else
                 && s'.log == s.log + [Episode(true, s.highTxMark, a.number)]
                 && (a.number < s.highTxMark ==>
                       s'.congState == Recovery && s'.recover == s.highTxMark && s'.recoverActive)
  {
  }

  /** An ACK that moves the window on and is no duplicate ends Disorder and the count. */
  lemma NewAckEndsDisorder(cfg: Config, s: Socket, a: Ack)
    requires Calm(cfg, s) && s.head < a.number <= s.highTxMark && !Duplicates(cfg, s, a)
    ensures var s' := AfterAck(cfg, s, a);
            s'.congState == Open && s'.dupAckCount == 0 && s'.head == a.number && s'.log == s.log
  {
  }

  /**
   An ACK that does not move the window on, and is no duplicate or comes during a
   recovery, changes nothing but the mark of the highest ACK.
   */
  lemma OtherAckIsIgnored(cfg: Config, s: Socket, a: Ack)
    requires s.ecnState == EcnDisabled && s.congState != Cwr && a.number <= s.head <= s.highTxMark
    requires !Duplicates(cfg, s, a) || s.congState == Recovery || s.congState == Loss
    ensures AfterAck(cfg, s, a) == s.(highRxAckMark := Max(s.highRxAckMark, a.number))
  {
  }

  ghost predicate IsDuplicateAck(cfg: Config, s: Socket, e: Event) {
    match e
    case Received(Segment(ce, cwr, Some(a))) => !ce && !cwr && Duplicates(cfg, s, a) && !a.headLost
    case _ => false
  }

  /** Each of the events is a duplicate ACK in the state in which it comes. */
  ghost predicate AllDuplicates(cfg: Config, s: Socket, events: seq<Event>) {
    forall k :: 0 <= k < |events| ==> IsDuplicateAck(cfg, Run(cfg, s, events[..k]), events[k])
  }

  lemma AllDuplicatesPrefix(cfg: Config, s: Socket, events: seq<Event>)
    requires AllDuplicates(cfg, s, events) && events != []
    ensures var n := |events| - 1;
            AllDuplicates(cfg, s, events[..n]) && IsDuplicateAck(cfg, Run(cfg, s, events[..n]), events[n])
  {
    assert forall k :: 0 <= k < |events| - 1 ==> events[..|events| - 1][..k] == events[..k];
  }

  /**
   Of threshold many duplicate ACKs in a row, whether they move the window on or
   not, exactly the last one starts a fast recovery.
   */
  lemma {:induction false} ThresholdStartsRecovery(cfg: Config, s: Socket, events: seq<Event>)
    requires Calm(cfg, s) && AllDuplicates(cfg, s, events) && events != []
    requires s.dupAckCount + |events| <= cfg.retxThresh
    ensures var s' := Run(cfg, s, events);
            if s.dupAckCount + |events| < cfg.retxThresh then
              Calm(cfg, s') && s'.congState == Disorder && s'.dupAckCount == s.dupAckCount + |events|
                  && s'.log == s.log && s'.highTxMark == s.highTxMark
            else
              && s'.log == s.log + [Episode(true, s.highTxMark, s'.head)]
              && (s'.head < s.highTxMark ==> s'.congState == Recovery && s'.recover == s.highTxMark)
    decreases |events|
  {
    var n := |events| - 1;
    var before := Run(cfg, s, events[..n]);
    AllDuplicatesPrefix(cfg, s, events);
    if n > 0 {
      ThresholdStartsRecovery(cfg, s, events[..n]);
    }
    DuplicateCounts(cfg, before, events[n].segment.ack.value);
    StepKeeps(cfg, before, events[n]);
  }

  // Partial ACKs

  /**
   Without ECN the flag for the first partial ACK is cleared exactly by an ACK
   that moves on below the recovery point of a fast recovery, and set again
   with the end of any recovery.
   */
  lemma PartialAckNoted(cfg: Config, s: Socket, a: Ack)
    requires Inv(cfg, s) && s.ecnState == EcnDisabled && s.recoverActive && s.head < a.number <= s.highTxMark
    ensures AfterAck(cfg, s, a).isFirstPartialAck
         == if a.number >= s.recover then true
            else if s.congState == Recovery then false
            else s.isFirstPartialAck
  {
  }

  lemma {:induction false} FirstPartialAckSet(cfg: Config, isn: nat, ackMark: nat, events: seq<Event>)
    requires cfg.retxThresh >= 1 && Unmarked(events)
    ensures var s := Run(cfg, Established(isn, ackMark, EcnDisabled), events);
            s.recoverActive || s.isFirstPartialAck
  {
    if events != [] {
      var before, e := events[..|events| - 1], events[|events| - 1];
      UnmarkedSnoc(before, e);
      assert before + [e] == events;
      FirstPartialAckSet(cfg, isn, ackMark, before);
      RunKeeps(cfg, isn, ackMark, EcnDisabled, before);
      EcnStaysOffIff(cfg, isn, ackMark, EcnDisabled, before);
      FirstPartialStep(cfg, Run(cfg, Established(isn, ackMark, EcnDisabled), before), e);
    }
  }

  lemma FirstPartialStep(cfg: Config, s: Socket, e: Event)
    requires Inv(cfg, s) && s.ecnState == EcnDisabled && (s.recoverActive || s.isFirstPartialAck) && !Marks(e)
    ensures var s' := Step(cfg, s, e); s'.recoverActive || s'.isFirstPartialAck
  {
    if Acks(e) {
      FirstPartialAck(cfg, s, e.segment.ack.value);
    }
  }

  lemma FirstPartialAck(cfg: Config, s: Socket, a: Ack)
    requires Inv(cfg, s) && s.ecnState == EcnDisabled && (s.recoverActive || s.isFirstPartialAck)
    ensures var s' := AfterAck(cfg, s, a); s'.recoverActive || s'.isFirstPartialAck
  {
  }

  // What the marks stand for

  /** The end of everything sent so far. */
  ghost function SentUpTo(isn: nat, events: seq<Event>): nat {
    if events == [] then isn
    else
      var before, e := SentUpTo(isn, events[..|events| - 1]), events[|events| - 1];
      if e.Sent? then Max(before, e.seqNumber + e.size) else before
  }

  ghost predicate Acks(e: Event) {
    e.Received? && e.segment.ack.Some?
  }

  /** The largest ACK number so far of those not beyond what was sent by then. */
  ghost function AckedUpTo(isn: nat, events: seq<Event>): nat {
    if events == [] then isn
    else
      var init, e := events[..|events| - 1], events[|events| - 1];
      if Acks(e) && e.segment.ack.value.number <= SentUpTo(isn, init)
      then Max(AckedUpTo(isn, init), e.segment.ack.value.number) else AckedUpTo(isn, init)
  }

  /** The largest number of any ACK so far. */
  ghost function LargestAck(ackMark: nat, events: seq<Event>): nat {
    if events == [] then ackMark
    else
      var before, e := LargestAck(ackMark, events[..|events| - 1]), events[|events| - 1];
      if Acks(e) then Max(before, e.segment.ack.value.number) else before
  }

  /** Steps that leave the three marks alone. */
  ghost predicate SameMarks(s: Socket, s': Socket) {
    s'.head == s.head && s'.highTxMark == s.highTxMark && s'.highRxAckMark == s.highRxAckMark
  }

  lemma ProcessingLeavesMarks(cfg: Config, s: Socket, a: Ack, oldHead: nat)
    ensures SameMarks(s, AfterProcessAck(cfg, s, a, oldHead))
  {
    var isDupack := IsDupack(cfg, s, a, oldHead);
    DupAckLeavesMarks(cfg, s, a.headLost);
    NewAckFrame(if isDupack then AfterDupAck(cfg, s, a.headLost) else s.(dupAckCount := 0), a.number, isDupack);
  }

  lemma DupAckLeavesMarks(cfg: Config, s: Socket, headLost: bool)
    ensures SameMarks(s, AfterDupAck(cfg, s, headLost))
  {
  }

  lemma AckMoves(cfg: Config, s: Socket, a: Ack)
    ensures var s' := AfterAck(cfg, s, a);
            && s'.highTxMark == s.highTxMark && s'.highRxAckMark == Max(s.highRxAckMark, a.number)
            && s'.head == if a.number <= s.highTxMark then Max(s.head, a.number) else s.head
  {
    var s1 := s.(highRxAckMark := Max(s.highRxAckMark, a.number));
    var s2 := LeaveCwr(s1.(head := a.number), a.number);
    ProcessingLeavesMarks(cfg, EcnEcho(s2, a, s.head), a, s.head);
  }

  /** In every run the three marks are what the events so far have made of them. */
  lemma {:induction false} MarksAre(cfg: Config, isn: nat, ackMark: nat, ecnState: EcnState, events: seq<Event>)
    ensures var s := Run(cfg, Established(isn, ackMark, ecnState), events);
            && s.highTxMark == SentUpTo(isn, events) && s.head == AckedUpTo(isn, events)
            && s.highRxAckMark == LargestAck(ackMark, events)
  {
    if events != [] {
      var before, e := events[..|events| - 1], events[|events| - 1];
      MarksAre(cfg, isn, ackMark, ecnState, before);
      if Acks(e) {
        var s := Run(cfg, Established(isn, ackMark, ecnState), before);
        AckMoves(cfg, AfterFlag(AfterMark(s, e.segment.ce), e.segment.cwr), e.segment.ack.value);
      }
    }
  }

  // Timeouts

  ghost predicate TimesOut(e: Event) {
    e.Timeout? && !e.bufferEmpty && e.retriesLeft
  }

  ghost function Timeouts(events: seq<Event>): nat {
    if events == [] then 0
    else Timeouts(events[..|events| - 1]) + (if TimesOut(events[|events| - 1]) then 1 else 0)
  }

  ghost function LossEpisodes(log: seq<Episode>): nat {
    if log == [] then 0 else LossEpisodes(log[..|log| - 1]) + (if log[|log| - 1].fast then 0 else 1)
  }

  /** ACKs only add fast recoveries. */
  ghost predicate OnlyFast(log: seq<Episode>, log': seq<Episode>) {
    log' == log || (|log'| == |log| + 1 && log'[..|log|] == log && log'[|log|].fast)
  }

  lemma LogOfAck(cfg: Config, s: Socket, a: Ack)
    ensures OnlyFast(s.log, AfterAck(cfg, s, a).log)
  {
    var s1 := s.(highRxAckMark := Max(s.highRxAckMark, a.number));
    var s2 := EcnEcho(LeaveCwr(s1.(head := a.number), a.number), a, s.head);
    LogOfProcessing(cfg, s2, a, s.head);
  }

  lemma LogOfProcessing(cfg: Config, s: Socket, a: Ack, oldHead: nat)
    ensures OnlyFast(s.log, AfterProcessAck(cfg, s, a, oldHead).log)
  {
    LogOfDupAck(cfg, s, a.headLost);
    var isDupack := IsDupack(cfg, s, a, oldHead);
    NewAckFrame(if isDupack then AfterDupAck(cfg, s, a.headLost) else s.(dupAckCount := 0), a.number, isDupack);
  }

  lemma LogOfDupAck(cfg: Config, s: Socket, headLost: bool)
    ensures var s' := AfterDupAck(cfg, s, headLost);
            s'.log == s.log || s'.log == s.log + [Episode(true, s.highTxMark, s.head)]
  {
  }

  lemma LossesOfStep(cfg: Config, s: Socket, e: Event)
    ensures LossEpisodes(Step(cfg, s, e).log) == LossEpisodes(s.log) + (if TimesOut(e) then 1 else 0)
  {
    if Acks(e) {
      var s1 := AfterFlag(AfterMark(s, e.segment.ce), e.segment.cwr);
      LogOfAck(cfg, s1, e.segment.ack.value);
      FastIsNoLoss(s.log, AfterAck(cfg, s1, e.segment.ack.value).log);
    } else if TimesOut(e) {
      assert Step(cfg, s, e).log[..|s.log|] == s.log;
    }
  }

  lemma FastIsNoLoss(log: seq<Episode>, log': seq<Episode>)
    requires OnlyFast(log, log')
    ensures LossEpisodes(log') == LossEpisodes(log)
  {
  }

  /** Every timeout with data to send and retries left adds a loss to the log, and nothing else does. */
  lemma {:induction false} TimeoutsAreLogged(cfg: Config, s: Socket, events: seq<Event>)
    ensures LossEpisodes(Run(cfg, s, events).log) == LossEpisodes(s.log) + Timeouts(events)
  {
    if events != [] {
      TimeoutsAreLogged(cfg, s, events[..|events| - 1]);
      LossesOfStep(cfg, Run(cfg, s, events[..|events| - 1]), events[|events| - 1]);
    }
  }

  /** Such a timeout has everything sent so far to recover, and starts counting duplicate ACKs anew. */
  lemma TimeoutRecoversAll(cfg: Config, isn: nat, ackMark: nat, ecnState: EcnState, events: seq<Event>, e: Event)
    requires TimesOut(e)
    ensures var s' := Step(cfg, Run(cfg, Established(isn, ackMark, ecnState), events), e);
            && s'.congState == Loss && s'.recoverActive && s'.dupAckCount == 0 && s'.recover == SentUpTo(isn, events)
            && s'.log != []
            && s'.log[|s'.log| - 1] == Episode(false, SentUpTo(isn, events), AckedUpTo(isn, events))
  {
    MarksAre(cfg, isn, ackMark, ecnState, events);
  }

  // ECN

  /** An ACK that echoes congestion of data not echoed before. */
  ghost predicate NewEcho(s: Socket, a: Ack) {
    && s.ecnState != EcnDisabled && a.ece && s.head < a.number <= s.highTxMark && s.ecnEchoSeq < a.number
  }

  lemma ProcessingInCwr(cfg: Config, s: Socket, a: Ack, oldHead: nat)
    requires s.congState == Cwr
    ensures var s' := AfterProcessAck(cfg, s, a, oldHead); s' == s.(dupAckCount := s'.dupAckCount)
  {
  }

  /** A new echo leads to CWR, or leaves a CWR that the ACK does not end with its recovery point. */
  lemma EchoReduces(cfg: Config, s: Socket, a: Ack)
    requires NewEcho(s, a)
    ensures var s' := AfterAck(cfg, s, a);
            && s'.congState == Cwr && s'.ecnState == EceReceived && s'.ecnEchoSeq == a.number
            && s'.recover == (if s.congState == Cwr && a.number <= s.recover then s.recover else s.highTxMark)
            && s'.log == s.log && s'.recoverActive == s.recoverActive
  {
    var s1 := s.(highRxAckMark := Max(s.highRxAckMark, a.number));
    ProcessingInCwr(cfg, EcnEcho(LeaveCwr(s1.(head := a.number), a.number), a, s.head), a, s.head);
  }

  /** Without a new echo CWR lasts exactly as long as ACKs do not pass its recovery point. */
  lemma CwrEndsIff(cfg: Config, s: Socket, a: Ack)
    requires s.congState == Cwr && s.head <= a.number <= s.highTxMark && !NewEcho(s, a)
    ensures var s' := AfterAck(cfg, s, a);
            if a.number <= s.recover then s'.congState == Cwr && s'.recover == s.recover else s'.congState != Cwr
  {
    var s1 := s.(highRxAckMark := Max(s.highRxAckMark, a.number));
    var s2 := EcnEcho(LeaveCwr(s1.(head := a.number), a.number), a, s.head);
    if a.number <= s.recover {
      ProcessingInCwr(cfg, s2, a, s.head);
    } else {
      ProcessingAvoidsCwr(cfg, s2, a, s.head);
    }
  }

  lemma ProcessingAvoidsCwr(cfg: Config, s: Socket, a: Ack, oldHead: nat)
    requires s.congState != Cwr
    ensures AfterProcessAck(cfg, s, a, oldHead).congState != Cwr
  {
    var isDupack := IsDupack(cfg, s, a, oldHead);
    DupAckAvoidsCwr(cfg, s, a.headLost);
    NewAckFrame(if isDupack then AfterDupAck(cfg, s, a.headLost) else s.(dupAckCount := 0), a.number, isDupack);
  }

  lemma DupAckAvoidsCwr(cfg: Config, s: Socket, headLost: bool)
    requires s.congState != Cwr
    ensures AfterDupAck(cfg, s, headLost).congState != Cwr
  {
  }

  lemma EcnOfAck(cfg: Config, s: Socket, a: Ack)
    ensures AfterAck(cfg, s, a).ecnState
         == if NewEcho(s, a) then EceReceived
            else if s.ecnState == EceReceived && !a.ece && s.head <= a.number <= s.highTxMark then EcnIdle
            else s.ecnState
    ensures AfterAck(cfg, s, a).ecnEchoSeq == if NewEcho(s, a) then a.number else s.ecnEchoSeq
  {
    var s1 := s.(highRxAckMark := Max(s.highRxAckMark, a.number));
    var s2 := EcnEcho(LeaveCwr(s1.(head := a.number), a.number), a, s.head);
    ProcessingLeavesEcn(cfg, s2, a, s.head);
    ProcessingLeavesEchoSeq(cfg, s2, a, s.head);
  }

  lemma ProcessingLeavesEchoSeq(cfg: Config, s: Socket, a: Ack, oldHead: nat)
    ensures AfterProcessAck(cfg, s, a, oldHead).ecnEchoSeq == s.ecnEchoSeq
  {
    DupAckLeavesEchoSeq(cfg, s, a.headLost);
    var isDupack := IsDupack(cfg, s, a, oldHead);
    NewAckFrame(if isDupack then AfterDupAck(cfg, s, a.headLost) else s.(dupAckCount := 0), a.number, isDupack);
  }

  lemma DupAckLeavesEchoSeq(cfg: Config, s: Socket, headLost: bool)
    ensures AfterDupAck(cfg, s, headLost).ecnEchoSeq == s.ecnEchoSeq
  {
  }

  /** The state in which event k meets the socket. */
  ghost function At(cfg: Config, s: Socket, events: seq<Event>, k: nat): Socket
    requires k <= |events|
  {
    Run(cfg, s, events[..k])
  }

  /** Event k answers an echo with a CWR flag. */
  ghost predicate Answers(cfg: Config, s: Socket, events: seq<Event>, k: nat)
    requires k < |events|
  {
    At(cfg, s, events, k).ecnState != CwrSent && At(cfg, s, events, k + 1).ecnState == CwrSent
  }

  /** An echo is answered exactly by new data sent while the echo is newer than the last answer. */
  lemma AnswersIff(cfg: Config, s: Socket, events: seq<Event>, k: nat)
    requires k < |events|
    ensures var now := At(cfg, s, events, k);
            && (Answers(cfg, s, events, k) <==>
                  && events[k].Sent? && !events[k].isRetransmission
                  && now.ecnState == EceReceived && now.ecnEchoSeq > now.ecnCwrSeq)
            && (Answers(cfg, s, events, k) ==> At(cfg, s, events, k + 1).ecnCwrSeq == events[k].seqNumber)
  {
    LastStep(cfg, s, events, k);
    if Acks(events[k]) {
      var g := events[k].segment;
      EcnOfAck(cfg, AfterFlag(AfterMark(At(cfg, s, events, k), g.ce), g.cwr), g.ack.value);
    }
  }

  /** Only a new echo leads to the state that waits for an answer. */
  lemma EchoesOnlyAt(cfg: Config, s: Socket, e: Event)
    ensures var s' := Step(cfg, s, e);
            s.ecnState != EceReceived && s'.ecnState == EceReceived ==>
              Acks(e) && e.segment.ack.value.ece && s'.ecnEchoSeq == e.segment.ack.value.number > s.ecnEchoSeq
  {
    if Acks(e) {
      EcnOfAck(cfg, AfterFlag(AfterMark(s, e.segment.ce), e.segment.cwr), e.segment.ack.value);
    }
  }

  lemma {:induction false} EchoBetween(cfg: Config, s: Socket, events: seq<Event>, i: nat, j: nat) returns (m: nat)
    requires i < j <= |events|
    requires At(cfg, s, events, i).ecnState != EceReceived && At(cfg, s, events, j).ecnState == EceReceived
    ensures i <= m < j && Acks(events[m]) && events[m].segment.ack.value.ece
    ensures At(cfg, s, events, m + 1).ecnEchoSeq == events[m].segment.ack.value.number
          > At(cfg, s, events, m).ecnEchoSeq
    decreases j
  {
    if At(cfg, s, events, j - 1).ecnState == EceReceived {
      m := EchoBetween(cfg, s, events, i, j - 1);
    } else {
      m := j - 1;
      LastStep(cfg, s, events, m);
      EchoesOnlyAt(cfg, At(cfg, s, events, m), events[m]);
    }
  }

  /** Between two answers an ACK came that echoes congestion of newer data: an echo is answered once. */
  lemma OneAnswerPerEcho(cfg: Config, s: Socket, events: seq<Event>, i: nat, j: nat) returns (m: nat)
    requires i < j < |events| && Answers(cfg, s, events, i) && Answers(cfg, s, events, j)
    ensures i < m < j && Acks(events[m]) && events[m].segment.ack.value.ece
    ensures At(cfg, s, events, m + 1).ecnEchoSeq == events[m].segment.ack.value.number
          > At(cfg, s, events, m).ecnEchoSeq
  {
    AnswersIff(cfg, s, events, j);
    m := EchoBetween(cfg, s, events, i + 1, j);
  }

  ghost predicate Echoes(e: Event) {
    Acks(e) && e.segment.ack.value.ece
  }

  lemma ReceiverStep(cfg: Config, s: Socket, e: Event)
    requires (s.ecnState == CeReceived || s.ecnState == SendingEce) && !Echoes(e)
    ensures Step(cfg, s, e).ecnState
         == if e.Echoed? then SendingEce
            else if e.Received? && e.segment.ce then CeReceived
            else if e.Received? && e.segment.cwr && s.ecnState == SendingEce then EcnIdle
            else s.ecnState
  {
    if Acks(e) {
      EcnOfAck(cfg, AfterFlag(AfterMark(s, e.segment.ce), e.segment.cwr), e.segment.ack.value);
    }
  }

  /** A CE mark is not forgotten before it is echoed, whatever CWR flags come in between. */
  lemma {:induction false} MarkWaits(cfg: Config, s: Socket, events: seq<Event>)
    requires s.ecnState == CeReceived
    requires forall k :: 0 <= k < |events| ==> !Echoes(events[k]) && !events[k].Echoed?
    ensures Run(cfg, s, events).ecnState == CeReceived
    ensures Step(cfg, Run(cfg, s, events), Echoed).ecnState == SendingEce
  {
    if events != [] {
      MarkWaits(cfg, s, events[..|events| - 1]);
      ReceiverStep(cfg, Run(cfg, s, events[..|events| - 1]), events[|events| - 1]);
    }
  }

  /** Where no echo is on, none starts without a CE mark. */
  lemma NoMarkNoEcho(cfg: Config, s: Socket, e: Event)
    requires s.ecnState != CeReceived && s.ecnState != SendingEce && !(e.Received? && e.segment.ce)
    ensures Step(cfg, s, e).ecnState != CeReceived && Step(cfg, s, e).ecnState != SendingEce
  {
    if Acks(e) {
      EcnOfAck(cfg, AfterFlag(AfterMark(s, e.segment.ce), e.segment.cwr), e.segment.ack.value);
    }
  }

  ghost predicate HasFlag(e: Event) {
    e.Received? && e.segment.cwr
  }

  /** Then the echo goes on exactly until a CWR flag comes, if there is no new mark. */
  lemma {:induction false} EchoLasts(cfg: Config, s: Socket, events: seq<Event>)
    requires s.ecnState == SendingEce
    requires forall k :: 0 <= k < |events| ==> !Echoes(events[k]) && !(events[k].Received? && events[k].segment.ce)
    ensures var s' := Run(cfg, s, events);
            if forall k :: 0 <= k < |events| ==> !HasFlag(events[k]) then s'.ecnState == SendingEce
            else s'.ecnState != SendingEce && s'.ecnState != CeReceived
  {
    if events != [] {
      var before, e := events[..|events| - 1], events[|events| - 1];
      EchoLasts(cfg, s, before);
      if Run(cfg, s, before).ecnState == SendingEce {
        ReceiverStep(cfg, Run(cfg, s, before), e);
      } else {
        NoMarkNoEcho(cfg, Run(cfg, s, before), e);
      }
      assert forall k :: 0 <= k < |before| ==> before[k] == events[k];
    }
  }
}
