/**
 Loss recovery of an established TCP socket (RFC 6675, sections 5 and 5.1):
 the congestion states Open, Disorder, CWR, Recovery and Loss, the count of
 duplicate ACKs and the recovery point.  Sequence numbers are natural numbers
 without wrap-around.  The `NS_ASSERT`s of `EnterCwr`, `EnterRecovery` and
 `DupAck` are recorded, not enforced: the model goes on after a failed one, as
 an optimized build does.
 */
module LossRecovery {
  import opened Arithmetic
  import opened SocketState
  import opened Wrappers

  datatype EcnState = EcnDisabled | EcnIdle | CeReceived | SendingEce | EceReceived | CwrSent

  /** The congestion control is one with or without `CongControl`; that does not matter to what is modelled here. */
  datatype Config = Config(retxThresh: nat, sackEnabled: bool)

  /** One entry into Recovery (fast) or Loss: the recovery point set and the cumulative ACK at that time. */
  datatype Episode = Episode(fast: bool, point: nat, ack: nat)

  /** `log` and `asserted` are history: all episodes so far, and whether every such assertion met so far held. */
  datatype Socket = Socket(
    congState: CongState, dupAckCount: nat, recover: nat, recoverActive: bool, isFirstPartialAck: bool,
    head: nat, highTxMark: nat, highRxAckMark: nat, ecnState: EcnState, ecnEchoSeq: nat, ecnCwrSeq: nat,
    log: seq<Episode>, asserted: bool)

  /**
   An ACK: its number, whether its SACK blocks changed the scoreboard, its ECE
   flag, and whether the scoreboard then calls the segment after the first
   unacknowledged one lost.
   */
  datatype Ack = Ack(number: nat, scoreboardUpdated: bool, ece: bool, headLost: bool)

  /**
   A segment without SYN, FIN and RST: whether it is the newest with a CE mark, its CWR
   flag, and its ACK if it has one.
   */
  datatype Segment = Segment(ce: bool, cwr: bool, ack: Option<Ack>)

  /** `Echoed` stands for all places that answer a received CE mark with an ECE flag. */
  datatype Event =
    | Sent(seqNumber: nat, size: nat, isRetransmission: bool)
    | Received(segment: Segment)
    | Echoed
    | Timeout(bufferEmpty: bool, retriesLeft: bool)

  /**
   A socket that has become established.  A forked one still has the ACK mark
   of the listening socket, usually below its head, until the first ACK.
   */
  function Established(isn: nat, ackMark: nat, ecnState: EcnState): Socket {
    Socket(Open, 0, 0, false, true, isn, isn, ackMark, ecnState, 0, 0, [], true)
  }

  function AfterEnterCwr(s: Socket): Socket {
    s.(asserted := s.asserted && s.congState != Cwr, congState := Cwr, recover := s.highTxMark)
  }

  function AfterEnterRecovery(s: Socket): Socket {
    s.(asserted := s.asserted && s.congState != Recovery, recover := s.highTxMark, recoverActive := true,
       congState := Recovery, log := s.log + [Episode(true, s.highTxMark, s.head)])
  }

  function AfterDupAck(cfg: Config, s: Socket, headLost: bool): Socket {
    if s.congState == Loss then s
    else
      var s1 := if s.congState != Recovery then s.(dupAckCount := s.dupAckCount + 1) else s;
      var s2 := if s1.congState == Open
                then s1.(asserted := s1.asserted && s1.dupAckCount == 1, congState := Disorder) else s1;
      if s2.congState == Disorder then
        var s3 := s2.(asserted := s2.asserted && (s2.dupAckCount <= cfg.retxThresh || s2.recoverActive));
        if s3.dupAckCount == cfg.retxThresh && (s3.highRxAckMark >= s3.recover || !s3.recoverActive)
        then AfterEnterRecovery(s3)
        else if headLost then AfterEnterRecovery(s3)
        else s3
      else s2
  }

  function IsDupack(cfg: Config, s: Socket, a: Ack, oldHead: nat): bool {
    if cfg.sackEnabled then a.scoreboardUpdated else a.number == oldHead && a.number < s.highTxMark
  }

  /** The part for an ACK that advances the window; `s` is the state after the duplicate count. */
  function AfterNewAck(s: Socket, number: nat, isDupack: bool): Socket {
    if number < s.recover && s.congState == Recovery then s.(isFirstPartialAck := false)
    else if number < s.recover && s.congState == Loss then s
    else if s.congState == Cwr then s
    else
      var s1 := match s.congState
                case Disorder => if !isDupack then s.(congState := Open) else s
                case Recovery => s.(isFirstPartialAck := true, congState := Open, dupAckCount := 0)
                case Loss => s.(isFirstPartialAck := true, congState := Open)
                case _ => s;
      if number >= s1.recover then s1.(recoverActive := false) else s1
  }

  function AfterProcessAck(cfg: Config, s: Socket, a: Ack, oldHead: nat): Socket {
    var isDupack := IsDupack(cfg, s, a, oldHead);
    var s1 := if isDupack then AfterDupAck(cfg, s, a.headLost) else s;
    if a.number > oldHead then
      AfterNewAck(if isDupack then s1 else s1.(dupAckCount := 0), a.number, isDupack)
    else s1
  }

  function LeaveCwr(s: Socket, number: nat): Socket {
    if s.congState == Cwr && number > s.recover then s.(congState := Open) else s
  }

  function EcnEcho(s: Socket, a: Ack, oldHead: nat): Socket {
    if a.number > oldHead && s.ecnState != EcnDisabled && a.ece then
      if s.ecnEchoSeq < a.number then
        var s1 := s.(ecnEchoSeq := a.number, ecnState := EceReceived);
        if s1.congState != Cwr then AfterEnterCwr(s1) else s1
      else s
    else if s.ecnState == EceReceived && !a.ece then s.(ecnState := EcnIdle)
    else s
  }

  function AfterReceivedAck(cfg: Config, s: Socket, a: Ack): Socket {
    if a.number < s.head then s
    else
      var s1 := LeaveCwr(s.(head := a.number), a.number);
      AfterProcessAck(cfg, EcnEcho(s1, a, s.head), a, s.head)
  }

  /** The window update notes the number of an ACK; stale and premature ones go no further. */
  function AfterAck(cfg: Config, s: Socket, a: Ack): Socket {
    var s1 := s.(highRxAckMark := Max(s.highRxAckMark, a.number));
    if a.number < s1.head || a.number > s1.highTxMark then s1 else AfterReceivedAck(cfg, s1, a)
  }

  function AfterMark(s: Socket, ce: bool): Socket {
    if ce then s.(ecnState := CeReceived) else s
  }

  /** A CWR flag turns the echo off, and ECN on where it was disabled. */
  function AfterFlag(s: Socket, cwr: bool): Socket {
    if cwr && s.ecnState != CeReceived then s.(ecnState := EcnIdle) else s
  }

  function AfterHeader(cfg: Config, s: Socket, g: Segment): Socket {
    var s1 := AfterFlag(s, g.cwr);
    match g.ack
    case None => s1
    case Some(a) => AfterAck(cfg, s1, a)
  }

  function AfterSegment(cfg: Config, s: Socket, g: Segment): Socket {
    AfterHeader(cfg, AfterMark(s, g.ce), g)
  }

  function AfterSent(s: Socket, seqNumber: nat, size: nat, isRetransmission: bool): Socket {
    var s1 := if s.ecnState == EceReceived && s.ecnEchoSeq > s.ecnCwrSeq && !isRetransmission
              then s.(ecnState := CwrSent, ecnCwrSeq := seqNumber) else s;
    s1.(highTxMark := Max(seqNumber + size, s1.highTxMark))
  }

  function AfterEcho(s: Socket): Socket {
    if s.ecnState == CeReceived then s.(ecnState := SendingEce) else s
  }

  function AfterTimeout(s: Socket, bufferEmpty: bool, retriesLeft: bool): Socket {
    if bufferEmpty || !retriesLeft then s
    else s.(dupAckCount := 0, recover := s.highTxMark, recoverActive := true, congState := Loss,
            log := s.log + [Episode(false, s.highTxMark, s.head)])
  }

  function Step(cfg: Config, s: Socket, e: Event): Socket {
    match e
    case Sent(seqNumber, size, isRetransmission) => AfterSent(s, seqNumber, size, isRetransmission)
    case Received(g) => AfterSegment(cfg, s, g)
    case Echoed => AfterEcho(s)
    case Timeout(bufferEmpty, retriesLeft) => AfterTimeout(s, bufferEmpty, retriesLeft)
  }

  function Run(cfg: Config, s: Socket, events: seq<Event>): Socket {
    if events == [] then s else Step(cfg, Run(cfg, s, events[..|events| - 1]), events[|events| - 1])
  }

  // The invariant

  /** Recovery points never decrease, and a fast recovery starts only when all earlier points are acknowledged. */
  ghost predicate OnePerWindow(log: seq<Episode>) {
    forall i, j :: 0 <= i < j < |log| ==>
      log[i].point <= log[j].point && (log[j].fast ==> log[i].point <= log[j].ack)
  }

  ghost predicate LogInv(s: Socket) {
    && OnePerWindow(s.log)
    && forall i :: 0 <= i < |s.log| ==> s.log[i].ack <= s.log[i].point <= s.recover
  }

  /** `recoverActive` says that a loss-based recovery is under way. */
  ghost predicate FlagMatches(s: Socket) {
    s.recoverActive <==> s.congState == Recovery || s.congState == Loss
  }

  /** What holds of every configuration, with and without ECN. */
  ghost predicate Core(s: Socket) {
    && s.head <= s.highTxMark && s.recover <= s.highTxMark
    && (s.congState == Open || s.congState == Disorder ==> s.recover <= s.head)
    && (s.congState == Cwr ==> s.head <= s.recover)
    && (s.ecnState == EcnDisabled ==> s.congState != Cwr && FlagMatches(s))
    && LogInv(s)
  }

  /** The duplicate count fits the congestion state, and every assertion held. */
  ghost predicate Counted(cfg: Config, s: Socket) {
    && s.asserted
    && (s.congState == Open || s.congState == Loss ==> s.dupAckCount == 0)
    && (s.congState == Disorder ==> 1 <= s.dupAckCount < cfg.retxThresh)
  }

  /** Without ECN or without SACK no ACK that leaves CWR is a duplicate. */
  ghost predicate Tame(cfg: Config, s: Socket) {
    cfg.retxThresh >= 1 && (s.ecnState == EcnDisabled || !cfg.sackEnabled)
  }

  ghost predicate Inv(cfg: Config, s: Socket) {
    Core(s) && (Tame(cfg, s) ==> Counted(cfg, s))
  }

  lemma EnterRecoveryKeeps(s: Socket)
    requires s.head <= s.highTxMark && s.recover <= s.head && LogInv(s)
    ensures LogInv(AfterEnterRecovery(s))
  {
  }

  /**
   The state while an ACK is processed: head has moved on already, perhaps to the
   recovery point of a recovery not yet left.
   */
  lemma DupAckKeeps(cfg: Config, s: Socket, headLost: bool)
    requires Inv(cfg, s) && s.head <= s.highRxAckMark
    ensures Inv(cfg, AfterDupAck(cfg, s, headLost))
  {
    if s.congState == Open || s.congState == Disorder {
      EnterRecoveryKeeps(s);
    }
  }

  /** The invariant while an advancing ACK is processed: without a duplicate the count is zero already. */
  ghost predicate Advancing(cfg: Config, s: Socket, isDupack: bool) {
    && Core(s)
    && (Tame(cfg, s) ==>
          && s.asserted
          && (s.congState == Open || s.congState == Loss ==> s.dupAckCount == 0)
          && (s.congState == Disorder ==> if isDupack then 1 <= s.dupAckCount < cfg.retxThresh else s.dupAckCount == 0))
  }

  lemma NewAckKeeps(cfg: Config, s: Socket, isDupack: bool)
    requires Advancing(cfg, s, isDupack)
    ensures Inv(cfg, AfterNewAck(s, s.head, isDupack))
  {
    NewAckFrame(s, s.head, isDupack);
  }

  lemma NewAckFrame(s: Socket, number: nat, isDupack: bool)
    ensures var s' := AfterNewAck(s, number, isDupack);
            && s' == s.(congState := s'.congState, dupAckCount := s'.dupAckCount, recoverActive := s'.recoverActive,
                        isFirstPartialAck := s'.isFirstPartialAck)
            && (s'.congState == s.congState || (s'.congState == Open && number >= s.recover) || s.congState == Disorder)
  {
  }

  /** The invariant between the ECN part of an ACK and its processing. */
  ghost predicate Echoing(cfg: Config, s: Socket, advances: bool) {
    && Core(s)
    && (Tame(cfg, s) ==>
          && s.asserted
          && (s.congState == Loss ==> s.dupAckCount == 0)
          && (s.congState == Open && !(advances && !cfg.sackEnabled) ==> s.dupAckCount == 0)
          && (s.congState == Disorder ==> 1 <= s.dupAckCount < cfg.retxThresh))
  }

  lemma LeaveCwrKeeps(cfg: Config, s: Socket, number: nat)
    requires Inv(cfg, s) && s.head <= number <= s.highTxMark
    ensures Echoing(cfg, LeaveCwr(s.(head := number), number), number > s.head)
  {
  }

  lemma EcnEchoKeeps(cfg: Config, s: Socket, a: Ack, oldHead: nat)
    requires Echoing(cfg, s, a.number > oldHead)
    ensures Echoing(cfg, EcnEcho(s, a, oldHead), a.number > oldHead)
  {
  }

  lemma DuplicateKeeps(cfg: Config, s: Socket, a: Ack, oldHead: nat)
    requires oldHead <= a.number == s.head <= s.highRxAckMark && Echoing(cfg, s, a.number > oldHead)
    requires IsDupack(cfg, s, a, oldHead)
    ensures var s' := AfterDupAck(cfg, s, a.headLost); Inv(cfg, s') && Advancing(cfg, s', true) && s'.head == s.head
  {
    DupAckKeeps(cfg, s, a.headLost);
  }

  lemma ProcessAckKeeps(cfg: Config, s: Socket, a: Ack, oldHead: nat)
    requires oldHead <= a.number == s.head <= s.highRxAckMark && Echoing(cfg, s, a.number > oldHead)
    ensures Inv(cfg, AfterProcessAck(cfg, s, a, oldHead))
  {
    var isDupack := IsDupack(cfg, s, a, oldHead);
    if isDupack {
      DuplicateKeeps(cfg, s, a, oldHead);
      if a.number > oldHead {
        NewAckKeeps(cfg, AfterDupAck(cfg, s, a.headLost), true);
      }
    } else if a.number > oldHead {
      NewAckKeeps(cfg, s.(dupAckCount := 0), false);
    }
  }

  lemma ReceivedAckKeeps(cfg: Config, s: Socket, a: Ack)
    requires Inv(cfg, s) && a.number <= s.highTxMark && a.number <= s.highRxAckMark
    ensures Inv(cfg, AfterReceivedAck(cfg, s, a))
  {
    if a.number >= s.head {
      var s1 := LeaveCwr(s.(head := a.number), a.number);
      LeaveCwrKeeps(cfg, s, a.number);
      EcnEchoKeeps(cfg, s1, a, s.head);
      ProcessAckKeeps(cfg, EcnEcho(s1, a, s.head), a, s.head);
    }
  }

  lemma SegmentKeeps(cfg: Config, s: Socket, g: Segment)
    requires Inv(cfg, s)
    ensures Inv(cfg, AfterSegment(cfg, s, g))
  {
    var s1 := AfterFlag(AfterMark(s, g.ce), g.cwr);
    assert Inv(cfg, s1);
    if g.ack.Some? {
      AckKeeps(cfg, s1, g.ack.value);
    }
  }

  lemma AckKeeps(cfg: Config, s: Socket, a: Ack)
    requires Inv(cfg, s)
    ensures Inv(cfg, AfterAck(cfg, s, a))
  {
    var s1 := s.(highRxAckMark := Max(s.highRxAckMark, a.number));
    assert Inv(cfg, s1);
    if s1.head <= a.number <= s1.highTxMark {
      ReceivedAckKeeps(cfg, s1, a);
    }
  }

  lemma StepKeeps(cfg: Config, s: Socket, e: Event)
    requires Inv(cfg, s)
    ensures Inv(cfg, Step(cfg, s, e))
  {
    match e
    case Received(g) => SegmentKeeps(cfg, s, g);
    case Timeout(bufferEmpty, retriesLeft) => TimeoutKeeps(cfg, s, bufferEmpty, retriesLeft);
    case _ =>
  }

  lemma TimeoutKeeps(cfg: Config, s: Socket, bufferEmpty: bool, retriesLeft: bool)
    requires Inv(cfg, s)
    ensures Inv(cfg, AfterTimeout(s, bufferEmpty, retriesLeft))
  {
  }

  /** Every reachable state, with and without ECN, satisfies the invariant. */
  lemma {:induction false} RunKeeps(cfg: Config, isn: nat, ackMark: nat, ecnState: EcnState, events: seq<Event>)
    ensures Inv(cfg, Run(cfg, Established(isn, ackMark, ecnState), events))
  {
    if events != [] {
      RunKeeps(cfg, isn, ackMark, ecnState, events[..|events| - 1]);
      StepKeeps(cfg, Run(cfg, Established(isn, ackMark, ecnState), events[..|events| - 1]), events[|events| - 1]);
    }
  }

  // What follows from it

  /**
   Recovery points never decrease, and each fast recovery starts only when the
   cumulative ACK has reached every earlier point: one fast recovery per
   window of data, whatever timeouts, partial ACKs and ECN echoes come between.
   */
  lemma OneRecoveryPerWindow(cfg: Config, isn: nat, ackMark: nat, ecnState: EcnState, events: seq<Event>)
    ensures OnePerWindow(Run(cfg, Established(isn, ackMark, ecnState), events).log)
  {
    RunKeeps(cfg, isn, ackMark, ecnState, events);
  }

  /** A segment with a CWR flag or a new CE mark. */
  ghost predicate Marks(e: Event) {
    e.Received? && (e.segment.ce || e.segment.cwr)
  }

  ghost predicate Unmarked(events: seq<Event>) {
    forall i :: 0 <= i < |events| ==> !Marks(events[i])
  }

  lemma ProcessingLeavesEcn(cfg: Config, s: Socket, a: Ack, oldHead: nat)
    ensures AfterProcessAck(cfg, s, a, oldHead).ecnState == s.ecnState
  {
    DupAckLeavesEcn(cfg, s, a.headLost);
    var isDupack := IsDupack(cfg, s, a, oldHead);
    NewAckFrame(if isDupack then AfterDupAck(cfg, s, a.headLost) else s.(dupAckCount := 0), a.number, isDupack);
  }

  lemma DupAckLeavesEcn(cfg: Config, s: Socket, headLost: bool)
    ensures AfterDupAck(cfg, s, headLost).ecnState == s.ecnState
  {
  }

  lemma EcnStepIff(cfg: Config, s: Socket, e: Event)
    ensures Step(cfg, s, e).ecnState == EcnDisabled <==> s.ecnState == EcnDisabled && !Marks(e)
  {
    if e.Received? && e.segment.ack.Some? {
      EcnAckIff(cfg, AfterFlag(AfterMark(s, e.segment.ce), e.segment.cwr), e.segment.ack.value);
    }
  }

  lemma EcnAckIff(cfg: Config, s: Socket, a: Ack)
    ensures AfterAck(cfg, s, a).ecnState == EcnDisabled <==> s.ecnState == EcnDisabled
  {
    var s1 := s.(highRxAckMark := Max(s.highRxAckMark, a.number));
    ProcessingLeavesEcn(cfg, EcnEcho(LeaveCwr(s1.(head := a.number), a.number), a, s1.head), a, s1.head);
  }

  /** ECN is off exactly if it was not negotiated and no segment came with a CWR flag or a CE mark. */
  lemma {:induction false} EcnStaysOffIff(cfg: Config, isn: nat, ackMark: nat, ecnState: EcnState, events: seq<Event>)
    ensures Run(cfg, Established(isn, ackMark, ecnState), events).ecnState == EcnDisabled
       <==> ecnState == EcnDisabled && Unmarked(events)
  {
    if events != [] {
      var before, e := events[..|events| - 1], events[|events| - 1];
      EcnStaysOffIff(cfg, isn, ackMark, ecnState, before);
      EcnStepIff(cfg, Run(cfg, Established(isn, ackMark, ecnState), before), e);
      UnmarkedSnoc(before, e);
      assert before + [e] == events;
    }
  }

  lemma UnmarkedSnoc(events: seq<Event>, e: Event)
    ensures Unmarked(events + [e]) <==> Unmarked(events) && !Marks(e)
  {
    assert (events + [e])[|events|] == e;
    assert forall i :: 0 <= i < |events| ==> (events + [e])[i] == events[i];
  }

  /** With ECN not negotiated and no marked segment the states of loss recovery are as the assertions expect them. */
  lemma StatesWithoutEcn(cfg: Config, isn: nat, ackMark: nat, events: seq<Event>)
    requires cfg.retxThresh >= 1 && Unmarked(events)
    ensures var s := Run(cfg, Established(isn, ackMark, EcnDisabled), events);
            s.congState != Cwr && FlagMatches(s) && Counted(cfg, s)
  {
    RunKeeps(cfg, isn, ackMark, EcnDisabled, events);
    EcnStaysOffIff(cfg, isn, ackMark, EcnDisabled, events);
  }

  ghost predicate Allowed(marks: bool, events: seq<Event>) {
    marks || Unmarked(events)
  }

  /**
   The assertions hold in all runs, with marked segments or without, exactly
   for a positive duplicate-ACK threshold where SACK is off or ECN can never
   get on.
   */
  lemma AssertionsHoldIff(cfg: Config, isn: nat, ackMark: nat, ecnState: EcnState, marks: bool)
    ensures (forall events :: Allowed(marks, events) ==> Run(cfg, Established(isn, ackMark, ecnState), events).asserted)
       <==> cfg.retxThresh >= 1 && (!cfg.sackEnabled || (ecnState == EcnDisabled && !marks))
  {
    if cfg.retxThresh == 0 {
      var events := ZeroThresholdFails(cfg, isn, ackMark, ecnState);
      assert Allowed(marks, events);
    } else if !cfg.sackEnabled || (ecnState == EcnDisabled && !marks) {
      forall events | Allowed(marks, events)
        ensures Run(cfg, Established(isn, ackMark, ecnState), events).asserted
      {
        RunKeeps(cfg, isn, ackMark, ecnState, events);
        EcnStaysOffIff(cfg, isn, ackMark, ecnState, events);
      }
    } else if ecnState != EcnDisabled {
      var events := EcnBreaksAssertion(cfg, isn, ackMark, ecnState);
      assert Allowed(marks, events);
    } else {
      var events := FlagBreaksAssertion(cfg, isn, ackMark);
      assert Allowed(marks, events);
    }
  }

  /** The flag of a loss-based recovery matches the state in all runs exactly if ECN can never get on. */
  lemma FlagMatchesIff(cfg: Config, isn: nat, ackMark: nat, ecnState: EcnState, marks: bool)
    ensures (forall events :: Allowed(marks, events) ==>
                FlagMatches(Run(cfg, Established(isn, ackMark, ecnState), events)))
       <==> ecnState == EcnDisabled && !marks
  {
    if ecnState == EcnDisabled && !marks {
      forall events | Allowed(marks, events)
        ensures FlagMatches(Run(cfg, Established(isn, ackMark, ecnState), events))
      {
        RunKeeps(cfg, isn, ackMark, ecnState, events);
        EcnStaysOffIff(cfg, isn, ackMark, ecnState, events);
      }
    } else if ecnState != EcnDisabled {
      var events := EcnBreaksFlag(cfg, isn, ackMark, ecnState);
      assert Allowed(marks, events);
    } else {
      var events := EcnBreaksFlag(cfg, isn, ackMark, EcnIdle);
      RunAfter(cfg, Established(isn, ackMark, EcnDisabled), FLAGGED, events);
      assert Allowed(marks, [FLAGGED] + events);
    }
  }

  /**
   The assertion of SendPendingData after each packet: without SACK and limited
   transmit nothing is sent in Disorder.
   */
  ghost predicate SendingHolds(cfg: Config, limitedTx: bool, s: Socket, events: seq<Event>) {
    forall k :: 0 <= k < |events| && events[k].Sent? ==>
      cfg.sackEnabled || limitedTx || Run(cfg, s, events[..k]).congState != Disorder
  }

  /** It holds in all runs exactly with SACK, with limited transmit, or if the first duplicate ACK is enough. */
  lemma SendingHoldsIff(cfg: Config, limitedTx: bool, isn: nat, ackMark: nat, ecnState: EcnState)
    ensures (forall events :: SendingHolds(cfg, limitedTx, Established(isn, ackMark, ecnState), events))
       <==> cfg.sackEnabled || limitedTx || cfg.retxThresh == 1
  {
    var start := Established(isn, ackMark, ecnState);
    if cfg.sackEnabled || limitedTx || cfg.retxThresh == 1 {
      forall events
        ensures SendingHolds(cfg, limitedTx, start, events)
      {
        forall k | 0 <= k < |events|
          ensures cfg.sackEnabled || limitedTx || Run(cfg, start, events[..k]).congState != Disorder
        {
          RunKeeps(cfg, isn, ackMark, ecnState, events[..k]);
        }
      }
    } else {
      var events := SendsInDisorder(cfg, isn, ackMark, ecnState);
      assert !SendingHolds(cfg, limitedTx, start, events);
    }
  }

  // Runs that fail

  /** One segment, its duplicate ACK, and more data from the application. */
  lemma SendsInDisorder(cfg: Config, isn: nat, ackMark: nat, ecnState: EcnState) returns (events: seq<Event>)
    requires !cfg.sackEnabled && cfg.retxThresh != 1
    ensures |events| == 3 && Unmarked(events) && events[2].Sent?
        && Run(cfg, Established(isn, ackMark, ecnState), events[..2]).congState == Disorder
  {
    var start := Established(isn, ackMark, ecnState);
    var e1, e2, e3 := Sent(isn, 1, false), Acked(isn, false, false), Sent(isn + 1, 1, false);
    RunSnoc(cfg, start, [], e1);
    RunSnoc(cfg, start, [e1], e2);
    events := [e1] + [e2] + [e3];
    assert events[..2] == [e1] + [e2];
  }

  /** A segment with a CWR flag and no ACK. */
  const FLAGGED: Event := Received(Segment(false, true, None))

  function Acked(number: nat, scoreboardUpdated: bool, ece: bool): Event {
    Received(Segment(false, false, Some(Ack(number, scoreboardUpdated, ece, false))))
  }

  lemma RunSnoc(cfg: Config, s: Socket, events: seq<Event>, e: Event)
    ensures Run(cfg, s, events + [e]) == Step(cfg, Run(cfg, s, events), e)
    ensures Run(cfg, s, []) == s && [] + [e] == [e]
  {
    assert (events + [e])[..|events|] == events;
  }

  lemma {:induction false} RunAfter(cfg: Config, s: Socket, e: Event, events: seq<Event>)
    ensures Run(cfg, s, [e] + events) == Run(cfg, Step(cfg, s, e), events)
    decreases |events|
  {
    var all := [e] + events;
    if events == [] {
      assert all[..0] == [];
    } else {
      assert all[..|all| - 1] == [e] + events[..|events| - 1];
      RunAfter(cfg, s, e, events[..|events| - 1]);
    }
  }

  lemma ZeroThresholdFails(cfg: Config, isn: nat, ackMark: nat, ecnState: EcnState) returns (events: seq<Event>)
    requires cfg.retxThresh == 0
    ensures Unmarked(events) && !Run(cfg, Established(isn, ackMark, ecnState), events).asserted
  {
    var start := Established(isn, ackMark, ecnState);
    var e1, e2 := Sent(isn, 2, false), Acked(isn, true, false);
    RunSnoc(cfg, start, [], e1);
    RunSnoc(cfg, start, [e1], e2);
    events := [e1] + [e2];
  }

  /** An echo reduces the window; the first of the two ACKs is new, the second brings a SACK block only. */
  lemma EchoThenSack(cfg: Config, isn: nat, ackMark: nat, ecnState: EcnState) returns (events: seq<Event>)
    requires cfg.sackEnabled && ecnState != EcnDisabled
    ensures Unmarked(events)
    ensures var s := Run(cfg, Established(isn, ackMark, ecnState), events);
            && s.congState == Cwr && s.recover == isn + 20 && s.dupAckCount == 1 && s.head == isn + 1
            && s.highTxMark == isn + 40
  {
    var s0 := Established(isn, ackMark, ecnState);
    var e1, e2 := Sent(isn, 20, false), Acked(isn + 1, false, true);
    var e3, e4 := Acked(isn + 1, true, true), Sent(isn + 20, 20, false);
    RunSnoc(cfg, s0, [], e1);
    RunSnoc(cfg, s0, [e1], e2);
    RunSnoc(cfg, s0, [e1] + [e2], e3);
    RunSnoc(cfg, s0, [e1] + [e2] + [e3], e4);
    events := [e1] + [e2] + [e3] + [e4];
  }

  /**
   With ECN and SACK an ACK that ends CWR and carries new SACK blocks meets a
   stale duplicate count, and the assertion on leaving Open fails.
   */
  lemma EcnBreaksAssertion(cfg: Config, isn: nat, ackMark: nat, ecnState: EcnState) returns (events: seq<Event>)
    requires cfg.sackEnabled && ecnState != EcnDisabled
    ensures Unmarked(events) && !Run(cfg, Established(isn, ackMark, ecnState), events).asserted
  {
    events := EchoThenSack(cfg, isn, ackMark, ecnState);
    var leaving := Acked(isn + 29, true, false);
    RunSnoc(cfg, Established(isn, ackMark, ecnState), events, leaving);
    events := events + [leaving];
  }

  /** ECN not negotiated is no protection: a CWR flag turns it on. */
  lemma FlagBreaksAssertion(cfg: Config, isn: nat, ackMark: nat) returns (events: seq<Event>)
    requires cfg.sackEnabled
    ensures !Run(cfg, Established(isn, ackMark, EcnDisabled), events).asserted
  {
    var rest := EcnBreaksAssertion(cfg, isn, ackMark, EcnIdle);
    RunAfter(cfg, Established(isn, ackMark, EcnDisabled), FLAGGED, rest);
    events := [FLAGGED] + rest;
  }

  /** An echo after a timeout leaves Loss for CWR with the flag set. */
  lemma EcnBreaksFlag(cfg: Config, isn: nat, ackMark: nat, ecnState: EcnState) returns (events: seq<Event>)
    requires ecnState != EcnDisabled
    ensures Unmarked(events) && !FlagMatches(Run(cfg, Established(isn, ackMark, ecnState), events))
  {
    var s0 := Established(isn, ackMark, ecnState);
    var e1, e2, e3 := Sent(isn, 20, false), Timeout(false, true), Acked(isn + 1, false, true);
    RunSnoc(cfg, s0, [], e1);
    RunSnoc(cfg, s0, [e1], e2);
    RunSnoc(cfg, s0, [e1] + [e2], e3);
    events := [e1] + [e2] + [e3];
  }

  /**
   A fast recovery starts from Open or Disorder exactly on a duplicate ACK that reaches
   the threshold or reveals a loss.
   */
  lemma FastRecoveryIff(cfg: Config, s: Socket, a: Ack)
    requires Inv(cfg, s) && cfg.retxThresh >= 1 && s.ecnState == EcnDisabled
    requires !s.recoverActive && s.head <= a.number <= s.highTxMark
    ensures AfterReceivedAck(cfg, s, a).log != s.log
       <==> IsDupack(cfg, s, a, s.head) && (s.dupAckCount + 1 == cfg.retxThresh || a.headLost)
  {
  }

  /** Recovery and Loss end exactly with the ACK that covers the recovery point. */
  lemma RecoveryEndsIff(cfg: Config, s: Socket, a: Ack)
    requires Inv(cfg, s) && s.ecnState == EcnDisabled && s.recoverActive && s.head <= a.number <= s.highTxMark
    ensures var s' := AfterReceivedAck(cfg, s, a);
            if a.number > s.head && a.number >= s.recover then s'.congState == Open && !s'.recoverActive
            else s'.congState == s.congState && s'.recover == s.recover
  {
  }

  // The socket as the program has it

  class TcpSocketBase {
    const cfg: Config
    var congState: CongState
    var dupAckCount: nat
    var recover: nat
    var recoverActive: bool
    var isFirstPartialAck: bool
    /** The first unacknowledged sequence number of the transmit buffer. */
    var head: nat
    var highTxMark: nat
    var highRxAckMark: nat
    var ecnState: EcnState
    var ecnEchoSeq: nat
    var ecnCwrSeq: nat
    ghost var log: seq<Episode>
    ghost var asserted: bool

    ghost function View(): Socket
      reads this
    {
      Socket(congState, dupAckCount, recover, recoverActive, isFirstPartialAck, head, highTxMark, highRxAckMark,
             ecnState, ecnEchoSeq, ecnCwrSeq, log, asserted)
    }

    constructor (cfg: Config, isn: nat, ackMark: nat, ecnState: EcnState)
      ensures this.cfg == cfg && View() == Established(isn, ackMark, ecnState)
    {
      this.cfg, this.ecnState := cfg, ecnState;
      congState, dupAckCount, recover, recoverActive, isFirstPartialAck := Open, 0, 0, false, true;
      head, highTxMark, highRxAckMark, ecnEchoSeq, ecnCwrSeq := isn, isn, ackMark, 0, 0;
      log, asserted := [], true;
    }

    ghost method NsAssert(condition: bool)
      modifies this`asserted
      ensures asserted == (old(asserted) && condition)
    {
      asserted := asserted && condition;
    }

    method EnterCwr()
      modifies this
      ensures View() == AfterEnterCwr(old(View()))
    {
      NsAssert(congState != Cwr);
      congState := Cwr;
      recover := highTxMark;
    }

    method EnterRecovery()
      modifies this
      ensures View() == AfterEnterRecovery(old(View()))
    {
      NsAssert(congState != Recovery);
      recover := highTxMark;
      recoverActive := true;
      congState := Recovery;
      log := log + [Episode(true, highTxMark, head)];
    }

    method DupAck(headLost: bool)
      modifies this
      ensures View() == AfterDupAck(cfg, old(View()), headLost)
    {
      if congState == Loss {
        return;
      }
      if congState != Recovery {
        dupAckCount := dupAckCount + 1;
      }
      if congState == Open {
        NsAssert(dupAckCount == 1);
        congState := Disorder;
      }
      if congState == Disorder {
        NsAssert(dupAckCount <= cfg.retxThresh || recoverActive);
        if dupAckCount == cfg.retxThresh && (highRxAckMark >= recover || !recoverActive) {
          EnterRecovery();
          NsAssert(congState == Recovery);
        } else if headLost {
          EnterRecovery();
          NsAssert(congState == Recovery);
        }
      }
    }

    method ProcessAck(a: Ack, oldHead: nat)
      modifies this
      ensures View() == AfterProcessAck(cfg, old(View()), a, oldHead)
    {
      var isDupack := if cfg.sackEnabled then a.scoreboardUpdated else a.number == oldHead && a.number < highTxMark;
      if isDupack {
        DupAck(a.headLost);
      }
      if a.number > oldHead {
        if !isDupack {
          dupAckCount := 0;
        }
        if a.number < recover && congState == Recovery {
          isFirstPartialAck := false;
        } else if a.number < recover && congState == Loss {
        } else if congState == Cwr {
        } else {
          match congState {
            case Disorder =>
              if !isDupack {
                congState := Open;
              }
            case Recovery =>
              isFirstPartialAck := true;
              congState := Open;
              dupAckCount := 0;
            case Loss =>
              isFirstPartialAck := true;
              congState := Open;
            case Open =>
            case Cwr =>
          }
          if a.number >= recover {
            recoverActive := false;
          }
        }
      }
    }

    method ReceivedAck(a: Ack)
      modifies this
      ensures View() == AfterReceivedAck(cfg, old(View()), a)
    {
      var oldHead := head;
      if a.number < oldHead {
        return;
      }
      head := a.number;
      if congState == Cwr && a.number > recover {
        congState := Open;
      }
      NoteEcho(a, oldHead);
      ProcessAck(a, oldHead);
    }

    /** The ECN part of `ReceivedAck`. */
    method NoteEcho(a: Ack, oldHead: nat)
      modifies this
      ensures View() == EcnEcho(old(View()), a, oldHead)
    {
      if a.number > oldHead && ecnState != EcnDisabled && a.ece {
        if ecnEchoSeq < a.number {
          ecnEchoSeq := a.number;
          ecnState := EceReceived;
          if congState != Cwr {
            EnterCwr();
          }
        }
      } else if ecnState == EceReceived && !a.ece {
        ecnState := EcnIdle;
      }
    }

    /** `ce` says whether the packet has a CE mark and a later sequence number than the last one that had. */
    method ForwardUp(g: Segment)
      modifies this
      ensures View() == AfterSegment(cfg, old(View()), g)
    {
      if g.ce {
        ecnState := CeReceived;
      }
      DoForwardUp(g);
    }

    method DoForwardUp(g: Segment)
      modifies this
      ensures View() == AfterHeader(cfg, old(View()), g)
    {
      if g.cwr {
        if ecnState != CeReceived {
          ecnState := EcnIdle;
        }
      }
      match g.ack {
        case None =>
        case Some(a) => ProcessEstablished(a);
      }
    }

    /** The window update for an ACK, and its case in the state ESTABLISHED. */
    method ProcessEstablished(a: Ack)
      modifies this
      ensures View() == AfterAck(cfg, old(View()), a)
    {
      if a.number > highRxAckMark {
        highRxAckMark := a.number;
      }
      if a.number < head {
      } else if a.number > highTxMark {
      } else {
        ReceivedAck(a);
      }
    }

    method SendDataPacket(seqNumber: nat, size: nat, isRetransmission: bool)
      modifies this
      ensures View() == AfterSent(old(View()), seqNumber, size, isRetransmission)
    {
      if ecnState == EceReceived && ecnEchoSeq > ecnCwrSeq && !isRetransmission {
        ecnState := CwrSent;
        ecnCwrSeq := seqNumber;
      }
      highTxMark := Max(seqNumber + size, highTxMark);
    }

    /** The change of state with which an ECE flag is sent. */
    method EchoCe()
      modifies this
      ensures View() == AfterEcho(old(View()))
    {
      if ecnState == CeReceived || ecnState == SendingEce {
        ecnState := SendingEce;
      }
    }

    method ReTxTimeout(bufferEmpty: bool, retriesLeft: bool)
      modifies this
      ensures View() == AfterTimeout(old(View()), bufferEmpty, retriesLeft)
    {
      if bufferEmpty || !retriesLeft {
        return;
      }
      dupAckCount := 0;
      recover := highTxMark;
      recoverActive := true;
      log := log + [Episode(false, highTxMark, head)];
      congState := Loss;
    }
  }
}
