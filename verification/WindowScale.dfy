/**
 Window scaling (RFC 7323, section 2): the scale a receiver offers, the
 window it advertises with it and the window the peer reconstructs.
 Sequence numbers, byte counts and windows are natural numbers; the 16-bit
 window field and the limit of 14 on the scale are explicit.
 */
module WindowScale {
  import opened Arithmetic
  import opened Wrappers

  const MAX_SCALE: nat := 14

  lemma HalveOnce(x: nat, n: nat)
    ensures (x / 2) / Pow2(n) == x / Pow2(n + 1)
  {
    DivideTwice(x, 2, Pow2(n));
  }

  lemma ShiftAntitone(x: nat, m: nat, n: nat)
    requires m <= n
    ensures x / Pow2(n) <= x / Pow2(m)
    decreases n - m
  {
    if m < n {
      ShiftAntitone(x, m + 1, n);
      HalveOnce(x, m);
      assert (x / 2) / Pow2(m) <= x / Pow2(m) by { QuotientMonotone(x / 2, x, Pow2(m)); }
    }
  }

  /** The smallest scale that makes the buffer fit the field, or 14. */
  ghost predicate IsScaleFor(scale: nat, bufferSize: nat, maxWinSize: nat) {
    && scale <= MAX_SCALE
    && (forall k :: 0 <= k < scale ==> bufferSize / Pow2(k) > maxWinSize)
    && (scale < MAX_SCALE ==> bufferSize / Pow2(scale) <= maxWinSize)
  }

  /** The scale for a buffer: the number of halvings until it fits, at most 14. */
  method CalculateWScale(maxBufferSize: nat, maxWinSize: nat) returns (scale: nat)
    ensures IsScaleFor(scale, maxBufferSize, maxWinSize)
  {
    var maxSpace := maxBufferSize;
    scale := 0;
    while maxSpace > maxWinSize
      invariant maxSpace == maxBufferSize / Pow2(scale)
      invariant forall k :: 0 <= k < scale ==> maxBufferSize / Pow2(k) > maxWinSize
      decreases maxSpace
    {
      HalveAgain(maxBufferSize, scale);
      maxSpace := maxSpace / 2;
      scale := scale + 1;
    }
    if scale > MAX_SCALE {
      scale := MAX_SCALE;
    }
  }

  lemma HalveAgain(x: nat, n: nat)
    ensures (x / Pow2(n)) / 2 == x / Pow2(n + 1)
  {
    DivideTwice(x, Pow2(n), 2);
  }

  lemma ScaleIsUnique(s: nat, t: nat, bufferSize: nat, maxWinSize: nat)
    requires IsScaleFor(s, bufferSize, maxWinSize) && IsScaleFor(t, bufferSize, maxWinSize)
    ensures s == t
  {
  }

  /** An unsigned right shift. */
  function ShiftRight(w: nat, shift: nat): nat {
    QuotientIsNatural(w, Pow2(shift));
    w / Pow2(shift)
  }

  /** The window field of a segment for w bytes of free space. */
  function Advertised(w: nat, shift: nat, maxWinSize: nat): nat {
    Min(ShiftRight(w, shift), maxWinSize)
  }

  /** The peer's window for a field value. */
  function Reconstructed(field: nat, shift: nat): nat {
    field * Pow2(shift)
  }

  /** A received scale above 14 is used as 14. */
  function AcceptedScale(offered: nat): nat {
    Min(offered, MAX_SCALE)
  }

  // Negotiation

  /** What a socket keeps of the negotiation. */
  datatype Scaling = Scaling(enabled: bool, rcvWindShift: nat, sndWindShift: nat)

  /** A SYN with its window scale option, for the socket's own scale. */
  function SynSent(s: Scaling, own: nat): (Scaling, Option<nat>) {
    if s.enabled then (s.(rcvWindShift := own), Some(own)) else (s, None)
  }

  /** A SYN without the option, or to a socket without scaling, only disables scaling; the own shift stays. */
  function SynReceived(s: Scaling, option: Option<nat>): Scaling {
    if option.Some? && s.enabled then s.(sndWindShift := AcceptedScale(option.value)) else s.(enabled := false)
  }

  /**
   A SYN and a SYN-ACK between the socket `a` and a listener, each with its
   own scale.  The listener itself processes the SYN; the socket forked from
   it starts with a copy of what the SYN left and answers.  The results are the
   active socket, the forked one and the listener.
   */
  function Handshake(a: Scaling, l: Scaling, activeScale: nat, passiveScale: nat): (Scaling, Scaling, Scaling) {
    var (a1, syn) := SynSent(a, activeScale);
    var l1 := SynReceived(l, syn);
    var (p, synAck) := SynSent(l1, passiveScale);
    (SynReceived(a1, synAck), p, l1)
  }

  /** The window that the socket with `peer` believes in when the one with `own` advertises w. */
  function Seen(w: nat, own: Scaling, peer: Scaling, maxWinSize: nat): nat {
    Reconstructed(Advertised(w, own.rcvWindShift, maxWinSize), peer.sndWindShift)
  }

  ghost predicate NeverTooMuch(own: Scaling, peer: Scaling, maxWinSize: nat) {
    forall w: nat :: Seen(w, own, peer, maxWinSize) <= w
  }

  /** Every window that fits the field after scaling arrives with a loss below one unit of the scale. */
  ghost predicate RoundTrips(own: Scaling, peer: Scaling, maxWinSize: nat) {
    forall w: nat :: w / Pow2(own.rcvWindShift) <= maxWinSize ==>
      w - Seen(w, own, peer, maxWinSize) < Pow2(own.rcvWindShift)
  }

  /** The shifts of both sides, whatever the two sockets brought along. */
  lemma Negotiated(a: Scaling, l: Scaling, activeScale: nat, passiveScale: nat)
    requires activeScale <= MAX_SCALE && passiveScale <= MAX_SCALE
    ensures var (a', p, l') := Handshake(a, l, activeScale, passiveScale);
            var both := a.enabled && l.enabled;
            && a'.enabled == p.enabled == l'.enabled == both
            && a'.rcvWindShift == (if a.enabled then activeScale else a.rcvWindShift)
            && p.rcvWindShift == (if both then passiveScale else l.rcvWindShift)
            && p.sndWindShift == l'.sndWindShift == (if both then activeScale else l.sndWindShift)
            && a'.sndWindShift == (if both then passiveScale else a.sndWindShift)
            && l'.rcvWindShift == l.rcvWindShift
  {
  }

  /** Retransmitted SYNs and SYN-ACKs change nothing, also for a forked socket that has answered already. */
  lemma RetransmissionsChangeNothing(s: Scaling, own: nat, option: Option<nat>)
    ensures var (s1, o) := SynSent(s, own); SynSent(s1, own) == (s1, o)
    ensures SynReceived(SynReceived(s, option), option) == SynReceived(s, option)
    ensures var p := SynSent(SynReceived(s, option), own).0; SynReceived(p, option) == p
  {
  }

  /**
   The exact conditions for both directions, on what the two sockets had
   before.  With scaling on at both ends all is well; otherwise it depends on
   how a shift left in one socket compares with the one the other uses.  A
   field without room carries nothing.
   */
  lemma NegotiatedRoundTrip(a: Scaling, l: Scaling, activeScale: nat, passiveScale: nat, maxWinSize: nat)
    requires activeScale <= MAX_SCALE && passiveScale <= MAX_SCALE
    ensures var (a', p, _) := Handshake(a, l, activeScale, passiveScale);
            var fine := (a.enabled && l.enabled) || maxWinSize == 0;
            var activeShift := if a.enabled then activeScale else a.rcvWindShift;
            && (NeverTooMuch(a', p, maxWinSize) <==> fine || l.sndWindShift <= activeShift)
            && (RoundTrips(a', p, maxWinSize) <==> fine || l.sndWindShift >= activeShift)
            && (NeverTooMuch(p, a', maxWinSize) <==> fine || a.sndWindShift <= l.rcvWindShift)
            && (RoundTrips(p, a', maxWinSize) <==> fine || a.sndWindShift >= l.rcvWindShift)
  {
    Negotiated(a, l, activeScale, passiveScale);
    var (a', p, _) := Handshake(a, l, activeScale, passiveScale);
    NeverTooMuchIff(a', p, maxWinSize);
    RoundTripsIff(a', p, maxWinSize);
    NeverTooMuchIff(p, a', maxWinSize);
    RoundTripsIff(p, a', maxWinSize);
  }

  /**
   Between sockets that took no part in an earlier handshake: no side believes
   in more window than the other has, the passive side's windows always make
   the round trip, and the active side's exactly if the passive side sent the
   option, or the active side sent none, or only one of scale 0.
   */
  lemma FirstHandshakeRoundTrip(active: bool, passive: bool, activeScale: nat, passiveScale: nat, maxWinSize: nat)
    requires activeScale <= MAX_SCALE && passiveScale <= MAX_SCALE
    ensures var (a, p, _) := Handshake(Scaling(active, 0, 0), Scaling(passive, 0, 0), activeScale, passiveScale);
            && NeverTooMuch(a, p, maxWinSize) && NeverTooMuch(p, a, maxWinSize) && RoundTrips(p, a, maxWinSize)
            && (RoundTrips(a, p, maxWinSize) <==> passive || !active || activeScale == 0 || maxWinSize == 0)
  {
    NegotiatedRoundTrip(Scaling(active, 0, 0), Scaling(passive, 0, 0), activeScale, passiveScale, maxWinSize);
  }

  // A listener over several connections

  /** The listener after the SYNs of earlier clients, accepted or not, each with its option. */
  function ListenerAfter(l: Scaling, syns: seq<Option<nat>>): Scaling {
    if syns == [] then l else SynReceived(ListenerAfter(l, syns[..|syns| - 1]), syns[|syns| - 1])
  }

  /** A client without the option turns scaling off for all later ones, and leaves them the shift of an earlier one. */
  lemma {:induction false} ListenerKeepsShift(l: Scaling, syns: seq<Option<nat>>, k: nat)
    requires k < |syns| && syns[k].None?
    ensures var later := ListenerAfter(l, syns);
            !later.enabled && later.sndWindShift == ListenerAfter(l, syns[..k]).sndWindShift
    decreases |syns|
  {
    var before := syns[..|syns| - 1];
    if k < |before| {
      ListenerKeepsShift(l, before, k);
      assert before[..k] == syns[..k];
    }
  }

  /** Scaling stays on exactly while every client sends the option; the shift is then that of the last client. */
  lemma {:induction false} ListenerScalesIff(l: Scaling, syns: seq<Option<nat>>)
    ensures var later := ListenerAfter(l, syns);
            && (later.enabled <==> l.enabled && forall k :: 0 <= k < |syns| ==> syns[k].Some?)
            && (later.enabled && syns != [] ==> later.sndWindShift == Min(syns[|syns| - 1].value, 14))
            && later.rcvWindShift == l.rcvWindShift
  {
    if syns != [] {
      ListenerScalesIff(l, syns[..|syns| - 1]);
    }
  }

  /** After a client of scale 7 one without scaling is believed to have 128 times its window. */
  lemma StaleListenerShift()
    ensures var l := ListenerAfter(Scaling(true, 0, 0), [Some(7)]);
            var (a, p, _) := Handshake(Scaling(false, 0, 0), l, 0, 0);
            p == Scaling(false, 0, 7) && Seen(1000, a, p, 65535) == 128000
  {
    assert ListenerAfter(Scaling(true, 0, 0), []) == Scaling(true, 0, 0);
    assert [Some(7)][..0] == [];
    assert ListenerAfter(Scaling(true, 0, 0), [Some(7)]) == Scaling(true, 0, 7);
    assert Pow2(7) == 2 * Pow2(6) && Pow2(6) == 2 * Pow2(5) && Pow2(5) == 2 * Pow2(4) && Pow2(4) == 16;
  }

  // How two shifts compare

  lemma {:induction false} Pow2Grows(m: nat, n: nat)
    requires m <= n
    ensures Pow2(m) <= Pow2(n) && (m < n ==> 2 * Pow2(m) <= Pow2(n))
    decreases n
  {
    if m < n {
      Pow2Grows(m, n - 1);
    }
  }

  /** One unit of the own scale and one byte less than two. */
  lemma AroundOneUnit(shift: nat)
    ensures Pow2(shift) / Pow2(shift) == 1 && (2 * Pow2(shift) - 1) / Pow2(shift) == 1
  {
    QuotientIs(Pow2(shift), Pow2(shift), 1);
    QuotientIs(2 * Pow2(shift) - 1, Pow2(shift), 1);
  }

  lemma NeverTooMuchIff(own: Scaling, peer: Scaling, maxWinSize: nat)
    ensures NeverTooMuch(own, peer, maxWinSize) <==> peer.sndWindShift <= own.rcvWindShift || maxWinSize == 0
  {
    var d := Pow2(own.rcvWindShift);
    if peer.sndWindShift <= own.rcvWindShift || maxWinSize == 0 {
      forall w: nat
        ensures Seen(w, own, peer, maxWinSize) <= w
      {
        SeenAtMost(w, own, peer, maxWinSize);
      }
    } else {
      AroundOneUnit(own.rcvWindShift);
      Pow2Grows(own.rcvWindShift, peer.sndWindShift);
      assert Seen(d, own, peer, maxWinSize) == Pow2(peer.sndWindShift) > d;
    }
  }

  lemma SeenAtMost(w: nat, own: Scaling, peer: Scaling, maxWinSize: nat)
    requires peer.sndWindShift <= own.rcvWindShift || maxWinSize == 0
    ensures Seen(w, own, peer, maxWinSize) <= w
  {
    var d := Pow2(own.rcvWindShift);
    QuotientBounds(w, d);
    QuotientIsNatural(w, d);
    var field := Advertised(w, own.rcvWindShift, maxWinSize);
    if maxWinSize > 0 {
      Pow2Grows(peer.sndWindShift, own.rcvWindShift);
      ProductMonotone(field, Pow2(peer.sndWindShift), d);
      ProductMonotone(d, field, w / d);
    }
  }

  lemma RoundTripsIff(own: Scaling, peer: Scaling, maxWinSize: nat)
    ensures RoundTrips(own, peer, maxWinSize) <==> peer.sndWindShift >= own.rcvWindShift || maxWinSize == 0
  {
    var d := Pow2(own.rcvWindShift);
    if peer.sndWindShift >= own.rcvWindShift || maxWinSize == 0 {
      forall w: nat | w / d <= maxWinSize
        ensures w - Seen(w, own, peer, maxWinSize) < d
      {
        SeenAtLeast(w, own, peer, maxWinSize);
      }
    } else {
      AroundOneUnit(own.rcvWindShift);
      Pow2Grows(peer.sndWindShift, own.rcvWindShift);
      assert Seen(2 * d - 1, own, peer, maxWinSize) == Pow2(peer.sndWindShift);
      assert (2 * d - 1) / Pow2(own.rcvWindShift) <= maxWinSize;
    }
  }

  lemma SeenAtLeast(w: nat, own: Scaling, peer: Scaling, maxWinSize: nat)
    requires peer.sndWindShift >= own.rcvWindShift || maxWinSize == 0
    requires w / Pow2(own.rcvWindShift) <= maxWinSize
    ensures w - Seen(w, own, peer, maxWinSize) < Pow2(own.rcvWindShift)
  {
    var d := Pow2(own.rcvWindShift);
    var q := w / d;
    QuotientBounds(w, d);
    QuotientIsNatural(w, d);
    assert (q + 1) * d == q * d + d;
    if q > 0 {
      Pow2Grows(own.rcvWindShift, peer.sndWindShift);
      ProductMonotone(q, d, Pow2(peer.sndWindShift));
    }
  }

  // The windows of a buffer

  /**
   With one shift at both ends the peer never believes in more window than
   there is, and it misses less than one unit of the scale exactly when the
   scaled window fits the field.
   */
  lemma WindowRoundTrip(w: nat, shift: nat, maxWinSize: nat)
    ensures var r := Reconstructed(Advertised(w, shift, maxWinSize), shift);
            r <= w && (w - r < Pow2(shift) <==> w / Pow2(shift) <= maxWinSize)
  {
    var d := Pow2(shift);
    var q := w / d;
    QuotientBounds(w, d);
    assert (q + 1) * d == q * d + d;
    if q > maxWinSize {
      ProductMonotone(d, maxWinSize + 1, q);
      assert (maxWinSize + 1) * d == maxWinSize * d + d;
    }
  }

  /** Every window up to the size of the buffer arrives with a loss below one unit of the scale. */
  ghost predicate Arrives(own: Scaling, peer: Scaling, bufferSize: nat, maxWinSize: nat) {
    forall w: nat :: w <= bufferSize ==> w - Seen(w, own, peer, maxWinSize) < Pow2(own.rcvWindShift)
  }

  /** The exact condition, for any two shifts. */
  lemma ArrivesIff(own: Scaling, peer: Scaling, bufferSize: nat, maxWinSize: nat)
    ensures var unit, back := Pow2(own.rcvWindShift), Pow2(peer.sndWindShift);
            Arrives(own, peer, bufferSize, maxWinSize) <==>
              bufferSize < unit + (if back >= unit then maxWinSize * back else Min(1, maxWinSize) * back)
  {
    var unit, back := Pow2(own.rcvWindShift), Pow2(peer.sndWindShift);
    if back >= unit {
      forall w: nat | w <= bufferSize && bufferSize < unit + maxWinSize * back
        ensures w - Seen(w, own, peer, maxWinSize) < unit
      {
        LossBelowUnit(w, unit, back, maxWinSize);
      }
      if bufferSize >= unit + maxWinSize * back {
        SeenAtMostField(bufferSize, own, peer, maxWinSize);
      }
    } else {
      forall w: nat | w <= bufferSize && bufferSize < unit + Min(1, maxWinSize) * back
        ensures w - Seen(w, own, peer, maxWinSize) < unit
      {
        OneUnitSeen(w, unit, own.rcvWindShift, maxWinSize);
      }
      if bufferSize >= unit + Min(1, maxWinSize) * back {
        var w := Min(bufferSize, 2 * unit - 1);
        Pow2Grows(own.rcvWindShift, own.rcvWindShift);
        SmallerShiftLoses(own, peer, w, maxWinSize);
      }
    }
  }

  lemma LossBelowUnit(w: nat, unit: nat, back: nat, maxWinSize: nat)
    requires 1 <= unit <= back && w < unit + maxWinSize * back
    ensures w - Min(w / unit, maxWinSize) * back < unit
  {
    var q := w / unit;
    QuotientBounds(w, unit);
    QuotientIsNatural(w, unit);
    assert (q + 1) * unit == q * unit + unit;
    if q <= maxWinSize {
      ProductMonotone(q, unit, back);
    }
  }

  lemma SeenAtMostField(w: nat, own: Scaling, peer: Scaling, maxWinSize: nat)
    ensures Seen(w, own, peer, maxWinSize) <= maxWinSize * Pow2(peer.sndWindShift)
  {
    ProductMonotone(Pow2(peer.sndWindShift), Advertised(w, own.rcvWindShift, maxWinSize), maxWinSize);
  }

  /** Below two units less a byte the field is 0 or 1. */
  lemma OneUnitSeen(w: nat, unit: nat, shift: nat, maxWinSize: nat)
    requires unit == Pow2(shift)
    ensures w < unit ==> Advertised(w, shift, maxWinSize) == 0
    ensures unit <= w < 2 * unit ==> Advertised(w, shift, maxWinSize) == Min(1, maxWinSize)
  {
    if w < unit {
      QuotientIs(w, unit, 0);
    } else if w < 2 * unit {
      QuotientIs(w, unit, 1);
    }
  }

  lemma SmallerShiftLoses(own: Scaling, peer: Scaling, w: nat, maxWinSize: nat)
    requires Pow2(peer.sndWindShift) < Pow2(own.rcvWindShift)
    requires Pow2(own.rcvWindShift) + Min(1, maxWinSize) * Pow2(peer.sndWindShift) <= w < 2 * Pow2(own.rcvWindShift)
    ensures w - Seen(w, own, peer, maxWinSize) >= Pow2(own.rcvWindShift)
  {
    OneUnitSeen(w, Pow2(own.rcvWindShift), own.rcvWindShift, maxWinSize);
  }

  /**
   With the scale computed for its buffer and taken over by the other side,
   every window of the active socket arrives if and only if 14 halvings are
   enough for the buffer; where the sides agree without that, if and only if
   the shift in use is enough.
   */
  lemma BufferRoundTrip(a: Scaling, l: Scaling, bufferSize: nat, activeScale: nat, passiveScale: nat, maxWinSize: nat)
    requires IsScaleFor(activeScale, bufferSize, maxWinSize) && passiveScale <= MAX_SCALE
    ensures var (a', p, _) := Handshake(a, l, activeScale, passiveScale);
            var halvings := if a.enabled then MAX_SCALE else a.rcvWindShift;
            a'.rcvWindShift == p.sndWindShift ==>
              (Arrives(a', p, bufferSize, maxWinSize) <==> bufferSize / Pow2(halvings) <= maxWinSize)
  {
    Negotiated(a, l, activeScale, passiveScale);
    var (a', p, _) := Handshake(a, l, activeScale, passiveScale);
    if a'.rcvWindShift == p.sndWindShift {
      ShiftAntitone(bufferSize, activeScale, MAX_SCALE);
      SameShiftArrivesIff(a', p, bufferSize, maxWinSize);
    }
  }

  lemma SameShiftArrivesIff(own: Scaling, peer: Scaling, bufferSize: nat, maxWinSize: nat)
    requires own.rcvWindShift == peer.sndWindShift
    ensures Arrives(own, peer, bufferSize, maxWinSize) <==> bufferSize / Pow2(own.rcvWindShift) <= maxWinSize
  {
    var shift := own.rcvWindShift;
    WindowRoundTrip(bufferSize, shift, maxWinSize);
    assert bufferSize - Seen(bufferSize, own, peer, maxWinSize) < Pow2(shift) <==>
           bufferSize / Pow2(shift) <= maxWinSize;
    forall w: nat | w <= bufferSize && bufferSize / Pow2(shift) <= maxWinSize
      ensures w - Seen(w, own, peer, maxWinSize) < Pow2(shift)
    {
      QuotientMonotone(w, bufferSize, Pow2(shift));
      WindowRoundTrip(w, shift, maxWinSize);
    }
  }

  datatype Header = Header(ackNumber: nat, sequenceNumber: nat, windowSize: nat)

  /**
   The receive buffer as the socket sees it: free space is between the next and the
   largest acceptable sequence number.
   */
  datatype RxBuffer = RxBuffer(nextRxSequence: nat, maxRxSequence: nat, maxBufferSize: nat, gotFin: bool)

  class TcpSocketBase {
    const maxWinSize: nat
    var established: bool
    var winScalingEnabled: bool
    var rWnd: nat
    var advWnd: nat
    var rcvWindShift: nat
    var sndWindShift: nat
    var highRxAckMark: nat
    var highRxMark: nat

    ghost function TheScaling(): Scaling
      reads this`winScalingEnabled, this`rcvWindShift, this`sndWindShift
    {
      Scaling(winScalingEnabled, rcvWindShift, sndWindShift)
    }

    constructor (maxWinSize: nat, winScalingEnabled: bool)
      requires maxWinSize < 0x1_0000
      ensures this.maxWinSize == maxWinSize && !established && TheScaling() == Scaling(winScalingEnabled, 0, 0)
      ensures rWnd == advWnd == highRxAckMark == highRxMark == 0
    {
      this.winScalingEnabled := winScalingEnabled;
      this.maxWinSize := maxWinSize;
      established := false;
      rWnd, advWnd, rcvWindShift, sndWindShift, highRxAckMark, highRxMark := 0, 0, 0, 0, 0, 0;
    }

    /** The socket that a listener forks for a SYN it has processed. */
    constructor Fork(sock: TcpSocketBase)
      ensures maxWinSize == sock.maxWinSize && established == sock.established && TheScaling() == sock.TheScaling()
      ensures rWnd == sock.rWnd && highRxAckMark == sock.highRxAckMark && highRxMark == sock.highRxMark && advWnd == 0
    {
      maxWinSize, established, winScalingEnabled := sock.maxWinSize, sock.established, sock.winScalingEnabled;
      rcvWindShift, sndWindShift := sock.rcvWindShift, sock.sndWindShift;
      rWnd, advWnd, highRxAckMark, highRxMark := sock.rWnd, 0, sock.highRxAckMark, sock.highRxMark;
    }

    /** The part of a SYN that offers our scale. */
    method AddOptionWScale(rx: RxBuffer) returns (option: nat)
      modifies this`rcvWindShift
      ensures option == rcvWindShift && IsScaleFor(rcvWindShift, rx.maxBufferSize, maxWinSize)
    {
      rcvWindShift := CalculateWScale(rx.maxBufferSize, maxWinSize);
      option := rcvWindShift;
    }

    method ProcessOptionWScale(scale: nat)
      modifies this`sndWindShift
      ensures sndWindShift == AcceptedScale(scale)
    {
      sndWindShift := scale;
      if sndWindShift > MAX_SCALE {
        sndWindShift := MAX_SCALE;
      }
    }

    /** The scaling part of a SYN or SYN-ACK sent; its window field is not scaled. */
    method SendSyn(rx: RxBuffer) returns (option: Option<nat>, field: nat)
      requires !rx.gotFin ==> rx.nextRxSequence <= rx.maxRxSequence
      modifies this`rcvWindShift, this`advWnd
      ensures option.Some? ==> IsScaleFor(option.value, rx.maxBufferSize, maxWinSize)
      ensures (TheScaling(), option) == SynSent(old(TheScaling()), rcvWindShift)
      ensures advWnd == if rx.gotFin then old(advWnd) else rx.maxRxSequence - rx.nextRxSequence
      ensures field == Min(advWnd, maxWinSize)
    {
      option := None;
      if winScalingEnabled {
        var scale := AddOptionWScale(rx);
        option := Some(scale);
      }
      field := AdvertisedWindowSize(rx, false);
    }

    /** The scaling part of a SYN or SYN-ACK received. */
    method ReceiveSyn(option: Option<nat>, windowSize: nat)
      modifies this`winScalingEnabled, this`sndWindShift, this`rWnd
      ensures TheScaling() == SynReceived(old(TheScaling()), option) && rWnd == windowSize
    {
      rWnd := windowSize;
      if option.Some? && winScalingEnabled {
        ProcessOptionWScale(option.value);
      } else {
        winScalingEnabled := false;
      }
    }

    /** After a FIN the last advertised space is used again, never zero by that. */
    method AdvertisedWindowSize(rx: RxBuffer, scale: bool) returns (field: nat)
      requires !rx.gotFin ==> rx.nextRxSequence <= rx.maxRxSequence
      modifies this`advWnd
      ensures advWnd == if rx.gotFin then old(advWnd) else rx.maxRxSequence - rx.nextRxSequence
      ensures field == if scale then Advertised(advWnd, rcvWindShift, maxWinSize) else Min(advWnd, maxWinSize)
      ensures field <= maxWinSize
    {
      var w;
      if rx.gotFin {
        w := advWnd;
      } else {
        w := rx.maxRxSequence - rx.nextRxSequence;
      }
      if w != advWnd {
        advWnd := w;
      }
      if scale {
        w := ShiftRight(w, rcvWindShift);
      }
      if w > maxWinSize {
        w := maxWinSize;
      }
      field := w;
    }

    /**
     An established connection takes a window over exactly when the segment
     acknowledges or carries something new, or widens the window at the same
     acknowledgement.
     */
    method UpdateWindowSize(header: Header)
      modifies this`rWnd, this`highRxAckMark, this`highRxMark
      ensures var w := Reconstructed(header.windowSize, sndWindShift);
              var news := header.ackNumber > old(highRxAckMark) || header.sequenceNumber > old(highRxMark);
              var wider := header.ackNumber == old(highRxAckMark) && w > old(rWnd);
              rWnd == if !established || news || wider then w else old(rWnd)
      ensures highRxAckMark == if established then Max(old(highRxAckMark), header.ackNumber) else old(highRxAckMark)
      ensures highRxMark == if established then Max(old(highRxMark), header.sequenceNumber) else old(highRxMark)
    {
      var receivedWindow := header.windowSize * Pow2(sndWindShift);
      if !established {
        rWnd := receivedWindow;
        return;
      }
      var update := false;
      if header.ackNumber == highRxAckMark && receivedWindow > rWnd {
        update := true;
      }
      if header.ackNumber > highRxAckMark {
        highRxAckMark := header.ackNumber;
        update := true;
      }
      if header.sequenceNumber > highRxMark {
        highRxMark := header.sequenceNumber;
        update := true;
      }
      if update {
        rWnd := receivedWindow;
      }
    }
  }
}
