/**
 Window growth of TCP NewReno (RFC 5681, section 3.1), in bytes.  The adder
 of congestion avoidance, a quotient of doubles cut to an integer in the
 source, is an integer quotient here.
 */
module NewReno {
  import opened Arithmetic
  import opened SocketState

  /** The bytes added by one acknowledgement in congestion avoidance. */
  function Adder(cWnd: nat, segmentSize: nat): (r: nat)
    requires cWnd >= 1
  {
    Max(1, segmentSize * segmentSize / cWnd)
  }

  function SlowStarted(cWnd: nat, segmentSize: nat, segmentsAcked: nat): nat {
    if segmentsAcked >= 1 then cWnd + segmentSize else cWnd
  }

  function Avoided(cWnd: nat, segmentSize: nat, segmentsAcked: nat): (r: nat)
    requires cWnd >= 1
    ensures r >= 1
  {
    if segmentsAcked > 0 then cWnd + Adder(cWnd, segmentSize) else cWnd
  }

  function Increased(cWnd: nat, ssThresh: nat, segmentSize: nat, segmentsAcked: nat): nat
    requires cWnd >= 1
  {
    var w := if cWnd < ssThresh then SlowStarted(cWnd, segmentSize, segmentsAcked) else cWnd;
    var left := if cWnd < ssThresh then Max(segmentsAcked - 1, 0) else segmentsAcked;
    if w >= ssThresh then Avoided(w, segmentSize, left) else w
  }

  method SlowStart(tcb: TcpSocketState, segmentsAcked: nat) returns (left: nat)
    modifies tcb`cWnd
    ensures tcb.cWnd == SlowStarted(old(tcb.cWnd), tcb.segmentSize, segmentsAcked)
    ensures left == Max(segmentsAcked - 1, 0)
  {
    if segmentsAcked >= 1 {
      tcb.cWnd := tcb.cWnd + tcb.segmentSize;
      return segmentsAcked - 1;
    }
    return 0;
  }

  method CongestionAvoidance(tcb: TcpSocketState, segmentsAcked: nat)
    requires tcb.cWnd >= 1
    modifies tcb`cWnd
    ensures tcb.cWnd == Avoided(old(tcb.cWnd), tcb.segmentSize, segmentsAcked)
  {
    if segmentsAcked > 0 {
      var adder := tcb.segmentSize * tcb.segmentSize / tcb.cWnd;
      adder := Max(1, adder);
      tcb.cWnd := tcb.cWnd + adder;
    }
  }

  method IncreaseWindow(tcb: TcpSocketState, segmentsAcked: nat)
    requires tcb.cWnd >= 1
    modifies tcb`cWnd
    ensures tcb.cWnd == Increased(old(tcb.cWnd), tcb.ssThresh, tcb.segmentSize, segmentsAcked)
  {
    var left := segmentsAcked;
    if tcb.cWnd < tcb.ssThresh {
      left := SlowStart(tcb, left);
    }
    if tcb.cWnd >= tcb.ssThresh {
      CongestionAvoidance(tcb, left);
    }
  }

  /** The window after a sequence of acknowledgements, each given by its count of acked segments. */
  function Run(cWnd: nat, ssThresh: nat, segmentSize: nat, acks: seq<nat>): (r: nat)
    requires cWnd >= 1
    ensures r >= cWnd
  {
    if acks == [] then cWnd
    else Increased(Run(cWnd, ssThresh, segmentSize, acks[..|acks| - 1]), ssThresh, segmentSize, acks[|acks| - 1])
  }

  /** k adders taken at a window of at least k segments make at most one segment. */
  lemma WindowOfAdders(cWnd: nat, S: nat, k: nat)
    requires cWnd >= 1 && k * S <= cWnd
    ensures k * Adder(cWnd, S) <= Max(S, k)
  {
    var a := S * S / cWnd;
    QuotientBounds(S * S, cWnd);
    if a >= 1 {
      ProductMonotone(a, k * S, cWnd);
      assert (k * a) * S <= S * S by { assert (k * a) * S == a * (k * S); }
      if S > 0 {
        assert (k * a) * S < (S + 1) * S;
        CancelLess(k * a, S + 1, S);
      }
    }
  }

  /** One more acknowledgement in congestion avoidance, for a window already within [low, top]. */
  lemma AvoidanceStep(w: nat, ssThresh: nat, S: nat, acked: nat, low: nat, top: nat)
    requires 1 <= low <= w <= top && w >= ssThresh && acked >= 1
    ensures w + Max(1, Adder(top, S)) <= Increased(w, ssThresh, S, acked) <= w + Adder(low, S)
  {
    QuotientAntitone(S * S, low, w);
    QuotientAntitone(S * S, w, top);
  }

  lemma {:induction false} AvoidanceBetween(cWnd: nat, ssThresh: nat, S: nat, acks: seq<nat>)
    requires cWnd >= 1 && cWnd >= ssThresh
    requires forall i :: 0 <= i < |acks| ==> acks[i] >= 1
    ensures cWnd + |acks| <= Run(cWnd, ssThresh, S, acks) <= cWnd + |acks| * Adder(cWnd, S)
  {
    if acks != [] {
      var init := acks[..|acks| - 1];
      AvoidanceBetween(cWnd, ssThresh, S, init);
      var w := Run(cWnd, ssThresh, S, init);
      AvoidanceStep(w, ssThresh, S, acks[|init|], cWnd, w);
      OneMore(|acks|, Adder(cWnd, S));
    }
  }

  lemma OneMore(n: nat, a: nat)
    requires n >= 1
    ensures n * a == (n - 1) * a + a
  {
  }

  /**
   Congestion avoidance is linear: over at most one window of
   acknowledgements the window grows by at least a byte for each of them and
   by at most one segment, or by a byte for each where that is more.
   */
  lemma LinearGrowth(cWnd: nat, ssThresh: nat, S: nat, acks: seq<nat>)
    requires cWnd >= 1 && cWnd >= ssThresh && |acks| * S <= cWnd
    requires forall i :: 0 <= i < |acks| ==> acks[i] >= 1
    ensures cWnd + |acks| <= Run(cWnd, ssThresh, S, acks) <= cWnd + Max(S, |acks|)
  {
    AvoidanceBetween(cWnd, ssThresh, S, acks);
    WindowOfAdders(cWnd, S, |acks|);
  }

  /**
   "One full-sized segment per round trip" holds of a whole window of
   acknowledgements exactly while the window is no more than a segment's
   worth of segments; beyond that the adder's floor of one byte exceeds it.
   */
  lemma OneSegmentPerWindow(cWnd: nat, ssThresh: nat, S: nat, acks: seq<nat>)
    requires S >= 1 && cWnd >= 1 && cWnd >= ssThresh && |acks| == cWnd / S
    requires forall i :: 0 <= i < |acks| ==> acks[i] >= 1
    ensures Run(cWnd, ssThresh, S, acks) <= cWnd + S <==> cWnd / S <= S
  {
    QuotientBounds(cWnd, S);
    LinearGrowth(cWnd, ssThresh, S, acks);
  }

  /** The growth over a window is not much less than a segment either: each adder is at least the last one. */
  lemma {:induction false} AvoidanceAtLeast(cWnd: nat, ssThresh: nat, S: nat, acks: seq<nat>)
    requires cWnd >= 1 && cWnd >= ssThresh && |acks| * S <= cWnd
    requires forall i :: 0 <= i < |acks| ==> acks[i] >= 1
    ensures Run(cWnd, ssThresh, S, acks) >= cWnd + |acks| * Adder(cWnd + Max(S, |acks|), S)
  {
    AvoidanceAtLeastUpTo(cWnd, ssThresh, S, acks, cWnd + Max(S, |acks|));
  }

  lemma {:induction false} AvoidanceAtLeastUpTo(cWnd: nat, ssThresh: nat, S: nat, acks: seq<nat>, top: nat)
    requires cWnd >= 1 && cWnd >= ssThresh && |acks| * S <= cWnd && cWnd + Max(S, |acks|) <= top
    requires forall i :: 0 <= i < |acks| ==> acks[i] >= 1
    ensures Run(cWnd, ssThresh, S, acks) >= cWnd + |acks| * Adder(top, S)
  {
    if acks != [] {
      var init := acks[..|acks| - 1];
      OneMore(|acks|, S);
      AvoidanceAtLeastUpTo(cWnd, ssThresh, S, init, top);
      LinearGrowth(cWnd, ssThresh, S, init);
      AvoidanceStep(Run(cWnd, ssThresh, S, init), ssThresh, S, acks[|init|], 1, top);
      OneMore(|acks|, Adder(top, S));
    }
  }

  /**
   In congestion avoidance an acknowledgement adds a segment's share of the
   window, cut to whole bytes, and at least one byte.
   */
  lemma AvoidanceAdds(cWnd: nat, ssThresh: nat, S: nat, segmentsAcked: nat)
    requires cWnd >= 1 && cWnd >= ssThresh
    ensures var added := Increased(cWnd, ssThresh, S, segmentsAcked) - cWnd;
            if segmentsAcked == 0 then added == 0
            else added >= 1 && added * cWnd <= Max(S * S, cWnd) && S * S < (added + 1) * cWnd
  {
    QuotientBounds(S * S, cWnd);
    QuotientIsNatural(S * S, cWnd);
  }

  /** The call that crosses the threshold adds a segment, and only the acked segments left over count for avoidance. */
  lemma CrossingAdds(cWnd: nat, ssThresh: nat, S: nat, segmentsAcked: nat)
    requires 1 <= cWnd < ssThresh <= cWnd + S && segmentsAcked >= 1
    ensures Increased(cWnd, ssThresh, S, segmentsAcked) == Increased(cWnd + S, ssThresh, S, segmentsAcked - 1)
    ensures Increased(cWnd, ssThresh, S, 1) == cWnd + S
  {
  }

  /**
   Over k acknowledgements of at most one window the window grows by about k
   shares of a segment: k * S * S bytes over the largest window, less at most
   k bytes of rounding.
   */
  lemma GrowthAtLeast(cWnd: nat, ssThresh: nat, S: nat, acks: seq<nat>)
    requires cWnd >= 1 && cWnd >= ssThresh && |acks| * S <= cWnd
    requires forall i :: 0 <= i < |acks| ==> acks[i] >= 1
    ensures var k, growth := |acks|, Run(cWnd, ssThresh, S, acks) - cWnd;
            (growth + k) * (cWnd + Max(S, k)) >= k * (S * S)
  {
    var top := cWnd + Max(S, |acks|);
    AvoidanceAtLeast(cWnd, ssThresh, S, acks);
    AdderAbove(top, S);
    SharesAdd(|acks|, Adder(top, S), top, S * S, Run(cWnd, ssThresh, S, acks) - cWnd);
  }

  lemma AdderAbove(cWnd: nat, S: nat)
    requires cWnd >= 1
    ensures S * S < (Adder(cWnd, S) + 1) * cWnd
  {
    QuotientBounds(S * S, cWnd);
    QuotientIsNatural(S * S, cWnd);
    ProductMonotone(cWnd, S * S / cWnd + 1, Adder(cWnd, S) + 1);
  }

  lemma SharesAdd(k: nat, a: nat, top: nat, x: nat, growth: nat)
    requires x < (a + 1) * top && growth >= k * a
    ensures (growth + k) * top >= k * x
  {
    ProductMonotone(k, x, (a + 1) * top);
    assert k * ((a + 1) * top) == (k * a + k) * top by {
      Regroup(top, k, a + 1);
      assert (a + 1) * top == top * (a + 1) && k * (a + 1) == k * a + k;
    }
    ProductMonotone(top, k * a + k, growth + k);
  }

  /** Below the threshold every acknowledgement adds a whole segment: a window of them doubles the window. */
  lemma {:induction false} SlowStartDoubles(cWnd: nat, ssThresh: nat, S: nat, acks: seq<nat>)
    requires cWnd >= 1 && cWnd + |acks| * S < ssThresh
    requires forall i :: 0 <= i < |acks| ==> acks[i] >= 1
    ensures Run(cWnd, ssThresh, S, acks) == cWnd + |acks| * S
    ensures |acks| * S == cWnd ==> Run(cWnd, ssThresh, S, acks) == 2 * cWnd
  {
    if acks != [] {
      var init := acks[..|acks| - 1];
      assert |acks| * S == |init| * S + S;
      SlowStartDoubles(cWnd, ssThresh, S, init);
    }
  }

  /** One call adds at most two segments, also where it crosses the threshold. */
  lemma IncreaseAtMostTwo(cWnd: nat, ssThresh: nat, S: nat, segmentsAcked: nat)
    requires cWnd >= S >= 1
    ensures cWnd <= Increased(cWnd, ssThresh, S, segmentsAcked) <= cWnd + 2 * S
  {
    AdderAtMostSegment(cWnd, S);
    AdderAtMostSegment(cWnd + S, S);
  }

  lemma AdderAtMostSegment(cWnd: nat, S: nat)
    requires cWnd >= S >= 1
    ensures Adder(cWnd, S) <= S
  {
    QuotientBounds(S * S, cWnd);
    QuotientIsNatural(S * S, cWnd);
    AtMostSegment(S * S / cWnd, cWnd, S);
  }

  lemma AtMostSegment(q: nat, cWnd: nat, S: nat)
    requires cWnd >= S >= 1 && q * cWnd <= S * S
    ensures q <= S
  {
    ProductMonotone(q, S, cWnd);
    assert (S + 1) * S == S * S + S;
    CancelLess(q, S + 1, S);
  }
}
