/**
 Connection set-up without an answer: the SYN part of `SendEmptyPacket`,
 called once by `Connect` and again by the timer that each call leaves behind.
 Time is counted in simulator ticks.
 */
module SynRetry {
  import opened Arithmetic

  datatype Status = SynSent | Closed

  /** A SYN on the wire; `retransmission` is how the round-trip history records it. */
  datatype Syn = Syn(at: nat, retransmission: bool)

  datatype Attempt = Attempt(synRetries: nat, cnTimeout: nat, synCount: nat, rto: nat, status: Status, sent: seq<Syn>)

  /** An `int` shifted left by at most 30 places does not overflow. */
  ghost predicate Configured(a: Attempt) {
    a.synRetries <= 31 && a.synCount <= a.synRetries
  }

  function SendSyn(a: Attempt, now: nat): (r: Attempt)
    requires a.synCount <= a.synRetries
    ensures r.synCount <= r.synRetries
  {
    if a.synCount == 0 then a.(status := Closed)
    else
      var left := a.synCount - 1;
      a.(synCount := left, rto := a.cnTimeout * Pow2(a.synRetries - a.synCount),
         sent := a.sent + [Syn(now, a.synRetries - 1 != left)])
  }

  /** All further timeouts, the next one due at `deadline`, with the time at which the connection is given up. */
  function Unanswered(a: Attempt, deadline: nat): (Attempt, nat)
    requires a.synCount <= a.synRetries
    decreases a.synCount
  {
    var next := SendSyn(a, deadline);
    if next.status == Closed || a.synCount == 0 then (next, deadline) else Unanswered(next, deadline + next.rto)
  }

  function Connect(synRetries: nat, cnTimeout: nat, now: nat): (Attempt, nat) {
    Unanswered(Attempt(synRetries, cnTimeout, synRetries, 0, SynSent, []), now)
  }

  /** The k-th SYN, counted from zero, of a connect at time `start`. */
  function Expected(k: nat, cnTimeout: nat, start: nat): Syn {
    Syn(start + cnTimeout * (Pow2(k) - 1), k > 0)
  }

  ghost predicate SentAsExpected(a: Attempt, start: nat) {
    && a.synCount <= a.synRetries
    && |a.sent| == a.synRetries - a.synCount
    && forall k :: 0 <= k < |a.sent| ==> a.sent[k] == Expected(k, a.cnTimeout, start)
  }

  lemma NextDeadline(cnTimeout: nat, k: nat)
    ensures cnTimeout * (Pow2(k + 1) - 1) == cnTimeout * (Pow2(k) - 1) + cnTimeout * Pow2(k)
  {
  }

  lemma {:induction false} UnansweredFrom(a: Attempt, start: nat, deadline: nat)
    requires SentAsExpected(a, start) && a.status == SynSent
    requires deadline == start + a.cnTimeout * (Pow2(|a.sent|) - 1)
    ensures var (r, failedAt) := Unanswered(a, deadline);
            && r.status == Closed && r.synCount == 0 && r.cnTimeout == a.cnTimeout && r.synRetries == a.synRetries
            && SentAsExpected(r, start)
            && failedAt == start + a.cnTimeout * (Pow2(a.synRetries) - 1)
    decreases a.synCount
  {
    if a.synCount > 0 {
      var next := SendSyn(a, deadline);
      var k := |a.sent|;
      assert next.rto == a.cnTimeout * Pow2(k);
      NextDeadline(a.cnTimeout, k);
      UnansweredFrom(next, start, deadline + next.rto);
    }
  }

  /**
   An unanswered connect sends exactly `synRetries` SYNs, the k-th one
   timeout * (2^k - 1) after the start, so that the waits double; it fails
   after timeout * (2^synRetries - 1) in all.
   */
  lemma UnansweredConnect(synRetries: nat, cnTimeout: nat, now: nat)
    ensures var (r, failedAt) := Connect(synRetries, cnTimeout, now);
            && r.status == Closed
            && |r.sent| == synRetries
            && (forall k :: 0 <= k < synRetries ==> r.sent[k] == Expected(k, cnTimeout, now))
            && failedAt == now + cnTimeout * (Pow2(synRetries) - 1)
  {
    UnansweredFrom(Attempt(synRetries, cnTimeout, synRetries, 0, SynSent, []), now, now);
  }

  class TcpSocketBase {
    const synRetries: nat
    const cnTimeout: nat
    var synCount: nat
    var rto: nat
    var status: Status
    ghost var sent: seq<Syn>

    ghost function View(): Attempt
      reads this
    {
      Attempt(synRetries, cnTimeout, synCount, rto, status, sent)
    }

    constructor (synRetries: nat, cnTimeout: nat)
      requires synRetries <= 31
      ensures Configured(View())
      ensures View() == Attempt(synRetries, cnTimeout, synRetries, 0, SynSent, [])
    {
      this.synRetries, this.cnTimeout, synCount, rto := synRetries, cnTimeout, synRetries, 0;
      status, sent := SynSent, [];
    }

    /** Sends one SYN, or gives up; `rescheduled` tells whether the timer was set, to expire after `rto`. */
    method SendEmptyPacket(now: nat) returns (rescheduled: bool)
      requires Configured(View())
      modifies this`synCount, this`rto, this`status, this`sent
      ensures Configured(View()) && View() == SendSyn(old(View()), now)
      ensures rescheduled == (old(synCount) > 0)
    {
      if synCount == 0 {
        status := Closed;
        return false;
      }
      var backoffCount := Pow2(synRetries - synCount);
      rto := cnTimeout * backoffCount;
      synCount := synCount - 1;
      if synRetries - 1 == synCount {
        sent := sent + [Syn(now, false)];
      } else {
        sent := sent + [Syn(now, true)];
      }
      return true;
    }
  }
}
