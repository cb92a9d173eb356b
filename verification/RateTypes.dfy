/** The delivery rate of a connection and a sample of it, as the rate sampler hands them to congestion control. */
module RateTypes {

  const TICKS_PER_SECOND: nat := 1_000_000_000

  /** Byte counts and times of the whole connection. */
  datatype Connection = Connection(
    delivered: nat, deliveredTime: nat, firstSentTime: nat, appLimited: nat, txItemDelivered: nat,
    rateDelivered: int, rateInterval: int, rateAppLimited: bool)

  datatype Sample = Sample(
    deliveryRate: int, isAppLimited: bool, interval: int, delivered: int, priorDelivered: nat, priorTime: nat,
    sendElapsed: int, ackElapsed: int, bytesLoss: nat, priorInFlight: nat, ackedSacked: nat)

  predicate IsValid(s: Sample) {
    s.priorTime != 0 || s.interval != 0
  }
}
