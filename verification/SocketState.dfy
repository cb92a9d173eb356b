/** The part of a socket's state that congestion control reads and writes. */
module SocketState {

  datatype CongState = Open | Disorder | Cwr | Recovery | Loss

  /** Windows and byte counts in bytes, rates in bits per second, times in ticks. */
  class TcpSocketState {
    const segmentSize: nat
    const initialCWnd: nat
    const initialSsThresh: nat
    const maxPacingRate: nat
    var cWnd: nat
    var ssThresh: nat
    var bytesInFlight: nat
    var congState: CongState
    var lastRtt: nat
    var minRtt: nat
    var lastAckedSackedBytes: nat
    var pacing: bool
    var pacingRate: nat
  }
}
