/** The client's liveness probe, clientSend (main.go:97-120): open a fresh
    stream on the session, write "ping", insist that at least four bytes were
    written, read up to four bytes back. Every step's outcome is an input. */
module Probe {
  import opened Streams

  /** Why a probe failed; each case is one early return of clientSend. */
  datatype ProbeError =
    | OpenFailed            // session.Open() returned an error (main.go:99-101)
    | WriteFailed           // stream.Write returned an error (main.go:105-107)
    | ShortWrite(wrote: int) // Write reported fewer than four bytes (main.go:108-110)
    | ReadFailed            // stream.Read returned an error (main.go:114-116)

  /** The error value clientSend returns: nil (Pass) or one of the errors above. */
  datatype ProbeResult = Pass | Fail(error: ProbeError)

  /** The outcomes the transport reports to the three calls, in order. An
      outcome is only consulted if the call is reached. */
  datatype ProbeSteps = ProbeSteps(openOk: bool, write: IoResult, read: IoResult)

  /** One run of clientSend: whether a stream was opened, the calls made on
      it (the deferred Close included) and the error returned. */
  datatype ProbeRun = ProbeRun(hasStream: bool, trace: seq<Action>, result: ProbeResult)

  /** clientSend as a function of the step outcomes. */
  function ClientSend(steps: ProbeSteps): (r: ProbeRun)
    // The probe passes exactly when open, write and read all succeed and the
    // write reports the whole request; the byte count of the read is not looked at.
    ensures r.result == Pass <==>
              steps.openOk && !steps.write.failed && steps.write.n >= ProbeSize && !steps.read.failed
    // Each failing step yields its own error, and the first failing step wins.
    ensures !steps.openOk ==> r.result == Fail(OpenFailed)
    ensures steps.openOk && steps.write.failed ==> r.result == Fail(WriteFailed)
    ensures steps.openOk && !steps.write.failed && steps.write.n < ProbeSize ==>
              r.result == Fail(ShortWrite(steps.write.n))
    ensures steps.openOk && !steps.write.failed && steps.write.n >= ProbeSize && steps.read.failed ==>
              r.result == Fail(ReadFailed)
    // A stream that was opened is closed on every return path, as the last call;
    // a failed open leaves nothing to close.
    ensures r.hasStream == steps.openOk
    ensures r.hasStream ==> ClosedOnceAtEnd(r.trace)
    ensures !r.hasStream ==> r.trace == []
    // The request is written first, and the reply is read only after the whole request went out.
    ensures r.hasStream ==> r.trace[0] == Write(Ping)
    ensures Read(ProbeSize) in r.trace <==>
              steps.openOk && !steps.write.failed && steps.write.n >= ProbeSize
  {
    if !steps.openOk then
      ProbeRun(false, [], Fail(OpenFailed))
    else if steps.write.failed then
      ProbeRun(true, [Write(Ping), Close], Fail(WriteFailed))
    else if steps.write.n < ProbeSize then
      ProbeRun(true, [Write(Ping), Close], Fail(ShortWrite(steps.write.n)))
    else if steps.read.failed then
      ProbeRun(true, [Write(Ping), Read(ProbeSize), Close], Fail(ReadFailed))
    else
      ProbeRun(true, [Write(Ping), Read(ProbeSize), Close], Pass)
  }

  /** The number of bytes the read returned never changes the verdict. */
  lemma ReadCountIgnored(steps: ProbeSteps, n: int)
    ensures ClientSend(steps.(read := steps.read.(n := n))).result == ClientSend(steps).result
  {
  }
}
