/** The server's per-stream handler, handleStream (main.go:175-189): read up
    to four bytes, answer "pong" unless the read failed, and always close the
    stream (the Close is deferred at main.go:177). */
module Handler {
  import opened Streams
  import Probe

  /** The outcomes the transport reports to the handler's read and write. */
  datatype HandlerSteps = HandlerSteps(read: IoResult, write: IoResult)

  /** What the handler reports (it only logs; nothing is returned to a caller). */
  datatype HandlerStatus = Served | ReadFailed | WriteFailed

  /** One run of handleStream: the calls made on the stream and the report. */
  datatype HandlerRun = HandlerRun(trace: seq<Action>, status: HandlerStatus)

  function HandleStream(steps: HandlerSteps): (r: HandlerRun)
    // The stream is closed on every exit path, and nothing is done after the close.
    ensures ClosedOnceAtEnd(r.trace)
    // The request is read first.
    ensures r.trace[0] == Read(ProbeSize)
    // A response is written if and only if the read succeeded, and it is exactly "pong".
    ensures Write(Pong) in r.trace <==> !steps.read.failed
    ensures forall a :: a in r.trace && a.Write? ==> a.data == Pong
    ensures !steps.read.failed ==> r.trace == [Read(ProbeSize), Write(Pong), Close]
    // The report names the first failing call, or says the stream was served.
    ensures r.status == ReadFailed <==> steps.read.failed
    ensures r.status == Served <==> !steps.read.failed && !steps.write.failed
  {
    if steps.read.failed then
      HandlerRun([Read(ProbeSize), Close], ReadFailed)
    else if steps.write.failed then
      HandlerRun([Read(ProbeSize), Write(Pong), Close], WriteFailed)
    else
      HandlerRun([Read(ProbeSize), Write(Pong), Close], Served)
  }

  /** Only whether the read failed decides what is done on the stream: byte
      counts are not looked at, and a failed write changes only the report. */
  lemma TraceDependsOnReadOnly(steps: HandlerSteps, other: HandlerSteps)
    requires steps.read.failed == other.read.failed
    ensures HandleStream(steps).trace == HandleStream(other).trace
  {
  }

  /** The two ends of one probe exchange agree on sizes: the client's request
      (main.go:104) fills exactly the handler's 4-byte read buffer (main.go:176),
      and the handler's one reply (main.go:184) fills exactly the client's
      4-byte read buffer (main.go:112). */
  lemma ExchangeSizesMatch(client: Probe.ProbeSteps, server: HandlerSteps)
    requires client.openOk && !server.read.failed
    ensures Probe.ClientSend(client).trace[0] == Write(Ping) && HandleStream(server).trace[0] == Read(|Ping|)
    ensures forall a :: a in HandleStream(server).trace && a.Write? ==> |a.data| == ProbeSize
    ensures !client.write.failed && client.write.n >= ProbeSize ==>
              Read(|Pong|) in Probe.ClientSend(client).trace
  {
  }
}
