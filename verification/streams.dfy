/** What one multiplexed stream does, seen from the side that holds it: the
    calls the program makes on it, and the outcomes the transport reports.
    The transport itself (yamux framing, flow control) is not modelled; each
    read or write is represented only by the outcome it returns. */
module Streams {

  /** Both sides exchange exactly four bytes per probe. */
  const ProbeSize: nat := 4

  /** The probe request the client writes (main.go:104). */
  const Ping: string := "ping"

  /** The probe response the server writes (main.go:184). */
  const Pong: string := "pong"

  /** What a Read or Write call returned: a byte count and whether an error came with it. */
  datatype IoResult = IoResult(n: int, failed: bool)

  /** A call the program makes on an open stream. */
  datatype Action =
    | Write(data: string)   // Write(data), with data the bytes handed to the transport
    | Read(size: nat)       // Read into a buffer of `size` bytes
    | Close

  /** The stream is closed exactly once, by the last call made on it. */
  predicate ClosedOnceAtEnd(trace: seq<Action>)
  {
    && |trace| > 0
    && trace[|trace| - 1] == Close
    && forall i :: 0 <= i < |trace| - 1 ==> trace[i] != Close
  }
}
