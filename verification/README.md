# Liveness-checked yamux client with failover: a Dafny model

The program in `main.go` runs as either a client or a server. Both sides use
yamux, a protocol that carries many streams over one TCP connection. The client
takes a list of candidate server addresses. It opens a session to the first
address and sends a probe every second: it opens a stream, writes `ping` and
reads up to four bytes back. If a probe fails, the client closes the session,
moves the failed address to the end of the list and dials the new first
address. If that dial fails, the client exits. The server answers each stream
by reading four bytes and writing `pong`.

This project models the client's liveness and failover logic and the server's
per-stream handler. Every network result is an input value: a dial outcome, or
a byte count plus an error flag for each read and write. The modules are:

- `Rotation` (rotation.dfy): the candidate list and its rotate-on-failure step,
  plus the cyclic properties of repeated rotation.
- `Streams` (streams.dfy): the calls made on a stream (`Write`, `Read`,
  `Close`), the outcome of a read or write, and the two 4-byte payloads.
- `Probe` (probe.dfy): `clientSend` as a pure function. It maps the three
  step outcomes to the probe's error value and to the calls made on the stream.
- `Handler` (handler.dfy): `handleStream` as a pure function. It returns the
  calls made on the stream and what is reported.
- `Client` (client.dfy): `createSession`, and the `client` loop as the class
  `FailoverClient`. There is one method per event: the constructor for the
  first connect, `Tick` for a timer tick, and `Cancel` for cancellation.
  Each method takes the network outcomes as parameters. A log of session
  opens and closes lets the invariant `Valid()` state that two sessions are
  never live at once.

Two details of the code matter for the probe:

- The client accepts any write count of four or more: it checks only
  `wrote < 4` (main.go:108).
- The client calls `Read` once and never looks at the byte count or the
  content of the reply (main.go:112-116). So a one-byte reply, or a reply
  other than `pong`, still counts as a successful probe.

## Model

| member | source | states |
|---|---|---|
| `Rotation.Rotate` | main.go:73-75 | the old head becomes the last element, and every other endpoint moves up one place; the length is kept |
| `Rotation.RotateKeepsEndpoints` | main.go:73-75 | a rotation is a permutation of the list, so no endpoint is dropped or duplicated |
| `Rotation.RotateN` | main.go:73-75 | k rotations in a row keep the list's length |
| `Rotation.RotateNKeepsEndpoints` | main.go:73-75 | any number of rotations keeps the same multiset of endpoints |
| `Rotation.RotateNSplit` | main.go:73-75 | for k no larger than N, k rotations give `addrs[k..] + addrs[..k]` |
| `Rotation.FullCycle` | main.go:73-75 | N rotations of a list of N endpoints restore the original list |
| `Rotation.RotateNAdd` | main.go:73-75 | rotating a + b times equals rotating a times and then b more times |
| `Rotation.RotateNCycles` | main.go:73-75 | any whole number of full cycles changes nothing |
| `Rotation.RotateNMod` | main.go:73-75 | only the number of rotations modulo N matters |
| `Rotation.HeadAfter` | main.go:73-75 | the head after k rotations is `addrs[k mod N]` |
| `Rotation.RetriedAfterCycle` | main.go:73-75 | the list after k + N rotations equals the list after k rotations, so a failed endpoint comes back after one full cycle |
| `Rotation.HeadsOverCycle` | main.go:73-75 | from any starting point, the heads over N consecutive rotations are the list itself, rotated; each endpoint is the target as often as it occurs in the list |
| `Probe.ClientSend` | main.go:97-120 | the probe passes iff open succeeds, write succeeds with at least 4 bytes, and read succeeds; open, write, short-write and read failures each give their own error, and the first failure wins; a stream that was opened is closed once, as the last call, on every path; a failed open makes no calls; the reply is read only after the whole request is written |
| `Probe.ReadCountIgnored` | main.go:112-116 | the read's byte count never changes the probe's result |
| `Handler.HandleStream` | main.go:175-189 | the stream is read first and closed once, as the last call, on every path; a response is written iff the read succeeded, and it is exactly `pong`; nothing is written after a read error; the report is `ReadFailed` iff the read failed, and `Served` iff neither call failed |
| `Handler.TraceDependsOnReadOnly` | main.go:178-188 | only the read's error flag decides the calls made; byte counts and a write error change nothing on the stream |
| `Handler.ExchangeSizesMatch` | main.go:175-189 | the two ends of one exchange agree on sizes: the client's `ping` fills exactly the handler's 4-byte read buffer, the handler's only write is 4 bytes, and after a full request write the client reads into a buffer of exactly that size |
| `Client.CreateSession` | main.go:86-95 | the dial always targets the head of the list; a session is returned iff both `net.Dial` and `yamux.Client` succeed; otherwise the failed attempt and its cause are recorded against the head endpoint |
| `Client.SingleOwnerAppend` | main.go:63-83 | adding an open or close event keeps the count of live sessions between 0 and 1 in every prefix of the log |
| `Client.SingleOwnerPrefixes` | main.go:63-83 | under the single-owner invariant, no prefix of the log has two live sessions or a negative count |
| `Client.FailoverClient.constructor` | main.go:57-62 | the client connects to the head of the list; a failure is fatal (`Aborted`, no session); on success it holds one session to `addrs[0]` and the timer is armed |
| `Client.FailoverClient.Cancel` | main.go:65-67 | cancellation closes the session it holds and ends the loop, so the timer no longer drives it; the list is unchanged; afterwards no session is live |
| `Client.FailoverClient.Tick` | main.go:68-81 | on a passing probe, the list and session stay the same and the timer is re-armed; on a failing probe, the old session is closed before the new dial, the list is rotated exactly once, and the new head is dialled; a failed dial is fatal with no retry; the timer is re-armed iff the loop goes on |
| `Client.FailoverClient.Reconnect` | main.go:71-79 | the events are close (old head), then either open or dial error (new head), in that order; the list is rotated once; a failed dial aborts and leaves no session |
| `Client.FailoverClient.RotateCandidates` | main.go:73-75 | the slice update in place equals `Rotate` of the old list, and the rotation count goes up by one |
| `Client.FailoverClient.Target` | main.go:86-87 | the connected endpoint is the list's head, which is `initial[rotations mod N]` and so one of the start endpoints |
| `Client.EndpointsKept` | main.go:73-75 | after any number of failovers, the list holds exactly the start endpoints |
| `Client.DeadSecondScenario` | main.go:57-84 | with `[a, b, c]`, where `a` answers once and then fails and `b` is down, the client ends `Aborted`. The list is then `[b, c, a]` and the log is open a, probe a ok, probe a failed, close a, dial error b |
| `Client.FailoverScenario` | main.go:57-84 | with `[a, b]`, a short write on `a` moves the session to `b` (close a, then open b), and the next probe on `b` passes |

## Left out

- Argument handling in `main` and the signal goroutine (main.go:17-55) are left out. They are command-line handling, `os.Exit`, signals and sleeps. They affect the core in two ways. First, the client always gets a non-empty list (main.go:48-51), which the constructor takes as a precondition. Second, the goroutine's `cancel()` (main.go:32) is the only thing that makes the loop's `ctx.Done()` case (main.go:65) ready; `FailoverClient.Cancel` stands for that case, and the caller decides when it happens.
- `server` and `handleConn` (main.go:122-173) are left out. They are listener accepts, a goroutine per connection and per stream, and yamux server setup. `Handler.HandleStream` covers a stream that was accepted. After an accept error, `handleConn` still spawns `handleStream`, but with a nil stream (main.go:165-170). The deferred `stream.Close()` (main.go:177) then panics, which ends the server process. The model does not cover that path.
- Real I/O is not modelled: `net.Dial`, yamux `Client`/`Open`, and stream `Read`/`Write`/`Close`. Each outcome is an input value. The raw TCP connection is not tracked. This includes the one `createSession` would leave open if `yamux.Client` returned an error.
- Every stream call is assumed to return. The source sets no read deadline (main.go:113, 178). So a peer whose yamux session stays up but never replies blocks `clientSend` or `handleStream` forever. The loop then makes no failover, and cancellation waits for the blocked call; only the signal goroutine's `os.Exit` (main.go:36) ends the process. `FailoverClient.Tick` always completes, so the model does not capture this.
- Time is not modelled: the one-second timer is an event (`Tick`) plus a flag (`armed`). The `select` in the loop picks randomly when both cases are ready; here the caller picks the next event.
- The yamux keep-alive setting (main.go:91-92) is left out. It is built but never passed to `yamux.Client`.
- Logging is not modelled. `Handler.HandleStream` keeps only which error would be logged.
- Payloads are modelled as strings of ASCII characters, not byte slices.
- No content round-trip is modelled (`ping` in, `pong` back), because the client never checks the reply (main.go:113).
