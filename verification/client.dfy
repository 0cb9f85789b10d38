/** The client's liveness and failover loop, client (main.go:57-84), with
    session creation, createSession (main.go:86-95). The loop holds one
    session to the head of the candidate list; on every timer tick it probes
    the session, and on a failed probe it closes the session, rotates the list
    once and connects to the new head. A failed connect is fatal. Cancellation
    closes the session and ends the loop.

    The outcomes of dialling and of the probe's stream calls are parameters of
    the event methods; the network, yamux and the one-second timer are not
    modelled. */
module Client {
  import opened Rotation
  import opened Streams
  import opened Probe

  datatype Option<T> = None | Some(value: T)

  /** A client-role yamux session, identified by the endpoint it was dialled to. */
  datatype Session = Session(endpoint: Endpoint)

  /** How an attempt to create a session went: net.Dial failed, yamux.Client
      returned an error, or both calls succeeded. */
  datatype DialOutcome = DialFailed | ClientSetupFailed | Dialed

  /** createSession's result: a session, or the cause of the failure, recorded
      against the endpoint whose attempt failed. */
  datatype Connect = Connected(session: Session) | ConnectFailed(endpoint: Endpoint, cause: DialOutcome)

  /** createSession: always dials the head of the candidate list. */
  function CreateSession(addrs: seq<Endpoint>, dial: DialOutcome): (r: Connect)
    requires |addrs| > 0
    ensures r.Connected? <==> dial == Dialed
    ensures r.Connected? ==> r.session.endpoint == addrs[0]
    ensures r.ConnectFailed? ==> r.endpoint == addrs[0] && r.cause == dial
  {
    match dial
    case DialFailed => ConnectFailed(addrs[0], DialFailed)
    case ClientSetupFailed => ConnectFailed(addrs[0], ClientSetupFailed)
    case Dialed => Connected(Session(addrs[0]))
  }

  /** Running: the loop is waiting for its next event. Cancelled: the loop
      returned after cancellation. Aborted: log.Fatal ended the process. */
  datatype Status = Running | Cancelled | Aborted

  /** What the loop does to the network, in order. */
  datatype Event =
    | Opened(endpoint: Endpoint)                      // a session was created
    | DialError(endpoint: Endpoint)                   // createSession returned an error
    | Probed(endpoint: Endpoint, result: ProbeResult) // clientSend ran on the session
    | Closed(endpoint: Endpoint)                      // session.Close()

  function SessionDelta(e: Event): int
  {
    match e
    case Opened(_) => 1
    case Closed(_) => -1
    case _ => 0
  }

  /** Sessions opened and not yet closed after the events of `log`. */
  function LiveSessions(log: seq<Event>): int
  {
    if log == [] then 0 else LiveSessions(log[..|log| - 1]) + SessionDelta(log[|log| - 1])
  }

  /** No prefix of the log ever has two sessions live, or closes one that is not open. */
  ghost predicate SingleOwner(log: seq<Event>)
  {
    log == [] || (SingleOwner(log[..|log| - 1]) && 0 <= LiveSessions(log) <= 1)
  }

  /** Appending an event keeps the single-owner discipline as long as the new total is 0 or 1. */
  lemma SingleOwnerAppend(log: seq<Event>, e: Event)
    requires SingleOwner(log)
    requires 0 <= LiveSessions(log) + SessionDelta(e) <= 1
    ensures SingleOwner(log + [e])
    ensures LiveSessions(log + [e]) == LiveSessions(log) + SessionDelta(e)
  {
    assert (log + [e])[..|log|] == log;
  }

  /** SingleOwner speaks of every prefix of the log: in none of them are two sessions live. */
  lemma {:induction false} SingleOwnerPrefixes(log: seq<Event>, n: nat)
    requires SingleOwner(log) && n <= |log|
    ensures 0 <= LiveSessions(log[..n]) <= 1
    decreases |log|
  {
    if n < |log| {
      SingleOwnerPrefixes(log[..|log| - 1], n);
      assert log[..|log| - 1][..n] == log[..n];
    } else if n > 0 {
      assert log[..n] == log;
    }
  }

  class FailoverClient {
    /** The candidate list; its head is the endpoint the session is (or was last) dialled to. */
    var addrs: seq<Endpoint>
    /** The session the loop holds, if it holds one. */
    var session: Option<Session>
    var status: Status
    /** Whether the probe timer is set to fire. */
    var armed: bool
    /** Everything done to the network so far. */
    var events: seq<Event>

    /** The list the client was started with, and how many times it has been rotated since. */
    ghost var initial: seq<Endpoint>
    ghost var rotations: nat

    /** The candidate list is the start list, rotated once per failover so far. */
    ghost predicate ListValid()
      reads this
    {
      |initial| > 0 && addrs == RotateN(initial, rotations)
    }

    ghost predicate Valid()
      reads this
    {
      && ListValid()
      // While the loop runs it holds exactly one session, to the head of the
      // list; once it has ended it holds none.
      && (status == Running <==> session.Some?)
      && (session.Some? ==> session.value.endpoint == addrs[0])
      // The log agrees: one session live while running, none afterwards, and never two.
      && SingleOwner(events)
      && LiveSessions(events) == (if session.Some? then 1 else 0)
    }

    /** Lines 58-62: connect to the head of the list; failure is fatal. The
        caller (main.go:48-51) never passes an empty list. */
    constructor (addrs0: seq<Endpoint>, dial: DialOutcome)
      requires |addrs0| > 0
      ensures Valid()
      ensures initial == addrs0 && rotations == 0 && addrs == addrs0
      ensures armed <==> status == Running
      ensures dial == Dialed ==>
                status == Running && session == Some(Session(addrs0[0])) && events == [Opened(addrs0[0])]
      ensures dial != Dialed ==>
                status == Aborted && session == None && events == [DialError(addrs0[0])]
    {
      initial, rotations := addrs0, 0;
      addrs := addrs0;
      match CreateSession(addrs0, dial)
      case Connected(s) =>
        session, status, armed := Some(s), Running, true;
        events := [Opened(s.endpoint)];
        SingleOwnerAppend([], Opened(s.endpoint));
      case ConnectFailed(a, _) =>
        session, status, armed := None, Aborted, false;
        events := [DialError(a)];
        SingleOwnerAppend([], DialError(a));
    }

    /** Lines 65-67: cancellation closes the session and ends the loop. */
    method Cancel()
      requires Valid() && status == Running
      modifies this
      ensures Valid()
      ensures status == Cancelled && session == None && !armed
      ensures events == old(events) + [Closed(old(addrs)[0])]
      ensures addrs == old(addrs) && initial == old(initial) && rotations == old(rotations)
      ensures LiveSessions(events) == 0
    {
      SingleOwnerAppend(events, Closed(session.value.endpoint));
      events := events + [Closed(session.value.endpoint)];
      session, status, armed := None, Cancelled, false;
    }

    /** Lines 68-81: the timer fired. The session is probed; on success nothing
        changes but the timer is re-armed. On failure the loop fails over
        (Reconnect); unless that was fatal, the timer is re-armed. */
    method Tick(steps: ProbeSteps, dial: DialOutcome)
      requires Valid() && status == Running && armed
      modifies this
      ensures Valid()
      ensures initial == old(initial)
      ensures armed <==> status == Running
      ensures ClientSend(steps).result == Pass ==>
                && addrs == old(addrs) && rotations == old(rotations)
                && session == old(session) && status == Running
                && events == old(events) + [Probed(old(addrs)[0], Pass)]
      ensures ClientSend(steps).result != Pass ==>
                && addrs == Rotate(old(addrs)) && rotations == old(rotations) + 1
                && (dial == Dialed ==>
                      && status == Running && session == Some(Session(addrs[0]))
                      && events == old(events) + [Probed(old(addrs)[0], ClientSend(steps).result)]
                                                + [Closed(old(addrs)[0])] + [Opened(addrs[0])])
                && (dial != Dialed ==>
                      && status == Aborted && session == None
                      && events == old(events) + [Probed(old(addrs)[0], ClientSend(steps).result)]
                                                + [Closed(old(addrs)[0])] + [DialError(addrs[0])])
    {
      armed := false;
      var run := ClientSend(steps);
      SingleOwnerAppend(events, Probed(session.value.endpoint, run.result));
      events := events + [Probed(session.value.endpoint, run.result)];
      if run.result != Pass {
        Reconnect(dial);
      }
      if status == Running {
        armed := true;
      }
    }

    /** Lines 71-79: close the session first, then rotate the list once and
        dial the new head; if that dial fails the client gives up (log.Fatal). */
    method Reconnect(dial: DialOutcome)
      requires Valid() && status == Running
      modifies this`session, this`addrs, this`rotations, this`events, this`status
      ensures Valid()
      ensures addrs == Rotate(old(addrs)) && rotations == old(rotations) + 1
      ensures dial == Dialed ==>
                && status == Running && session == Some(Session(addrs[0]))
                && events == old(events) + [Closed(old(addrs)[0])] + [Opened(addrs[0])]
      ensures dial != Dialed ==>
                && status == Aborted && session == None
                && events == old(events) + [Closed(old(addrs)[0])] + [DialError(addrs[0])]
    {
      SingleOwnerAppend(events, Closed(session.value.endpoint));
      events := events + [Closed(session.value.endpoint)];
      session := None;
      RotateCandidates();
      var attempt := CreateSession(addrs, dial);
      if attempt.Connected? {
        SingleOwnerAppend(events, Opened(attempt.session.endpoint));
        events := events + [Opened(attempt.session.endpoint)];
        session := Some(attempt.session);
      } else {
        SingleOwnerAppend(events, DialError(attempt.endpoint));
        events := events + [DialError(attempt.endpoint)];
        status := Aborted;
      }
    }

    /** Lines 73-75: the head endpoint is taken off and appended to the tail. */
    method RotateCandidates()
      requires ListValid()
      modifies this`addrs, this`rotations
      ensures ListValid()
      ensures addrs == Rotate(old(addrs)) && rotations == old(rotations) + 1
    {
      var badAddr := addrs[0];
      addrs := addrs[1..];
      addrs := addrs + [badAddr];
      rotations := rotations + 1;
    }

    /** The session the loop holds is always to the endpoint at position
        rotations mod N of the list it started with. */
    method Target() returns (endpoint: Endpoint)
      requires Valid() && status == Running
      ensures endpoint == addrs[0]
      ensures endpoint == initial[rotations % |initial|]
      ensures endpoint in initial
    {
      endpoint := session.value.endpoint;
      HeadAfter(initial, rotations);
    }
  }

  /** However many failovers have happened, the candidate list holds exactly
      the endpoints the client was started with: none is ever dropped. */
  lemma EndpointsKept(client: FailoverClient)
    requires client.Valid()
    ensures multiset(client.addrs) == multiset(client.initial)
    ensures |client.addrs| == |client.initial|
  {
    RotateNKeepsEndpoints(client.initial, client.rotations);
  }

  /** The failure scenario of a three-endpoint list [a, b, c] where a answers
      at first and then dies, and b is down: the client connects to a, probes
      it successfully, then fails over to b, whose dial failure is fatal. */
  method DeadSecondScenario(a: Endpoint, b: Endpoint, c: Endpoint)
    returns (status: Status, addrs: seq<Endpoint>, events: seq<Event>)
    ensures status == Aborted && addrs == [b, c, a]
    ensures events == [Opened(a), Probed(a, Pass), Probed(a, Fail(ReadFailed)), Closed(a), DialError(b)]
  {
    var client := new FailoverClient([a, b, c], Dialed);
    client.Tick(ProbeSteps(true, IoResult(4, false), IoResult(4, false)), Dialed);
    client.Tick(ProbeSteps(true, IoResult(4, false), IoResult(0, true)), DialFailed);
    status, addrs, events := client.status, client.addrs, client.events;
  }

  /** Failover liveness for [a, b]: a's probe fails, b is up. One failed
      probe (here a short write) moves the session to b, and probing b succeeds. */
  method FailoverScenario(a: Endpoint, b: Endpoint)
    returns (status: Status, target: Endpoint, events: seq<Event>)
    ensures status == Running && target == b
    ensures events == [Opened(a), Probed(a, Fail(ShortWrite(2))), Closed(a), Opened(b), Probed(b, Pass)]
  {
    var client := new FailoverClient([a, b], Dialed);
    client.Tick(ProbeSteps(true, IoResult(2, false), IoResult(0, false)), Dialed);
    client.Tick(ProbeSteps(true, IoResult(4, false), IoResult(4, false)), Dialed);
    target := client.Target();
    status, events := client.status, client.events;
  }
}
