/**
 The life of a WebSocket upgrade: what each callback does to the state of one connection and to the
 handshakes that were proven to work.
 */
module Upgrade {
  import opened Common

  /** The parts of an upgrade request that matter; `hasKey`: it has a Sec-WebSocket-Key. */
  datatype Request = Request(threadId: string, upstreamUrl: string, inboundUrl: string, signature: string, hasKey: bool)

  /** What was negotiated in an upstream's answer of status 101. */
  datatype Answer = Answer(protocol: string, extensions: string)

  datatype Proof = Proof(upstreamUrl: string, inboundUrl: string, signature: string, answer: Answer)

  /** Waiting for the way out; requested; or over, with what the upstream says no longer mattering. */
  datatype Attempt = Resolving | Requested | Over

  /** How passing the upstream's answer on to the client went. */
  datatype Forward = Forwarded | HeadFailed | RestFailed

  /** `ClientVanished`: the client's socket is destroyed, but its close event is still to come. */
  datatype Event =
    | ClientVanished
    | ClientClosed
    | ClientFailed
    | HostDisconnected
    | Resolved(a: nat)
    | HandlerThrew(a: nat)
    | Upgraded(a: nat, answer: Answer, upstreamGone: bool, forward: Forward)
    | Refused(a: nat, status: nat)
    | AttemptFailed(a: nat)
    | AttemptTimedOut(a: nat)
    | TimerFired
    | UpstreamClosed(readableEnded: bool)
    | UpstreamFailed

  /**
   `local`: the proof by which the connection was accepted before an upstream was reached.
   `statuses`: the HTTP status lines that were written while the client was there.
   `piped`: the answer of the upstream that the client is connected to.
   `delays`: the delays before each new attempt.
   */
  datatype Conn = Conn(request: Request, local: Option<Proof>, settled: bool, settlements: nat, established: bool,
                       piped: Option<Answer>, clientGone: bool, statuses: seq<nat>, timer: bool,
                       attempts: seq<Attempt>, delays: seq<nat>)

  /** The proven handshakes of the threads, oldest first. */
  type Proofs = seq<(string, Proof)>

  const MAX_CACHED_THREADS := 1024
  const INITIAL_DELAY := 250
  const MAX_DELAY := 5000

  function Pow2(n: nat): nat {
    if n == 0 then 1 else 2 * Pow2(n - 1)
  }

  /** The delay after the n-th attempt. */
  function Backoff(n: nat): nat {
    Min(INITIAL_DELAY * Pow2(if n == 0 then 0 else Min(n - 1, 8)), MAX_DELAY)
  }

  // Proven handshakes

  function Forget(ps: Proofs, thread: string): Proofs {
    if ps == [] then []
    else
      var rest := Forget(ps[..|ps| - 1], thread);
      if ps[|ps| - 1].0 == thread then rest else rest + [ps[|ps| - 1]]
  }

  function Find(ps: Proofs, thread: string): Option<Proof> {
    if ps == [] then None
    else if ps[|ps| - 1].0 == thread then Some(ps[|ps| - 1].1)
    else Find(ps[..|ps| - 1], thread)
  }

  function Trim(ps: Proofs): Proofs {
    if |ps| > MAX_CACHED_THREADS then ps[|ps| - MAX_CACHED_THREADS..] else ps
  }

  function Remember(ps: Proofs, thread: string, p: Proof): Proofs {
    if thread == "" then ps else Trim(Forget(ps, thread) + [(thread, p)])
  }

  predicate MatchesRequest(p: Proof, r: Request) {
    p.upstreamUrl == r.upstreamUrl && p.inboundUrl == r.inboundUrl && p.signature == r.signature
  }

  function ProofOf(r: Request, answer: Answer): Proof {
    Proof(r.upstreamUrl, r.inboundUrl, r.signature, answer)
  }

  // Pieces of the callbacks

  function Settle(c: Conn): Conn {
    if c.settled then c else c.(settled := true, settlements := c.settlements + 1, timer := false)
  }

  /** A status line written to a client that is gone does not reach it. */
  function WriteStatus(c: Conn, status: nat): Conn {
    if c.clientGone then c else c.(statuses := c.statuses + [status])
  }

  function DestroyClient(c: Conn): Conn {
    c.(clientGone := true)
  }

  function EndAttempt(c: Conn, a: nat): Conn
    requires a < |c.attempts|
  {
    c.(attempts := c.attempts[a := Over])
  }

  function Schedule(c: Conn): Conn {
    if c.local.None? || c.settled || c.clientGone then c
    else c.(timer := true, delays := c.delays + [Backoff(|c.attempts|)])
  }

  function StartAttempt(c: Conn): Conn {
    c.(attempts := c.attempts + [Resolving])
  }

  /** An attempt failed in a way that may pass. */
  function FailTransient(c: Conn, a: nat, status: nat): Conn
    requires a < |c.attempts|
  {
    if c.attempts[a] == Over || c.established || c.settled then c
    else if c.local.Some? then Schedule(EndAttempt(c, a))
    else WriteStatus(Settle(EndAttempt(c, a)), status)
  }

  /** Statuses that say that this path has no WebSockets become 426, which makes the client use HTTP. */
  predicate FallsBack(status: nat) {
    status < 500 && status != 401 && status != 429
  }

  /** The upstream's answer is passed on, and the two sides are connected. */
  function Establish(c: Conn, answer: Answer, forward: Forward): Conn {
    var c1 := c.(established := true);
    var c2 := if c1.local.Some? || forward.HeadFailed? then c1 else WriteStatus(c1, 101);
    if forward.Forwarded? then c2.(piped := Some(answer)) else DestroyClient(Settle(c2))
  }

  /** A real answer of status 101, once its attempt is over. */
  function Accept(retry: bool, ps: Proofs, c: Conn, answer: Answer, upstreamGone: bool, forward: Forward)
    : (Proofs, Conn)
  {
    if c.settled || c.clientGone || upstreamGone then (ps, DestroyClient(Settle(c)))
    else if c.local.Some? && c.local.value.answer != answer then
      (Forget(ps, c.request.threadId), DestroyClient(Settle(c)))
    else
      (if retry then Remember(ps, c.request.threadId, ProofOf(c.request, answer)) else ps,
       Establish(c, answer, forward))
  }

  function OnUpgraded(retry: bool, ps: Proofs, c: Conn, a: nat, answer: Answer, upstreamGone: bool, forward: Forward)
    : (Proofs, Conn)
    requires a < |c.attempts|
  {
    if c.attempts[a] == Over then (ps, c)
    else Accept(retry, ps, EndAttempt(c, a), answer, upstreamGone, forward)
  }

  function OnRefused(ps: Proofs, c: Conn, a: nat, status: nat): (Proofs, Conn)
    requires a < |c.attempts|
  {
    if c.attempts[a] == Over then (ps, c)
    else
      var c1 := Settle(EndAttempt(c, a));
      if c1.local.Some? then (Forget(ps, c1.request.threadId), DestroyClient(c1))
      else (ps, WriteStatus(c1, if FallsBack(status) then 426 else status))
  }

  /** An event that cannot happen in a state, such as an answer to a request that was not made, changes nothing. */
  predicate Possible(c: Conn, e: Event) {
    match e
    case Resolved(a) => a < |c.attempts| && c.attempts[a] == Resolving
    case HandlerThrew(a) => a < |c.attempts| && c.attempts[a] == Resolving
    case Upgraded(a, _, _, _) => a < |c.attempts| && c.attempts[a] != Resolving
    case Refused(a, _) => a < |c.attempts| && c.attempts[a] != Resolving
    case AttemptFailed(a) => a < |c.attempts| && c.attempts[a] != Resolving
    case AttemptTimedOut(a) => a < |c.attempts| && c.attempts[a] != Resolving
    case TimerFired => c.timer
    case UpstreamClosed(_) => c.established
    case UpstreamFailed => c.established
    case _ => true
  }

  /** One callback of one connection. `retry`: reconnects may be accepted by proven handshakes. */
  function Handle(retry: bool, ps: Proofs, c: Conn, e: Event): (Proofs, Conn) {
    if !Possible(c, e) then (ps, c)
    else
      match e
      case ClientVanished => (ps, DestroyClient(c))
      case ClientClosed => (ps, Settle(DestroyClient(c)))
      case ClientFailed => (ps, Settle(DestroyClient(c)))
      case HostDisconnected => (ps, DestroyClient(Settle(c)))
      case Resolved(a) =>
        (ps, if c.settled || c.clientGone then EndAttempt(c, a) else c.(attempts := c.attempts[a := Requested]))
      case HandlerThrew(a) =>
        var c1 := EndAttempt(c, a);
        (ps, if c.established || c.settled then c1
             else if c.local.Some? then Schedule(c1)
             else WriteStatus(Settle(c1), 500))
      case Upgraded(a, answer, upstreamGone, forward) => OnUpgraded(retry, ps, c, a, answer, upstreamGone, forward)
      case Refused(a, status) => OnRefused(ps, c, a, status)
      case AttemptFailed(a) => (ps, FailTransient(c, a, 502))
      case AttemptTimedOut(a) => (ps, FailTransient(c, a, 504))
      case TimerFired => (ps, StartAttempt(c.(timer := false)))
      case UpstreamClosed(readableEnded) => (ps, if readableEnded then Settle(c) else DestroyClient(Settle(c)))
      case UpstreamFailed => (ps, DestroyClient(Settle(c)))
  }

  /** A new upgrade request. `writeFails`: the local answer could not be written. */
  function Open(retry: bool, ps: Proofs, r: Request, writeFails: bool): Conn {
    var proof := if retry && r.threadId != "" then Find(ps, r.threadId) else None;
    var local := if proof.Some? && MatchesRequest(proof.value, r) && r.hasKey then proof else None;
    var c := Conn(r, local, false, 0, false, None, false, [], false, [], []);
    if local.Some? && writeFails then DestroyClient(Settle(c))
    else StartAttempt(if local.Some? then WriteStatus(c, 101) else c)
  }
}
