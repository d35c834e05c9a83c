/**
 What the callbacks of an upgrade mean for the client and for later upgrades of its thread: when it ends,
 what the client is told, and which proven handshakes are relied on from then on.
 */
module UpgradeEffects {
  import opened Common
  import opened Upgrade
  import opened UpgradeRuns
  import opened UpgradeServer

  /** The event is about an attempt that still matters. */
  predicate Matters(c: Conn, e: Event) {
    && Possible(c, e)
    && (e.HandlerThrew? || e.Upgraded? || e.Refused? || e.AttemptFailed? || e.AttemptTimedOut?)
    && c.attempts[e.a] != Over
  }

  /** The upstream was not reached: the attempt may be repeated. */
  predicate IsTransient(e: Event) {
    e.HandlerThrew? || e.AttemptFailed? || e.AttemptTimedOut?
  }

  /** A real answer that the client can be connected by. */
  predicate IsWelcome(c: Conn, e: Event) {
    && e.Upgraded? && Matters(c, e)
    && !c.settled && !c.clientGone && !e.upstreamGone
    && (c.local.Some? ==> c.local.value.answer == e.answer)
  }

  /** A real answer that is not the one the client was promised. */
  predicate BreaksPromise(c: Conn, e: Event) {
    && e.Upgraded? && Matters(c, e)
    && !c.settled && !c.clientGone && !e.upstreamGone
    && c.local.Some? && c.local.value.answer != e.answer
  }

  // When a connection ends

  /** The events that end a connection which was not settled. */
  predicate Ends(c: Conn, e: Event) {
    match e
    case ClientClosed => true
    case ClientFailed => true
    case HostDisconnected => true
    case UpstreamClosed(_) => c.established
    case UpstreamFailed => c.established
    case Refused(_, _) => Matters(c, e)
    case Upgraded(_, _, _, forward) => Matters(c, e) && !(IsWelcome(c, e) && forward.Forwarded?)
    case HandlerThrew(_) => Matters(c, e) && c.local.None?
    case AttemptFailed(_) => Matters(c, e) && c.local.None?
    case AttemptTimedOut(_) => Matters(c, e) && c.local.None?
    case _ => false
  }

  /** A connection that waits ends with exactly these events; until then a failure that may pass is only delayed. */
  lemma EndsExactly(retry: bool, ps: Proofs, c: Conn, e: Event)
    requires ConnOk(c) && !c.settled
    ensures Handle(retry, ps, c, e).1.settled <==> Ends(c, e)
    ensures Matters(c, e) && IsTransient(e) && c.local.Some? && !c.clientGone ==> Handle(retry, ps, c, e).1.timer
    ensures e.TimerFired? && c.timer ==> Handle(retry, ps, c, e).1.attempts == c.attempts + [Resolving]
  {
    hide Forget, Remember, Backoff, MatchesRequest, ProofOf, StatusesOk, DelaysOk, InProgress;
    if Matters(c, e) {
      LastAttempt(c, e.a);
    }
  }

  /** The events that cut the client off, unless it is gone already. */
  predicate CutsOff(c: Conn, e: Event) {
    match e
    case ClientVanished => true
    case ClientClosed => true
    case ClientFailed => true
    case HostDisconnected => true
    case UpstreamClosed(readableEnded) => c.established && !readableEnded
    case UpstreamFailed => c.established
    case Refused(_, _) => Matters(c, e) && c.local.Some?
    case Upgraded(_, _, _, forward) => Matters(c, e) && !(IsWelcome(c, e) && forward.Forwarded?)
    case _ => false
  }

  /**
   How the attempts go on: one that began is requested while somebody waits; one that matters is over
   once something comes of it; and a timer starts the next.
   */
  function AttemptsAfter(c: Conn, e: Event): seq<Attempt> {
    if !Possible(c, e) then c.attempts
    else
      match e
      case Resolved(a) => c.attempts[a := if c.settled || c.clientGone then Over else Requested]
      case HandlerThrew(a) => c.attempts[a := Over]
      case Upgraded(a, _, _, _) => c.attempts[a := Over]
      case Refused(a, _) => c.attempts[a := Over]
      case AttemptFailed(a) => if c.established || c.settled then c.attempts else c.attempts[a := Over]
      case AttemptTimedOut(a) => if c.established || c.settled then c.attempts else c.attempts[a := Over]
      case TimerFired => c.attempts + [Resolving]
      case _ => c.attempts
  }

  /** What a real answer does. */
  lemma AnswerDoes(retry: bool, ps: Proofs, c: Conn, e: Event)
    requires e.Upgraded? && Possible(c, e)
    ensures var c1 := Handle(retry, ps, c, e).1;
            && (c1.clientGone <==> c.clientGone || CutsOff(c, e))
            && (c1.established <==> c.established || IsWelcome(c, e))
            && c1.piped == (if IsWelcome(c, e) && e.forward.Forwarded? then Some(e.answer) else c.piped)
            && c1.attempts == c.attempts[e.a := Over]
  {
    hide Forget, Remember, ProofOf, Establish, EndAttempt;
    EstablishDoes(EndAttempt(c, e.a), e.answer, e.forward);
    EndDoes(c, e.a);
  }

  lemma EndDoes(c: Conn, a: nat)
    requires a < |c.attempts|
    ensures EndAttempt(c, a) == c.(attempts := c.attempts[a := Over])
  {
  }

  lemma EstablishDoes(c: Conn, answer: Answer, forward: Forward)
    ensures var c1 := Establish(c, answer, forward);
            && c1.established && c1.attempts == c.attempts
            && (c1.clientGone <==> c.clientGone || !forward.Forwarded?)
            && c1.piped == (if forward.Forwarded? then Some(answer) else c.piped)
  {
  }

  /** What a refusal does. */
  lemma RefusalDoes(ps: Proofs, c: Conn, a: nat, status: nat)
    requires a < |c.attempts|
    ensures var c1 := OnRefused(ps, c, a, status).1;
            && (c1.clientGone <==> c.clientGone || (c.attempts[a] != Over && c.local.Some?))
            && c1.established == c.established && c1.piped == c.piped
            && c1.attempts == c.attempts[a := Over]
  {
    hide Forget;
  }

  /** What a failure that may pass does. */
  lemma FailureDoes(c: Conn, a: nat, status: nat)
    requires a < |c.attempts|
    ensures var c1 := FailTransient(c, a, status);
            && c1.clientGone == c.clientGone && c1.established == c.established && c1.piped == c.piped
            && c1.attempts == if c.attempts[a] == Over || c.established || c.settled then c.attempts
                              else c.attempts[a := Over]
  {
    hide Backoff;
  }

  /** What follows an event: who is cut off, who is connected, and how the attempts go on. */
  lemma EventDoes(retry: bool, ps: Proofs, c: Conn, e: Event)
    ensures var c1 := Handle(retry, ps, c, e).1;
            && (c1.clientGone <==> c.clientGone || CutsOff(c, e))
            && (c1.established <==> c.established || IsWelcome(c, e))
            && c1.piped == (if IsWelcome(c, e) && e.forward.Forwarded? then Some(e.answer) else c.piped)
            && c1.attempts == AttemptsAfter(c, e)
  {
    hide OnUpgraded, OnRefused, FailTransient, Backoff;
    if Possible(c, e) {
      match e {
        case Upgraded(_, _, _, _) => AnswerDoes(retry, ps, c, e);
        case Refused(a, status) => RefusalDoes(ps, c, a, status);
        case AttemptFailed(a) => FailureDoes(c, a, 502);
        case AttemptTimedOut(a) => FailureDoes(c, a, 504);
        case _ =>
      }
    }
  }

  /** How an upgrade begins: accepted at once, or left open until the upstream answers. */
  lemma OpensAs(retry: bool, ps: Proofs, r: Request, writeFails: bool)
    ensures var c := Open(retry, ps, r, writeFails);
            && !c.established && !c.timer && c.piped.None? && c.delays == []
            && (c.settled <==> c.local.Some? && writeFails) && (c.clientGone <==> c.settled)
            && c.attempts == (if c.settled then [] else [Resolving])
            && c.statuses == (if c.local.Some? && !writeFails then [101] else [])
  {
    hide Find, MatchesRequest;
  }

  // What the client is told

  /** Statuses that say nothing about this path: the client is to fall back to HTTP. */
  function PassedOn(status: nat): nat {
    if status >= 500 || status == 401 || status == 429 then status else 426
  }

  /** The status line that an event makes the proxy write to a client that is there and was not answered. */
  function Answer(c: Conn, e: Event): seq<nat> {
    if !Matters(c, e) || c.local.Some? || c.settled then []
    else
      match e
      case Upgraded(_, _, _, forward) => if IsWelcome(c, e) && !forward.HeadFailed? then [101] else []
      case Refused(_, status) => [PassedOn(status)]
      case HandlerThrew(_) => [500]
      case AttemptFailed(_) => [502]
      case AttemptTimedOut(_) => [504]
  }

  lemma ToldExactly(retry: bool, ps: Proofs, c: Conn, e: Event)
    requires ConnOk(c)
    ensures Handle(retry, ps, c, e).1.statuses == c.statuses + (if c.clientGone then [] else Answer(c, e))
  {
    hide Forget, Remember, Backoff, MatchesRequest, ProofOf, DelaysOk, InProgress;
    assert c.statuses + [] == c.statuses;
    if Matters(c, e) {
      LastAttempt(c, e.a);
    }
  }

  // Which handshakes are relied on

  /** The event shows that the proof of a locally accepted connection does not hold. */
  predicate Refutes(c: Conn, e: Event) {
    (e.Refused? && Matters(c, e) && c.local.Some?) || BreaksPromise(c, e)
  }

  /** What a callback does to the proven handshakes. */
  lemma ProofsExactly(retry: bool, ps: Proofs, c: Conn, e: Event)
    ensures Handle(retry, ps, c, e).0
         == if Refutes(c, e) then Forget(ps, c.request.threadId)
            else if retry && IsWelcome(c, e) then Remember(ps, c.request.threadId, ProofOf(c.request, e.answer))
            else ps
  {
    hide Forget, Remember, Backoff, MatchesRequest, ProofOf, Establish;
  }

  lemma FindSnoc(ps: Proofs, q: (string, Proof), t: string)
    ensures Find(ps + [q], t) == if q.0 == t then Some(q.1) else Find(ps, t)
  {
    assert (ps + [q])[..|ps|] == ps;
  }

  lemma {:induction false} FindForget(ps: Proofs, x: string, t: string)
    ensures Find(Forget(ps, x), t) == if t == x then None else Find(ps, t)
    decreases |ps|
  {
    if ps != [] {
      var n := |ps| - 1;
      FindForget(ps[..n], x, t);
      FindSnoc(Forget(ps[..n], x), ps[n], t);
    }
  }

  /** Trimming only takes away the oldest. */
  lemma {:induction false} FindTail(ps: Proofs, d: nat, t: string)
    requires d <= |ps| && forall i :: 0 <= i < d ==> ps[i].0 != t
    ensures Find(ps[d..], t) == Find(ps, t)
    decreases |ps|
  {
    if d < |ps| {
      var n := |ps| - 1;
      FindTail(ps[..n], d, t);
      assert ps[d..] == ps[..n][d..] + [ps[n]];
      FindSnoc(ps[..n][d..], ps[n], t);
    } else {
      assert ps[d..] == [];
      FindNone(ps, t);
    }
  }

  lemma {:induction false} FindNone(ps: Proofs, t: string)
    ensures Find(ps, t).None? <==> forall i :: 0 <= i < |ps| ==> ps[i].0 != t
    decreases |ps|
  {
    if ps != [] {
      FindNone(ps[..|ps| - 1], t);
    }
  }

  /** The thread whose proof makes room for another thread's: the oldest, and only if the cache is full. */
  predicate Evicted(ps: Proofs, x: string, t: string) {
    Find(ps, x).None? && |ps| == 1024 && ps[0].0 == t
  }

  /** A new proof replaces the thread's own, and takes the place of at most one other thread's. */
  lemma FindRemember(ps: Proofs, x: string, p: Proof, t: string)
    requires |ps| <= MAX_CACHED_THREADS && DistinctThreads(ps) && x != ""
    ensures Find(Remember(ps, x, p), t)
         == if t == x then Some(p) else if Evicted(ps, x, t) then None else Find(ps, t)
  {
    hide Forget, Find;
    var kept := Forget(ps, x);
    var all := kept + [(x, p)];
    FindForget(ps, x, t);
    FindSnoc(kept, (x, p), t);
    ForgetLeaves(ps, x);
    ForgetCount(ps, x);
    if Find(ps, x).None? {
      ForgetNothing(ps, x);
    }
    if |all| > MAX_CACHED_THREADS {
      assert all[1..] == ps[1..] + [(x, p)];
      FindSnoc(ps[1..], (x, p), t);
      if ps[0].0 == t {
        FindNone(ps[1..], t);
      } else {
        FindTail(ps, 1, t);
      }
    }
  }

  lemma {:induction false} ForgetNothing(ps: Proofs, x: string)
    requires Find(ps, x).None?
    ensures Forget(ps, x) == ps
    decreases |ps|
  {
    if ps != [] {
      ForgetNothing(ps[..|ps| - 1], x);
    }
  }

  lemma {:induction false} ForgetCount(ps: Proofs, x: string)
    ensures Find(ps, x).Some? ==> |Forget(ps, x)| < |ps|
    decreases |ps|
  {
    hide Find;
    if ps != [] {
      var n := |ps| - 1;
      assert ps == ps[..n] + [ps[n]];
      FindSnoc(ps[..n], ps[n], x);
      ForgetCount(ps[..n], x);
      ForgetLeaves(ps[..n], x);
    } else {
      FindNone(ps, x);
    }
  }

  /** The proof that a thread's next upgrade relies on, after a callback. */
  lemma ProofAfter(retry: bool, ps: Proofs, c: Conn, e: Event, t: string)
    requires |ps| <= MAX_CACHED_THREADS && DistinctThreads(ps)
    ensures var x := c.request.threadId;
            Find(Handle(retry, ps, c, e).0, t)
            == if Refutes(c, e) && t == x then None
               else if retry && IsWelcome(c, e) && x != "" then
                 if t == x then Some(ProofOf(c.request, e.answer)) else if Evicted(ps, x, t) then None else Find(ps, t)
               else Find(ps, t)
  {
    hide Handle, Forget, Find, Trim, Refutes, IsWelcome, ProofOf, Evicted, DistinctThreads;
    ProofsExactly(retry, ps, c, e);
    RefutedIsUnwelcome(c, e);
    FindForget(ps, c.request.threadId, t);
    if c.request.threadId != "" && e.Upgraded? {
      FindRemember(ps, c.request.threadId, ProofOf(c.request, e.answer), t);
    }
    WelcomeIsUpgraded(c, e);
  }

  lemma WelcomeIsUpgraded(c: Conn, e: Event)
    ensures IsWelcome(c, e) ==> e.Upgraded?
  {
  }

  lemma RefutedIsUnwelcome(c: Conn, e: Event)
    ensures !(Refutes(c, e) && IsWelcome(c, e))
  {
  }

  // Runs

  /** A step after which the thread's proof is no longer relied on. */
  predicate Revokes(s: Server, step: Step, thread: string) {
    match step
    case Callback(id, e) => id in s.conns && s.conns[id].request.threadId == thread && Refutes(s.conns[id], e)
    case ForgetThread(t) => t == thread
    case Connect(_, _, _) => false
  }

  /** A step in which a real upgrade of the thread succeeds. */
  predicate Proves(s: Server, step: Step, thread: string) {
    && step.Callback? && step.id in s.conns
    && s.conns[step.id].request.threadId == thread && IsWelcome(s.conns[step.id], step.event)
  }

  lemma TakeProofs(retry: bool, s: Server, step: Step)
    ensures Take(retry, s, step).proofs
         == match step
            case Connect(_, _, _) => s.proofs
            case Callback(id, e) => if id in s.conns then Handle(retry, s.proofs, s.conns[id], e).0 else s.proofs
            case ForgetThread(t) => Forget(s.proofs, t)
  {
    hide Handle, Open, Forget;
  }

  lemma CacheIsOk(s: Server)
    requires ServerOk(s)
    ensures |s.proofs| <= MAX_CACHED_THREADS && DistinctThreads(s.proofs)
  {
  }

  lemma RevokedStep(retry: bool, s: Server, step: Step, thread: string)
    requires ServerOk(s) && Revokes(s, step, thread)
    ensures Find(Take(retry, s, step).proofs, thread).None?
  {
    hide Take, Handle, Find, Forget, ServerOk, Refutes, IsWelcome, DistinctThreads;
    CacheIsOk(s);
    TakeProofs(retry, s, step);
    match step {
      case Callback(id, e) => ProofAfter(retry, s.proofs, s.conns[id], e, thread);
      case ForgetThread(t) => FindForget(s.proofs, t, thread);
    }
  }

  lemma UnprovenStep(retry: bool, s: Server, step: Step, thread: string)
    requires ServerOk(s) && Find(s.proofs, thread).None? && !Proves(s, step, thread)
    ensures Find(Take(retry, s, step).proofs, thread).None?
  {
    hide Take, Handle, Find, Forget, ServerOk, Refutes, IsWelcome, DistinctThreads, Evicted;
    CacheIsOk(s);
    TakeProofs(retry, s, step);
    match step {
      case Callback(id, e) => if id in s.conns { ProofAfter(retry, s.proofs, s.conns[id], e, thread); }
      case ForgetThread(t) => FindForget(s.proofs, t, thread);
      case Connect(_, _, _) =>
    }
  }

  /** No step of `more`, taken after `steps`, is a real upgrade of the thread. */
  ghost predicate NeverProves(retry: bool, steps: seq<Step>, more: seq<Step>, thread: string) {
    forall k :: 0 <= k < |more| ==> !Proves(Run(retry, steps + more[..k]), more[k], thread)
  }

  /**
   Over every run: after the upstream refused a connection that was accepted locally, or answered it
   otherwise than promised, or the thread was disconnected, nothing is known about the thread until a
   real upgrade of it succeeds.
   */
  lemma {:induction false} RevokedUntilProven(retry: bool, steps: seq<Step>, step: Step, more: seq<Step>,
                                              thread: string)
    requires Revokes(Run(retry, steps), step, thread) && NeverProves(retry, steps + [step], more, thread)
    ensures Find(Run(retry, steps + [step] + more).proofs, thread).None?
    decreases |more|
  {
    hide Run, Take, Find, Revokes, Proves, ServerOk;
    if more == [] {
      EveryRunIsOk(retry, steps);
      RevokedStep(retry, Run(retry, steps), step, thread);
      RunSnoc(retry, steps, step);
      assert steps + [step] + [] == steps + [step];
    } else {
      var n := |more| - 1;
      var before := steps + [step] + more[..n];
      NeverProvesBefore(retry, steps + [step], more, thread);
      RevokedUntilProven(retry, steps, step, more[..n], thread);
      EveryRunIsOk(retry, before);
      UnprovenStep(retry, Run(retry, before), more[n], thread);
      RunSnoc(retry, before, more[n]);
      assert steps + [step] + more == before + [more[n]];
    }
  }

  lemma NeverProvesBefore(retry: bool, steps: seq<Step>, more: seq<Step>, thread: string)
    requires more != [] && NeverProves(retry, steps, more, thread)
    ensures NeverProves(retry, steps, more[..|more| - 1], thread)
    ensures !Proves(Run(retry, steps + more[..|more| - 1]), more[|more| - 1], thread)
  {
    hide Run, Proves;
    var init := more[..|more| - 1];
    forall k | 0 <= k < |init|
      ensures !Proves(Run(retry, steps + init[..k]), init[k], thread)
    {
      assert init[..k] == more[..k] && init[k] == more[k];
    }
  }

  /** So the upgrades of the thread until then reach the upstream before they are answered. */
  lemma TransparentUntilProven(retry: bool, steps: seq<Step>, step: Step, more: seq<Step>, thread: string, id: nat,
                               r: Request, writeFails: bool)
    requires Revokes(Run(retry, steps), step, thread) && NeverProves(retry, steps + [step], more, thread)
    requires r.threadId == thread && id !in Run(retry, steps + [step] + more).conns
    ensures var s := Run(retry, steps + [step] + more + [Connect(id, r, writeFails)]);
            id in s.conns && s.conns[id].local.None? && s.conns[id].statuses == []
  {
    hide Run, Revokes, NeverProves, Find;
    RevokedUntilProven(retry, steps, step, more, thread);
    RunSnoc(retry, steps + [step] + more, Connect(id, r, writeFails));
  }

  /** The two requests are for the same place, and the client offers the same. */
  predicate SameHandshake(r: Request, q: Request) {
    r.threadId == q.threadId && r.upstreamUrl == q.upstreamUrl && r.inboundUrl == q.inboundUrl
    && r.signature == q.signature
  }

  /** A real upgrade is what later ones of the thread are accepted by, exactly if they ask for the same. */
  lemma AcceptedAfterUpgrade(retry: bool, steps: seq<Step>, step: Step, id: nat, q: Request, writeFails: bool)
    requires step.Callback? && Proves(Run(retry, steps), step, q.threadId)
    requires id !in Run(retry, steps + [step]).conns
    ensures var r := Run(retry, steps).conns[step.id].request;
            var s := Run(retry, steps + [step] + [Connect(id, q, writeFails)]);
            && id in s.conns
            && (s.conns[id].local.Some? <==> retry && q.threadId != "" && q.hasKey && SameHandshake(r, q))
            && (s.conns[id].local.Some? ==> s.conns[id].local.value.answer == step.event.answer)
  {
    hide Run, Find, ServerOk, Take, Handle, Refutes, DistinctThreads, Evicted;
    var s := Run(retry, steps);
    EveryRunIsOk(retry, steps);
    CacheIsOk(s);
    TakeProofs(retry, s, step);
    ProofAfter(retry, s.proofs, s.conns[step.id], step.event, q.threadId);
    RefutedIsUnwelcome(s.conns[step.id], step.event);
    RunSnoc(retry, steps, step);
    RunSnoc(retry, steps + [step], Connect(id, q, writeFails));
    ConnectOpens(retry, Run(retry, steps + [step]), id, q, writeFails);
  }

  lemma ConnectOpens(retry: bool, s: Server, id: nat, r: Request, writeFails: bool)
    requires id !in s.conns
    ensures var s1 := Take(retry, s, Connect(id, r, writeFails));
            && id in s1.conns
            && s1.conns[id].local
               == if retry && r.threadId != "" && Find(s.proofs, r.threadId).Some?
                     && MatchesRequest(Find(s.proofs, r.threadId).value, r) && r.hasKey
                  then Find(s.proofs, r.threadId) else None
  {
    hide Find, MatchesRequest;
  }
}
