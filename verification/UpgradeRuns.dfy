/** Every interleaving of callbacks over any number of connections. */
module UpgradeRuns {
  import opened Common
  import opened Upgrade

  // One connection

  predicate AttemptsOk(c: Conn) {
    && (forall i :: 0 <= i < |c.attempts| - 1 ==> c.attempts[i] == Over)
    && (c.timer ==> c.attempts != [] && c.attempts[|c.attempts| - 1] == Over)
    && (c.established ==> !c.timer && c.attempts != [] && c.attempts[|c.attempts| - 1] == Over)
    && (c.local.None? ==> |c.attempts| == 1 && !c.timer)
  }

  predicate StatusesOk(c: Conn) {
    && |c.statuses| <= 1
    && (c.local.Some? && c.statuses != [] ==> c.statuses == [101])
    && (c.local.Some? && c.statuses == [] ==> c.settled && c.attempts == [])
    && (c.local.None? && c.statuses != [] ==> c.settled || c.established)
    && (c.settled && c.attempts != [] && c.attempts[|c.attempts| - 1] == Requested ==> c.clientGone)
  }

  predicate DelaysOk(c: Conn) {
    && |c.delays| <= |c.attempts|
    && (forall i :: 0 <= i < |c.delays| ==> c.delays[i] == Backoff(i + 1))
    && (!c.settled && !c.clientGone ==> |c.delays| == |c.attempts| - (if c.timer then 0 else 1))
    && (!c.settled && !c.timer ==> |c.delays| < |c.attempts|)
  }

  /** Something is still going on for a client that waits. */
  predicate InProgress(c: Conn) {
    c.timer || (c.attempts != [] && c.attempts[|c.attempts| - 1] != Over)
  }

  predicate ConnOk(c: Conn) {
    && c.settlements == (if c.settled then 1 else 0)
    && (c.settled ==> !c.timer)
    && (c.piped.Some? ==> c.established)
    && (c.local.Some? ==> MatchesRequest(c.local.value, c.request))
    && (c.local.Some? && c.piped.Some? ==> c.piped.value == c.local.value.answer)
    && AttemptsOk(c) && StatusesOk(c) && DelaysOk(c)
    && (!c.settled && !c.clientGone && !c.established ==> InProgress(c))
    && (c.established && !c.settled ==> c.piped.Some?)
  }

  lemma SettleKeeps(c: Conn)
    requires ConnOk(c) && c.clientGone
    ensures ConnOk(Settle(c))
  {
  }

  lemma DestroyKeeps(c: Conn)
    requires ConnOk(c)
    ensures ConnOk(DestroyClient(c))
  {
  }

  lemma CloseKeeps(c: Conn)
    requires ConnOk(c)
    ensures ConnOk(Settle(DestroyClient(c))) && DestroyClient(Settle(c)) == Settle(DestroyClient(c))
  {
    DestroyKeeps(c);
    SettleKeeps(DestroyClient(c));
  }

  lemma LastAttempt(c: Conn, a: nat)
    requires AttemptsOk(c) && a < |c.attempts| && c.attempts[a] != Over
    ensures a == |c.attempts| - 1 && !c.timer && !c.established
  {
  }

  lemma EndKeeps(c: Conn, a: nat)
    requires ConnOk(c) && a < |c.attempts| && (c.settled || c.clientGone)
    ensures ConnOk(EndAttempt(c, a))
  {
    if c.attempts[a] == Over {
      assert c.attempts[a := Over] == c.attempts;
    } else {
      LastAttempt(c, a);
    }
    hide Backoff;
  }

  lemma ResolvedKeeps(c: Conn, a: nat)
    requires ConnOk(c) && a < |c.attempts| && c.attempts[a] == Resolving && !c.settled && !c.clientGone
    ensures ConnOk(c.(attempts := c.attempts[a := Requested]))
  {
    LastAttempt(c, a);
    hide Backoff;
  }

  /** An attempt that ends without result is followed by a timer, by a status line, or by nothing if nobody waits. */
  lemma RetryKeeps(c: Conn, a: nat, status: nat)
    requires ConnOk(c) && a < |c.attempts| && c.attempts[a] != Over && !c.settled && !c.established
    ensures ConnOk(if c.local.Some? then Schedule(EndAttempt(c, a)) else WriteStatus(Settle(EndAttempt(c, a)), status))
  {
    LastAttempt(c, a);
    hide Backoff;
  }

  lemma StartKeeps(c: Conn)
    requires ConnOk(c) && c.timer
    ensures ConnOk(StartAttempt(c.(timer := false)))
  {
    hide Backoff;
  }

  lemma UpgradedKeeps(retry: bool, ps: Proofs, c: Conn, a: nat, answer: Answer, upstreamGone: bool, forward: Forward)
    requires ConnOk(c) && a < |c.attempts|
    ensures ConnOk(OnUpgraded(retry, ps, c, a, answer, upstreamGone, forward).1)
  {
    hide Accept, Backoff;
    if c.attempts[a] != Over {
      LastAttempt(c, a);
      AnswerKeeps(retry, ps, c, a, answer, upstreamGone, forward);
    }
  }

  lemma AnswerKeeps(retry: bool, ps: Proofs, c: Conn, a: nat, answer: Answer, upstreamGone: bool, forward: Forward)
    requires ConnOk(c) && a == |c.attempts| - 1 && !c.timer && !c.established
    ensures ConnOk(Accept(retry, ps, EndAttempt(c, a), answer, upstreamGone, forward).1)
  {
    hide Backoff, Forget, Remember, ConnOk, Establish, Settle, DestroyClient, EndAttempt;
    var c1 := EndAttempt(c, a);
    GivenUpKeeps(c, a);
    if !c.settled && !c.clientGone && (c.local.Some? ==> c.local.value.answer == answer) {
      EstablishKeeps(c, a, answer, forward);
    }
    EndChangesNothingElse(c, a);
  }

  lemma EndChangesNothingElse(c: Conn, a: nat)
    requires a < |c.attempts|
    ensures var c1 := EndAttempt(c, a);
            c1.settled == c.settled && c1.clientGone == c.clientGone && c1.local == c.local
  {
  }

  lemma GivenUpKeeps(c: Conn, a: nat)
    requires ConnOk(c) && a == |c.attempts| - 1 && !c.timer && !c.established
    ensures ConnOk(DestroyClient(Settle(EndAttempt(c, a))))
  {
    hide Backoff;
  }

  lemma EstablishKeeps(c: Conn, a: nat, answer: Answer, forward: Forward)
    requires ConnOk(c) && a == |c.attempts| - 1 && !c.timer && !c.established && !c.settled && !c.clientGone
    requires c.local.Some? ==> c.local.value.answer == answer
    ensures ConnOk(Establish(EndAttempt(c, a), answer, forward))
  {
    hide Backoff;
  }

  lemma RefusedKeeps(ps: Proofs, c: Conn, a: nat, status: nat)
    requires ConnOk(c) && a < |c.attempts| && c.attempts[a] != Resolving
    ensures ConnOk(OnRefused(ps, c, a, status).1)
  {
    if c.attempts[a] != Over {
      LastAttempt(c, a);
    }
    hide Backoff, Forget;
  }

  /** Nobody waits for an attempt that ends after its connection was established or settled. */
  lemma EndedKeeps(c: Conn, a: nat)
    requires ConnOk(c) && a < |c.attempts| && c.attempts[a] == Resolving && (c.established || c.settled)
    ensures ConnOk(EndAttempt(c, a))
  {
    LastAttempt(c, a);
    hide ConnOk;
    EndKeeps(c, a);
  }

  lemma HandleKeeps(retry: bool, ps: Proofs, c: Conn, e: Event)
    requires ConnOk(c)
    ensures ConnOk(Handle(retry, ps, c, e).1)
  {
    hide ConnOk, OnUpgraded, OnRefused, Schedule, EndAttempt, Settle, DestroyClient, WriteStatus, StartAttempt;
    if Possible(c, e) {
      match e {
        case ClientVanished => DestroyKeeps(c);
        case ClientClosed => CloseKeeps(c);
        case ClientFailed => CloseKeeps(c);
        case HostDisconnected => CloseKeeps(c);
        case Resolved(a) => if c.settled || c.clientGone { EndKeeps(c, a); } else { ResolvedKeeps(c, a); }
        case HandlerThrew(a) =>
          if c.established || c.settled { EndedKeeps(c, a); } else { RetryKeeps(c, a, 500); }
        case Upgraded(a, answer, upstreamGone, forward) =>
          UpgradedKeeps(retry, ps, c, a, answer, upstreamGone, forward);
        case Refused(a, status) => RefusedKeeps(ps, c, a, status);
        case AttemptFailed(a) => if c.attempts[a] != Over && !c.established && !c.settled { RetryKeeps(c, a, 502); }
        case AttemptTimedOut(a) => if c.attempts[a] != Over && !c.established && !c.settled { RetryKeeps(c, a, 504); }
        case TimerFired => StartKeeps(c);
        case UpstreamClosed(_) => CloseKeeps(c); SettleEstablished(c);
        case UpstreamFailed => CloseKeeps(c);
      }
    }
  }

  lemma SettleEstablished(c: Conn)
    requires ConnOk(c) && c.established
    ensures ConnOk(Settle(c))
  {
  }

  lemma OpenOk(retry: bool, ps: Proofs, r: Request, writeFails: bool)
    ensures ConnOk(Open(retry, ps, r, writeFails))
  {
    hide Find, Backoff;
  }

  // What happens to a connection that is settled

  /** After it is settled, nothing is established, nothing is sent to the client, and it is not settled again. */
  lemma SettledIsFinal(retry: bool, ps: Proofs, c: Conn, e: Event)
    requires ConnOk(c) && c.settled
    ensures var c1 := Handle(retry, ps, c, e).1;
            && c1.settled && c1.settlements == c.settlements && c1.established == c.established && c1.piped == c.piped
            && c1.statuses == c.statuses && c1.delays == c.delays && !c1.timer
  {
    hide Forget, Remember, Backoff;
    if Possible(c, e) && (e.Upgraded? || e.Refused?) && c.attempts[e.a] != Over {
      LastAttempt(c, e.a);
    }
  }

  /**
   A connection that was accepted locally is only ever connected to an upstream that answered with the same
   negotiation.
   */
  lemma PipedAsPromised(retry: bool, ps: Proofs, c: Conn, e: Event)
    requires ConnOk(c) && Handle(retry, ps, c, e).1.piped != c.piped
    ensures e.Upgraded? && Handle(retry, ps, c, e).1.piped == Some(e.answer) && !c.settled && !c.clientGone
            && !e.upstreamGone
    ensures c.local.Some? ==> c.local.value.answer == e.answer
    ensures retry && c.request.threadId != "" ==>
              Handle(retry, ps, c, e).0 == Remember(ps, c.request.threadId, ProofOf(c.request, e.answer))
  {
    hide Forget, Remember, Backoff, ConnOk;
  }

  // Delays

  lemma Pow2Grows(m: nat, n: nat)
    requires m <= n
    ensures 1 <= Pow2(m) <= Pow2(n)
  {
    if m < n {
      Pow2Grows(m, n - 1);
    } else if m > 0 {
      Pow2Grows(m - 1, m - 1);
    }
  }

  lemma BackoffBounds(m: nat, n: nat)
    requires m <= n
    ensures INITIAL_DELAY <= Backoff(m) <= Backoff(n) <= MAX_DELAY
  {
    var e, f := if m == 0 then 0 else Min(m - 1, 8), if n == 0 then 0 else Min(n - 1, 8);
    Pow2Grows(e, f);
  }

  lemma BackoffDoubles(n: nat)
    requires n > 0
    ensures Backoff(1) == 250 && Backoff(n + 1) == Min(2 * Backoff(n), 5000)
  {
    assert Pow2(0) == 1;
    if n >= 6 {
      Pow2Grows(5, Min(n - 1, 8));
      Pow2Grows(5, Min(n, 8));
      assert Pow2(5) == 32;
    }
  }

  /** The delays between the attempts of a connection start at 250 ms and double up to 5000 ms; they never decrease. */
  lemma DelaysGrow(c: Conn, i: nat, j: nat)
    requires ConnOk(c) && i <= j < |c.delays|
    ensures INITIAL_DELAY <= c.delays[i] <= c.delays[j] <= MAX_DELAY
    ensures c.delays[0] == 250 && (i > 0 ==> c.delays[i] == Min(2 * c.delays[i - 1], 5000))
  {
    BackoffBounds(i + 1, j + 1);
    BackoffDoubles(i + 1);
    if i > 0 {
      BackoffDoubles(i);
    }
    hide Backoff;
  }

  /** The number of attempts that are not over. */
  function Outstanding(attempts: seq<Attempt>): nat {
    if attempts == [] then 0
    else Outstanding(attempts[..|attempts| - 1]) + (if attempts[|attempts| - 1] == Over then 0 else 1)
  }

  lemma {:induction false} NoneOutstanding(attempts: seq<Attempt>)
    requires forall i :: 0 <= i < |attempts| ==> attempts[i] == Over
    ensures Outstanding(attempts) == 0
    decreases |attempts|
  {
    if attempts != [] {
      NoneOutstanding(attempts[..|attempts| - 1]);
    }
  }

  /**
   At most one attempt or timer is outstanding; and exactly one as long as a client that has not been
   connected or turned away is there.
   */
  lemma OneOutstanding(c: Conn)
    requires ConnOk(c)
    ensures Outstanding(c.attempts) + (if c.timer then 1 else 0) <= 1
    ensures !c.settled && !c.clientGone && !c.established ==> Outstanding(c.attempts) + (if c.timer then 1 else 0) == 1
  {
    if c.attempts != [] {
      NoneOutstanding(c.attempts[..|c.attempts| - 1]);
    }
  }
}
