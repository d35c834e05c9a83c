/** All connections of the proxy, the counter of live ones, and the handshakes that were proven. */
module UpgradeServer {
  import opened Common
  import opened Upgrade
  import opened UpgradeRuns

  /** `shown`: what was negotiated in every real upgrade so far, with the thread it was for. */
  datatype Server = Server(proofs: Proofs, conns: map<nat, Conn>, live: int, listed: set<nat>,
                           shown: seq<(string, Proof)>)

  const EMPTY := Server([], map[], 0, {}, [])

  datatype Step =
    | Connect(id: nat, request: Request, writeFails: bool)
    | Callback(id: nat, event: Event)
    | ForgetThread(thread: string)

  /** Settling a connection takes it off the list and the counter. */
  function Account(s: Server, id: nat, settledNow: bool): Server {
    if settledNow then s.(live := s.live - 1, listed := s.listed - {id}) else s
  }

  function Take(retry: bool, s: Server, step: Step): Server {
    match step
    case Connect(id, r, writeFails) =>
      if id in s.conns then s
      else
        var c := Open(retry, s.proofs, r, writeFails);
        Account(s.(conns := s.conns[id := c], live := s.live + 1, listed := s.listed + {id}), id, c.settled)
    case Callback(id, e) =>
      if id !in s.conns then s
      else
        var c := s.conns[id];
        var (ps, c1) := Handle(retry, s.proofs, c, e);
        var shown := if c1.established && !c.established && e.Upgraded?
                    then s.shown + [(c.request.threadId, ProofOf(c.request, e.answer))] else s.shown;
        Account(s.(proofs := ps, conns := s.conns[id := c1], shown := shown), id, c1.settled && !c.settled)
    case ForgetThread(thread) => s.(proofs := Forget(s.proofs, thread))
  }

  function Run(retry: bool, steps: seq<Step>): Server {
    if steps == [] then EMPTY else Take(retry, Run(retry, steps[..|steps| - 1]), steps[|steps| - 1])
  }

  // The cache of proven handshakes

  predicate DistinctThreads(ps: Proofs) {
    forall i, j :: 0 <= i < j < |ps| ==> ps[i].0 != ps[j].0
  }

  predicate From(ps: Proofs, shown: seq<(string, Proof)>) {
    forall p :: p in ps ==> p in shown
  }

  lemma ForgetLeaves(ps: Proofs, thread: string)
    ensures forall p :: p in Forget(ps, thread) <==> p in ps && p.0 != thread
    ensures |Forget(ps, thread)| <= |ps|
    ensures DistinctThreads(ps) ==> DistinctThreads(Forget(ps, thread))
  {
    hide Forget, DistinctThreads;
    ForgetMembers(ps, thread);
    if DistinctThreads(ps) {
      ForgetDistinct(ps, thread);
    }
  }

  lemma {:induction false} ForgetMembers(ps: Proofs, thread: string)
    ensures forall p :: p in Forget(ps, thread) <==> p in ps && p.0 != thread
    ensures |Forget(ps, thread)| <= |ps|
    decreases |ps|
  {
    if ps != [] {
      ForgetMembers(ps[..|ps| - 1], thread);
      assert ps == ps[..|ps| - 1] + [ps[|ps| - 1]];
    }
  }

  lemma {:induction false} ForgetDistinct(ps: Proofs, thread: string)
    requires DistinctThreads(ps)
    ensures DistinctThreads(Forget(ps, thread))
    decreases |ps|
  {
    if ps != [] {
      var init, last := ps[..|ps| - 1], ps[|ps| - 1];
      ForgetDistinct(init, thread);
      ForgetMembers(init, thread);
      var rest := Forget(init, thread);
      forall i | 0 <= i < |rest|
        ensures rest[i].0 != last.0
      {
        assert rest[i] in init;
        var j :| 0 <= j < |init| && init[j] == rest[i];
        assert ps[j] == rest[i];
      }
    }
  }

  lemma TrimKeeps(all: Proofs)
    requires all != [] && DistinctThreads(all)
    ensures |Trim(all)| <= MAX_CACHED_THREADS && DistinctThreads(Trim(all))
    ensures Trim(all) != [] && Trim(all)[|Trim(all)| - 1] == all[|all| - 1]
    ensures forall q :: q in Trim(all) ==> q in all
  {
    var qs := Trim(all);
    var d := |all| - |qs|;
    assert qs == all[d..];
    hide Trim;
    forall i, j | 0 <= i < j < |qs|
      ensures qs[i].0 != qs[j].0
    {
      assert qs[i] == all[d + i] && qs[j] == all[d + j];
    }
  }

  lemma RememberKeeps(ps: Proofs, thread: string, p: Proof)
    requires |ps| <= 1024 && DistinctThreads(ps)
    ensures var qs := Remember(ps, thread, p);
            && |qs| <= 1024 && DistinctThreads(qs)
            && (forall q :: q in qs ==> q in ps || q == (thread, p))
            && (thread != "" ==> Find(qs, thread) == Some(p))
  {
    if thread != "" {
      ForgetLeaves(ps, thread);
      var kept := Forget(ps, thread);
      hide Forget;
      forall i | 0 <= i < |kept|
        ensures kept[i].0 != thread
      {
        assert kept[i] in kept;
      }
      TrimKeeps(kept + [(thread, p)]);
      hide Trim;
    }
  }

  lemma {:induction false} FindMember(ps: Proofs, thread: string)
    ensures Find(ps, thread).Some? ==> (thread, Find(ps, thread).value) in ps
    decreases |ps|
  {
    if ps != [] && ps[|ps| - 1].0 != thread {
      FindMember(ps[..|ps| - 1], thread);
    } else if ps != [] {
      assert ps[|ps| - 1] == (thread, ps[|ps| - 1].1);
    }
  }

  predicate CacheOk(ps: Proofs, shown: seq<(string, Proof)>) {
    |ps| <= 1024 && DistinctThreads(ps) && From(ps, shown)
  }

  // The server

  ghost predicate ServerOk(s: Server) {
    && (forall id :: id in s.conns ==> ConnOk(s.conns[id]))
    && (forall id :: id in s.listed <==> id in s.conns && !s.conns[id].settled)
    && s.live == |s.listed|
    && CacheOk(s.proofs, s.shown)
    && (forall id :: id in s.conns && s.conns[id].local.Some? ==>
          (s.conns[id].request.threadId, s.conns[id].local.value) in s.shown)
  }

  lemma ForgetCache(ps: Proofs, shown: seq<(string, Proof)>, thread: string)
    requires CacheOk(ps, shown)
    ensures CacheOk(Forget(ps, thread), shown)
  {
    ForgetLeaves(ps, thread);
    hide Forget;
  }

  /** What a callback leaves as it is. */
  lemma HandleFrame(retry: bool, ps: Proofs, c: Conn, e: Event)
    requires ConnOk(c)
    ensures var (ps1, c1) := Handle(retry, ps, c, e);
            && c1.request == c.request && c1.local == c.local && (c.settled ==> c1.settled)
            && (c1.established && !c.established ==> e.Upgraded? && !c.settled)
  {
    hide Backoff, ConnOk, OnUpgraded, OnRefused;
    if Possible(c, e) {
      if e.Upgraded? {
        UpgradedFrame(retry, ps, c, e.a, e.answer, e.upstreamGone, e.forward);
      } else if e.Refused? {
        RefusedFrame(ps, c, e.a, e.status);
      }
    }
  }

  lemma UpgradedFrame(retry: bool, ps: Proofs, c: Conn, a: nat, answer: Answer, upstreamGone: bool, forward: Forward)
    requires a < |c.attempts|
    ensures var (ps1, c1) := OnUpgraded(retry, ps, c, a, answer, upstreamGone, forward);
            && c1.request == c.request && c1.local == c.local && (c.settled ==> c1.settled)
            && (c1.established && !c.established ==> !c.settled)
  {
    hide Forget, Remember, Establish;
    EstablishFrame(EndAttempt(c, a), answer, forward);
  }

  lemma EstablishFrame(c: Conn, answer: Answer, forward: Forward)
    ensures var c1 := Establish(c, answer, forward);
            c1.request == c.request && c1.local == c.local && (c.settled ==> c1.settled)
  {
  }

  lemma RefusedFrame(ps: Proofs, c: Conn, a: nat, status: nat)
    requires a < |c.attempts|
    ensures var (ps1, c1) := OnRefused(ps, c, a, status);
            && c1.request == c.request && c1.local == c.local && (c.settled ==> c1.settled)
            && c1.established == c.established
  {
    hide Forget;
  }

  /** How a callback changes the proven handshakes. */
  lemma HandleProofs(retry: bool, ps: Proofs, c: Conn, e: Event)
    ensures var (ps1, c1) := Handle(retry, ps, c, e);
            || ps1 == ps
            || ps1 == Forget(ps, c.request.threadId)
            || (e.Upgraded? && c1.established && ps1 == Remember(ps, c.request.threadId, ProofOf(c.request, e.answer)))
  {
    hide Forget, Remember, Backoff, MatchesRequest, ProofOf;
  }

  lemma UpgradedOnce(retry: bool, ps: Proofs, c: Conn, e: Event)
    requires ConnOk(c) && c.established
    ensures Handle(retry, ps, c, e).0 == ps || Handle(retry, ps, c, e).0 == Forget(ps, c.request.threadId)
  {
    if Possible(c, e) && e.Upgraded? && c.attempts[e.a] != Over {
      LastAttempt(c, e.a);
    }
    hide Forget, Remember, Backoff, MatchesRequest, ProofOf;
  }

  /** A callback only adds to the proven handshakes what a real upgrade negotiated. */
  lemma HandleCache(retry: bool, ps: Proofs, shown: seq<(string, Proof)>, c: Conn, e: Event)
    requires CacheOk(ps, shown) && ConnOk(c)
    ensures var (ps1, c1) := Handle(retry, ps, c, e);
            && c1.request == c.request && c1.local == c.local && (c.settled ==> c1.settled)
            && (c1.established && !c.established ==> e.Upgraded? && !c.settled)
            && CacheOk(ps1, if c1.established && !c.established && e.Upgraded?
                            then shown + [(c.request.threadId, ProofOf(c.request, e.answer))] else shown)
  {
    HandleFrame(retry, ps, c, e);
    HandleProofs(retry, ps, c, e);
    if c.established {
      UpgradedOnce(retry, ps, c, e);
    }
    var (ps1, c1) := Handle(retry, ps, c, e);
    hide Handle, CacheOk, Forget, Remember, ProofOf, ConnOk;
    ForgetCache(ps, shown, c.request.threadId);
    if e.Upgraded? {
      var p := ProofOf(c.request, e.answer);
      RememberFrom(ps, shown, c.request.threadId, p);
      FromMore(ps, shown, (c.request.threadId, p));
      FromMore(Forget(ps, c.request.threadId), shown, (c.request.threadId, p));
    }
  }

  lemma FromMore(ps: Proofs, shown: seq<(string, Proof)>, p: (string, Proof))
    requires CacheOk(ps, shown)
    ensures CacheOk(ps, shown + [p])
  {
  }

  lemma RememberFrom(ps: Proofs, shown: seq<(string, Proof)>, thread: string, p: Proof)
    requires CacheOk(ps, shown)
    ensures CacheOk(Remember(ps, thread, p), shown + [(thread, p)])
  {
    RememberKeeps(ps, thread, p);
    hide Remember;
  }

  lemma OpenLocal(retry: bool, ps: Proofs, shown: seq<(string, Proof)>, r: Request, writeFails: bool)
    requires CacheOk(ps, shown)
    ensures var c := Open(retry, ps, r, writeFails);
            c.request == r && (c.local.Some? ==> (r.threadId, c.local.value) in shown)
  {
    FindMember(ps, r.threadId);
    hide Find;
  }

  lemma AccountOk(s: Server, id: nat, settledNow: bool)
    requires (forall j :: j in s.conns ==> ConnOk(s.conns[j])) && id in s.conns
    requires forall j :: j in s.listed <==> j in s.conns && ((j == id && settledNow) || !s.conns[j].settled)
    requires settledNow ==> s.conns[id].settled
    requires s.live == |s.listed|
    ensures var s1 := Account(s, id, settledNow);
            && (forall j :: j in s1.listed <==> j in s1.conns && !s1.conns[j].settled)
            && s1.live == |s1.listed|
            && s1.conns == s.conns && s1.proofs == s.proofs && s1.shown == s.shown
  {
    if settledNow {
      assert id in s.listed;
      assert |s.listed - {id}| == |s.listed| - 1;
    }
    hide ConnOk;
  }

  /** One connection is replaced by `c`, and the list and the counter are as `AccountOk` leaves them. */
  lemma PutKeeps(s: Server, s1: Server, id: nat, c: Conn)
    requires ServerOk(s) && ConnOk(c) && s1.conns == s.conns[id := c]
    requires CacheOk(s1.proofs, s1.shown) && (forall p :: p in s.shown ==> p in s1.shown)
    requires c.local.Some? ==> (c.request.threadId, c.local.value) in s1.shown
    requires (forall j :: j in s1.listed <==> j in s1.conns && !s1.conns[j].settled) && s1.live == |s1.listed|
    ensures ServerOk(s1)
  {
    hide ConnOk, CacheOk;
  }

  lemma ConnectKeeps(retry: bool, s: Server, id: nat, r: Request, writeFails: bool)
    requires ServerOk(s) && id !in s.conns
    ensures ServerOk(Take(retry, s, Connect(id, r, writeFails)))
  {
    hide Open, ConnOk, CacheOk;
    OpenOk(retry, s.proofs, r, writeFails);
    OpenLocal(retry, s.proofs, s.shown, r, writeFails);
    var c := Open(retry, s.proofs, r, writeFails);
    var s1 := s.(conns := s.conns[id := c], live := s.live + 1, listed := s.listed + {id});
    assert id !in s.listed;
    assert |s1.listed| == |s.listed| + 1;
    AccountOk(s1, id, c.settled);
    assert Take(retry, s, Connect(id, r, writeFails)) == Account(s1, id, c.settled);
    hide Account, Take;
    PutKeeps(s, Account(s1, id, c.settled), id, c);
  }

  lemma CallbackKeeps(retry: bool, s: Server, id: nat, e: Event)
    requires ServerOk(s) && id in s.conns
    ensures ServerOk(Take(retry, s, Callback(id, e)))
  {
    hide Handle, ConnOk, CacheOk;
    var c := s.conns[id];
    HandleKeeps(retry, s.proofs, c, e);
    HandleCache(retry, s.proofs, s.shown, c, e);
    var (ps, c1) := Handle(retry, s.proofs, c, e);
    var s1 := CallbackState(s, id, ps, c1, e);
    CallbackIs(retry, s, id, e);
    hide ProofOf, Take;
    AccountOk(s1, id, c1.settled && !c.settled);
    hide Account;
    PutKeeps(s, Account(s1, id, c1.settled && !c.settled), id, c1);
  }

  /** The server after a callback, before the list and the counter follow. */
  function CallbackState(s: Server, id: nat, ps: Proofs, c1: Conn, e: Event): Server
    requires id in s.conns
  {
    var c := s.conns[id];
    s.(proofs := ps, conns := s.conns[id := c1],
       shown := if c1.established && !c.established && e.Upgraded?
                then s.shown + [(c.request.threadId, ProofOf(c.request, e.answer))] else s.shown)
  }

  lemma CallbackIs(retry: bool, s: Server, id: nat, e: Event)
    requires id in s.conns
    ensures var c := s.conns[id];
            var (ps, c1) := Handle(retry, s.proofs, c, e);
            Take(retry, s, Callback(id, e)) == Account(CallbackState(s, id, ps, c1, e), id, c1.settled && !c.settled)
  {
    hide Handle, Account, ProofOf;
  }

  lemma TakeKeeps(retry: bool, s: Server, step: Step)
    requires ServerOk(s)
    ensures ServerOk(Take(retry, s, step))
  {
    match step {
      case Connect(id, r, writeFails) => if id !in s.conns { ConnectKeeps(retry, s, id, r, writeFails); }
      case Callback(id, e) => if id in s.conns { CallbackKeeps(retry, s, id, e); }
      case ForgetThread(thread) => ForgetCache(s.proofs, s.shown, thread); hide CacheOk, Forget, ConnOk;
    }
  }

  /**
   Over every run: the counter is the number of connections that are not settled; every connection is
   as it should be; a connection accepted locally relies on a real upgrade of its own thread.
   */
  lemma {:induction false} EveryRunIsOk(retry: bool, steps: seq<Step>)
    ensures ServerOk(Run(retry, steps))
    decreases |steps|
  {
    if steps != [] {
      EveryRunIsOk(retry, steps[..|steps| - 1]);
      TakeKeeps(retry, Run(retry, steps[..|steps| - 1]), steps[|steps| - 1]);
    }
  }

  function Unsettled(conns: map<nat, Conn>): set<nat> {
    set id | id in conns && !conns[id].settled
  }

  /** The counter of live connections, stated on its own. */
  lemma LiveCountsUnsettled(retry: bool, steps: seq<Step>)
    ensures Run(retry, steps).live == |Unsettled(Run(retry, steps).conns)|
  {
    EveryRunIsOk(retry, steps);
    var s := Run(retry, steps);
    assert s.listed == Unsettled(s.conns);
  }

  /** What every client of every run sees, and what goes on for it. */
  lemma EveryConnection(retry: bool, steps: seq<Step>, id: nat)
    requires id in Run(retry, steps).conns
    ensures var c := Run(retry, steps).conns[id];
            && c.settlements == (if c.settled then 1 else 0)
            && |c.statuses| <= 1
            && Outstanding(c.attempts) + (if c.timer then 1 else 0) <= 1
            && (!c.settled && !c.clientGone && !c.established ==>
                  Outstanding(c.attempts) + (if c.timer then 1 else 0) == 1)
            && (c.piped.Some? ==> c.established)
            && (c.local.Some? && c.piped.Some? ==> c.piped.value == c.local.value.answer)
            && (c.local.Some? ==> (c.request.threadId, c.local.value) in Run(retry, steps).shown)
  {
    EveryRunIsOk(retry, steps);
    OneOutstanding(Run(retry, steps).conns[id]);
  }

  /** The delays of every connection of every run. */
  lemma EveryDelay(retry: bool, steps: seq<Step>, id: nat, i: nat, j: nat)
    requires id in Run(retry, steps).conns && i <= j < |Run(retry, steps).conns[id].delays|
    ensures INITIAL_DELAY <= Run(retry, steps).conns[id].delays[i] <= Run(retry, steps).conns[id].delays[j] <= MAX_DELAY
    ensures var delays := Run(retry, steps).conns[id].delays;
            delays[0] == 250 && (i > 0 ==> delays[i] == Min(2 * delays[i - 1], 5000))
  {
    EveryRunIsOk(retry, steps);
    DelaysGrow(Run(retry, steps).conns[id], i, j);
  }

  /** As far as its client can tell, connection `d` is where connection `c` was when it was settled. */
  predicate SameEnd(c: Conn, d: Conn) {
    && d.settled && d.settlements == c.settlements && d.established == c.established && d.piped == c.piped
    && d.statuses == c.statuses && !d.timer
  }

  lemma TakeFinal(retry: bool, s: Server, step: Step, id: nat)
    requires ServerOk(s) && id in s.conns && s.conns[id].settled
    ensures id in Take(retry, s, step).conns && SameEnd(s.conns[id], Take(retry, s, step).conns[id])
  {
    hide ServerOk, SameEnd, Handle, Open, Forget;
    SameAsItself(s, id);
    if step.Callback? && step.id == id {
      HandleFinal(retry, s, id, step.event);
    }
  }

  lemma HandleFinal(retry: bool, s: Server, id: nat, e: Event)
    requires ServerOk(s) && id in s.conns && s.conns[id].settled
    ensures SameEnd(s.conns[id], Handle(retry, s.proofs, s.conns[id], e).1)
  {
    hide Handle, CacheOk;
    assert ConnOk(s.conns[id]);
    SettledIsFinal(retry, s.proofs, s.conns[id], e);
  }

  /** Once a connection is settled, no later step establishes it, sends its client anything or settles it again. */
  lemma {:induction false} SettledForGood(retry: bool, steps: seq<Step>, more: seq<Step>, id: nat)
    requires id in Run(retry, steps).conns && Run(retry, steps).conns[id].settled
    ensures id in Run(retry, steps + more).conns
            && SameEnd(Run(retry, steps).conns[id], Run(retry, steps + more).conns[id])
    decreases |more|
  {
    hide Run, ServerOk, Take, SameEnd;
    if more == [] {
      assert steps + more == steps;
      EveryRunIsOk(retry, steps);
      SameAsItself(Run(retry, steps), id);
    } else {
      var n := |more| - 1;
      SettledForGood(retry, steps, more[..n], id);
      EveryRunIsOk(retry, steps + more[..n]);
      assert steps + more == steps + more[..n] + [more[n]];
      RunSnoc(retry, steps + more[..n], more[n]);
      EndIsSettled(Run(retry, steps).conns[id], Run(retry, steps + more[..n]).conns[id]);
      TakeFinal(retry, Run(retry, steps + more[..n]), more[n], id);
      EndTrans(Run(retry, steps).conns[id], Run(retry, steps + more[..n]).conns[id],
               Run(retry, steps + more).conns[id]);
    }
  }

  lemma EndIsSettled(c: Conn, d: Conn)
    requires SameEnd(c, d)
    ensures d.settled
  {
  }

  lemma EndTrans(c: Conn, d: Conn, e: Conn)
    requires SameEnd(c, d) && SameEnd(d, e)
    ensures SameEnd(c, e)
  {
  }

  lemma SameAsItself(s: Server, id: nat)
    requires ServerOk(s) && id in s.conns && s.conns[id].settled
    ensures SameEnd(s.conns[id], s.conns[id])
  {
    assert ConnOk(s.conns[id]);
  }

  lemma RunSnoc(retry: bool, steps: seq<Step>, step: Step)
    ensures Run(retry, steps + [step]) == Take(retry, Run(retry, steps), step)
  {
    assert (steps + [step])[..|steps|] == steps;
  }
}
