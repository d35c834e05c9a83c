/**
 The proxy with its connection objects: whatever callback runs on whichever object, the whole takes
 the step that the state machine of the server describes.
 */
module UpgradeProxy {
  import opened Upgrade
  import opened UpgradeHandler
  import opened UpgradeServer
  import UpgradeRuns

  class Proxy {
    const sockets: Sockets
    var connections: map<nat, Connection>
    /** What real upgrades negotiated so far. */
    ghost var shown: seq<(string, Proof)>

    ghost function Conns(): map<nat, Conn>
      reads this, connections.Values
    {
      map id | id in connections :: connections[id].View()
    }

    ghost function View(): Server
      reads this, connections.Values, sockets
    {
      Server(sockets.proven, Conns(), sockets.liveWebSockets, sockets.listed, shown)
    }

    /** Every connection is its own object, they share one counter, and all invariants of the server hold. */
    ghost predicate Valid()
      reads this, connections.Values, sockets
    {
      && (forall id :: id in connections ==> connections[id].id == id && connections[id].sockets == sockets)
      && ServerOk(View())
    }

    constructor (retryProven: bool)
      ensures View() == EMPTY && Valid() && sockets.retryProven == retryProven && fresh(sockets)
    {
      sockets := new Sockets(retryProven);
      connections := map[];
      shown := [];
      new;
      assert View() == EMPTY;
      EveryRunIsOk(retryProven, []);
    }

    /** An upgrade request arrives; `id` numbers it. */
    method Connect(id: nat, request: Request, writeFails: bool)
      requires Valid() && id !in connections
      modifies this, sockets
      ensures View() == Take(sockets.retryProven, old(View()), Step.Connect(id, request, writeFails)) && Valid()
      ensures connections.Keys == old(connections.Keys) + {id}
      ensures forall j :: j in old(connections) ==> connections[j] == old(connections[j])
    {
      hide ServerOk, Open, Take, Connection.View;
      ghost var s := View();
      TakeKeeps(sockets.retryProven, s, Step.Connect(id, request, writeFails));
      var connection := new Connection(id, request, sockets, writeFails);
      connections := connections[id := connection];
      ghost var c := connection.View();
      assert Conns() == s.conns[id := c];
      ConnectIs(sockets.retryProven, s, id, request, writeFails, View());
    }

    /** Something happens to the connection `id`. */
    method Callback(id: nat, e: Event)
      requires Valid() && id in connections && Possible(connections[id].View(), e)
      modifies this`shown, sockets, connections[id]
      ensures View() == Take(sockets.retryProven, old(View()), Step.Callback(id, e)) && Valid()
      ensures old(connections[id].View().settled) ==> SameEnd(old(connections[id].View()), connections[id].View())
    {
      hide ServerOk, Handle, Possible, SameEnd, Take, ProofOf, Connection.View;
      ghost var s := View();
      TakeKeeps(sockets.retryProven, s, Step.Callback(id, e));
      if s.conns[id].settled {
        TakeFinal(sockets.retryProven, s, Step.Callback(id, e), id);
      }
      connections[id].Dispatch(e);
      ghost var c := connections[id].View();
      if c.established && !s.conns[id].established && e.Upgraded? {
        shown := shown + [(s.conns[id].request.threadId, ProofOf(s.conns[id].request, e.answer))];
      }
      assert Conns() == s.conns[id := c];
      CallbackTakes(sockets.retryProven, s, id, e, View());
    }

    /** A thread's handshake is no longer relied on. */
    method ForgetThread(thread: string)
      requires Valid()
      modifies sockets
      ensures View() == Take(sockets.retryProven, old(View()), Step.ForgetThread(thread)) && Valid()
    {
      hide ServerOk;
      TakeKeeps(sockets.retryProven, View(), Step.ForgetThread(thread));
      sockets.proven := Forget(sockets.proven, thread);
    }

    /** What holds of every connection object whenever no callback is running. */
    lemma ConnectionHolds(id: nat)
      requires Valid() && id in connections
      ensures var c := connections[id];
              && c.settlements == (if c.settled then 1 else 0) && |c.statuses| <= 1
              && (id in sockets.listed <==> !c.settled)
              && (c.local.Some? && c.piped.Some? ==> c.piped.value == c.local.value.answer)
      ensures sockets.liveWebSockets == |Unsettled(Conns())|
    {
      assert ServerOk(View());
      assert UpgradeRuns.ConnOk(View().conns[id]);
      assert sockets.listed == Unsettled(Conns());
    }
  }

  /** What a new connection makes of the server, piece by piece. */
  lemma ConnectIs(retry: bool, s: Server, id: nat, r: Request, writeFails: bool, s1: Server)
    requires id !in s.conns && s1.proofs == s.proofs && s1.shown == s.shown
    requires var c := Open(retry, s.proofs, r, writeFails);
             && s1.conns == s.conns[id := c]
             && s1.live == s.live + (if c.settled then 0 else 1)
             && s1.listed == (if c.settled then s.listed + {id} - {id} else s.listed + {id})
    ensures s1 == Take(retry, s, Step.Connect(id, r, writeFails))
  {
    hide Open;
  }

  /** What a callback makes of the server, piece by piece. */
  lemma CallbackTakes(retry: bool, s: Server, id: nat, e: Event, s1: Server)
    requires id in s.conns
    requires var c := s.conns[id];
             var (ps, c1) := Handle(retry, s.proofs, c, e);
             && s1.proofs == ps && s1.conns == s.conns[id := c1]
             && s1.live == s.live - (if c1.settled && !c.settled then 1 else 0)
             && s1.listed == (if c1.settled && !c.settled then s.listed - {id} else s.listed)
             && s1.shown == (if c1.established && !c.established && e.Upgraded?
                             then s.shown + [(c.request.threadId, ProofOf(c.request, e.answer))] else s.shown)
    ensures s1 == Take(retry, s, Step.Callback(id, e))
  {
    hide Handle, ProofOf;
  }
}
