/** The upgrade handler as it is: connections with fields that callbacks change, and what they share. */
module UpgradeHandler {
  import opened Common
  import opened Upgrade

  /** What the connections of a proxy share. */
  class Sockets {
    var liveWebSockets: int
    var listed: set<nat>
    var proven: Proofs
    const retryProven: bool

    constructor (retryProven: bool)
      ensures liveWebSockets == 0 && listed == {} && proven == [] && this.retryProven == retryProven
    {
      liveWebSockets, listed, proven := 0, {}, [];
      this.retryProven := retryProven;
    }
  }

  class Connection {
    const id: nat
    const request: Request
    const sockets: Sockets
    const local: Option<Proof>
    var settled: bool
    var settlements: nat
    var established: bool
    var piped: Option<Answer>
    var clientDestroyed: bool
    var statuses: seq<nat>
    var reconnectTimer: bool
    var attempts: seq<Attempt>
    var delays: seq<nat>

    ghost function View(): Conn
      reads this
    {
      Conn(request, local, settled, settlements, established, piped, clientDestroyed, statuses, reconnectTimer,
           attempts, delays)
    }

    /** The shared counter and list went along with a change from `before` to the present state. */
    twostate predicate Accounted(before: Conn)
      reads this, sockets
    {
      var settledNow := View().settled && !before.settled;
      && sockets.liveWebSockets == old(sockets.liveWebSockets) - (if settledNow then 1 else 0)
      && sockets.listed == (if settledNow then old(sockets.listed) - {id} else old(sockets.listed))
    }

    /** This callback did what the specification says, to the connection and to what is shared. */
    twostate predicate Handled(e: Event)
      reads this, sockets
    {
      && (sockets.proven, View()) == Handle(sockets.retryProven, old(sockets.proven), old(View()), e)
      && Accounted(old(View()))
    }

    /** The upgrade request arrives. */
    constructor (id: nat, request: Request, sockets: Sockets, writeFails: bool)
      modifies sockets
      ensures this.id == id && this.sockets == sockets
      ensures View() == Open(sockets.retryProven, sockets.proven, request, writeFails)
      ensures sockets.proven == old(sockets.proven)
      ensures sockets.liveWebSockets == old(sockets.liveWebSockets) + (if View().settled then 0 else 1)
      ensures sockets.listed == old(sockets.listed) + {id} - (if View().settled then {id} else {})
    {
      this.id, this.request, this.sockets := id, request, sockets;
      settled, settlements, established, piped := false, 0, false, None;
      clientDestroyed, statuses, reconnectTimer, attempts, delays := false, [], false, [], [];
      var proof := if sockets.retryProven && request.threadId != ""
                   then Find(sockets.proven, request.threadId) else None;
      local := if proof.Some? && MatchesRequest(proof.value, request) && request.hasKey then proof else None;
      new;
      sockets.liveWebSockets := sockets.liveWebSockets + 1;
      sockets.listed := sockets.listed + {id};
      if local.Some? {
        if writeFails {
          SettleNow();
          clientDestroyed := true;
          return;
        }
        Write(101);
      }
      StartUpstreamAttempt();
    }

    method SettleNow()
      modifies this, sockets
      ensures View() == Settle(old(View())) && Accounted(old(View())) && sockets.proven == old(sockets.proven)
    {
      if settled {
        return;
      }
      settled := true;
      settlements := settlements + 1;
      reconnectTimer := false;
      sockets.liveWebSockets := sockets.liveWebSockets - 1;
      sockets.listed := sockets.listed - {id};
    }

    /** Settles and destroys the client's socket. */
    method Drop()
      modifies this, sockets
      ensures View() == DestroyClient(Settle(old(View()))) && Accounted(old(View()))
      ensures sockets.proven == old(sockets.proven)
    {
      SettleNow();
      clientDestroyed := true;
    }

    method Write(status: nat)
      modifies this`statuses
      ensures View() == WriteStatus(old(View()), status)
    {
      if !clientDestroyed {
        statuses := statuses + [status];
      }
    }

    method StartUpstreamAttempt()
      modifies this`attempts
      ensures View() == StartAttempt(old(View()))
    {
      attempts := attempts + [Resolving];
    }

    method ScheduleReconnectAttempt()
      modifies this`reconnectTimer, this`delays
      ensures View() == Schedule(old(View()))
    {
      if local.None? || settled || clientDestroyed {
        return;
      }
      var upstreamAttempt := |attempts|;
      var exponent := if upstreamAttempt == 0 then 0 else Min(upstreamAttempt - 1, 8);
      var power := 1;
      for i := 0 to exponent
        invariant power == Pow2(i)
      {
        power := 2 * power;
      }
      var delay := Min(INITIAL_DELAY * power, MAX_DELAY);
      delays := delays + [delay];
      reconnectTimer := true;
    }

    method ClientClosed()
      modifies this, sockets
      ensures Handled(Event.ClientClosed)
    {
      clientDestroyed := true;
      SettleNow();
    }

    method ClientFailed()
      modifies this, sockets
      ensures Handled(Event.ClientFailed)
    {
      clientDestroyed := true;
      SettleNow();
    }

    method CloseForHostFallback()
      modifies this, sockets
      ensures Handled(HostDisconnected)
    {
      Drop();
    }

    method OutboundResolved(a: nat)
      requires Possible(View(), Resolved(a))
      modifies this
      ensures Handled(Resolved(a))
    {
      if settled || clientDestroyed {
        attempts := attempts[a := Over];
        return;
      }
      attempts := attempts[a := Requested];
    }

    method Threw(a: nat)
      requires Possible(View(), HandlerThrew(a))
      modifies this, sockets
      ensures Handled(HandlerThrew(a))
    {
      attempts := attempts[a := Over];
      if established || settled {
        return;
      }
      if local.Some? {
        ScheduleReconnectAttempt();
        return;
      }
      SettleNow();
      Write(500);
    }

    method FailTransientAttempt(a: nat, status: nat)
      requires a < |attempts|
      modifies this, sockets
      ensures View() == FailTransient(old(View()), a, status) && sockets.proven == old(sockets.proven)
      ensures Accounted(old(View()))
    {
      if attempts[a] == Over || established || settled {
        return;
      }
      attempts := attempts[a := Over];
      if local.Some? {
        ScheduleReconnectAttempt();
        return;
      }
      SettleNow();
      Write(status);
    }

    method UpstreamUpgraded(a: nat, answer: Answer, upstreamGone: bool, forward: Forward)
      requires Possible(View(), Upgraded(a, answer, upstreamGone, forward))
      modifies this, sockets
      ensures Handled(Upgraded(a, answer, upstreamGone, forward))
    {
      hide Accept;
      if attempts[a] == Over {
        return;
      }
      attempts := attempts[a := Over];
      AcceptAnswer(answer, upstreamGone, forward);
    }

    method AcceptAnswer(answer: Answer, upstreamGone: bool, forward: Forward)
      modifies this, sockets
      ensures (sockets.proven, View())
           == Accept(sockets.retryProven, old(sockets.proven), old(View()), answer, upstreamGone, forward)
      ensures Accounted(old(View()))
    {
      hide Remember, Forget, Establish, Settle, ProofOf;
      if settled || clientDestroyed || upstreamGone {
        Drop();
        return;
      }
      if local.Some? && local.value.answer != answer {
        sockets.proven := Forget(sockets.proven, request.threadId);
        Drop();
        return;
      }
      if sockets.retryProven {
        sockets.proven := Remember(sockets.proven, request.threadId, ProofOf(request, answer));
      }
      Connect(answer, forward);
    }

    method Connect(answer: Answer, forward: Forward)
      modifies this, sockets
      ensures View() == Establish(old(View()), answer, forward) && sockets.proven == old(sockets.proven)
      ensures Accounted(old(View()))
    {
      established := true;
      if local.None? && !forward.HeadFailed? {
        Write(101);
      }
      if !forward.Forwarded? {
        Drop();
        return;
      }
      piped := Some(answer);
    }

    method UpstreamRefused(a: nat, status: nat)
      requires Possible(View(), Refused(a, status))
      modifies this, sockets
      ensures Handled(Refused(a, status))
    {
      if attempts[a] == Over {
        return;
      }
      attempts := attempts[a := Over];
      SettleNow();
      if local.Some? {
        sockets.proven := Forget(sockets.proven, request.threadId);
        clientDestroyed := true;
        return;
      }
      if FallsBack(status) {
        Write(426);
        return;
      }
      Write(status);
    }

    method TimerFires()
      requires reconnectTimer
      modifies this
      ensures Handled(TimerFired)
    {
      reconnectTimer := false;
      StartUpstreamAttempt();
    }

    method UpstreamClosed(readableEnded: bool)
      requires established
      modifies this, sockets
      ensures Handled(Event.UpstreamClosed(readableEnded))
    {
      SettleNow();
      if !readableEnded {
        clientDestroyed := true;
      }
    }

    method UpstreamFailed()
      requires established
      modifies this, sockets
      ensures Handled(Event.UpstreamFailed)
    {
      Drop();
    }

    /** The client's socket is destroyed, without any callback yet. */
    method ClientVanishes()
      modifies this`clientDestroyed
      ensures Handled(ClientVanished)
    {
      clientDestroyed := true;
    }

    /** Whatever happens next to this connection. */
    method Dispatch(e: Event)
      requires Possible(View(), e)
      modifies this, sockets
      ensures Handled(e)
    {
      hide OnUpgraded, OnRefused, FailTransient, Schedule;
      match e {
        case ClientVanished => ClientVanishes();
        case ClientClosed => ClientClosed();
        case ClientFailed => ClientFailed();
        case HostDisconnected => CloseForHostFallback();
        case Resolved(a) => OutboundResolved(a);
        case HandlerThrew(a) => Threw(a);
        case Upgraded(a, answer, upstreamGone, forward) => UpstreamUpgraded(a, answer, upstreamGone, forward);
        case Refused(a, status) => UpstreamRefused(a, status);
        case AttemptFailed(a) => FailTransientAttempt(a, 502);
        case AttemptTimedOut(a) => FailTransientAttempt(a, 504);
        case TimerFired => TimerFires();
        case UpstreamClosed(readableEnded) => UpstreamClosed(readableEnded);
        case UpstreamFailed => UpstreamFailed();
      }
    }
  }
}
