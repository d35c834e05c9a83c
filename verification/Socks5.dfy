/**
 The client side of a SOCKS5 handshake (RFC 1928 and RFC 1929): what is read of the proxy's answer,
 however it arrives, and what is left to the tunnel.
 */
module Socks5 {
  import opened Common

  type Byte = x: int | 0 <= x < 256

  function Int(b: Byte): nat {
    b
  }

  const VERSION: Byte := 0x05
  const AUTH_NONE: Byte := 0x00
  const AUTH_USERPASS: Byte := 0x02
  const SUBNEGOTIATION_VERSION: Byte := 0x01
  const CMD_CONNECT: Byte := 0x01
  const ATYP_IPV4: Byte := 0x01
  const ATYP_DOMAIN: Byte := 0x03
  const ATYP_IPV6: Byte := 0x04
  const REP_SUCCEEDED: Byte := 0x00

  /** What is read next; `Finished` and `Broken` read nothing. */
  datatype Stage =
    | Greeting
    | AuthReply
    | Reply
    | DomainLength
    | BoundAddress(length: nat)
    | Finished
    | Broken

  predicate IsOver(s: Stage) {
    s.Finished? || s.Broken?
  }

  /** How many bytes the next read asks for. */
  function Need(s: Stage): nat {
    match s
    case Greeting => 2
    case AuthReply => 2
    case Reply => 4
    case DomainLength => 1
    case BoundAddress(length) => length
    case _ => 0
  }

  /** What a read gives rise to. `credentials`: the proxy has a user name, and the credentials are not too long. */
  function After(credentials: bool, s: Stage, b: seq<Byte>): Stage
    requires !IsOver(s) && |b| == Need(s)
  {
    match s
    case Greeting =>
      if b[0] != VERSION then Broken
      else if b[1] == AUTH_NONE then Reply
      else if b[1] == AUTH_USERPASS && credentials then AuthReply
      else Broken
    case AuthReply => if b[0] == SUBNEGOTIATION_VERSION && b[1] == 0 then Reply else Broken
    case Reply =>
      if b[1] != REP_SUCCEEDED then Broken
      else if b[3] == ATYP_DOMAIN then DomainLength
      else if b[3] == ATYP_IPV4 then BoundAddress(4 + 2)
      else if b[3] == ATYP_IPV6 then BoundAddress(16 + 2)
      else Broken
    case DomainLength => BoundAddress(Int(b[0]) + 2)
    case BoundAddress(_) => Finished
  }

  /** How much is still to come at most; each read brings the end nearer. */
  function Rank(s: Stage): nat {
    match s
    case Greeting => 5
    case AuthReply => 4
    case Reply => 3
    case DomainLength => 2
    case BoundAddress(_) => 1
    case _ => 0
  }

  /** Reading on as long as there is enough: the stage that is reached and the bytes that are left. */
  function Advance(credentials: bool, s: Stage, buffered: seq<Byte>): (Stage, seq<Byte>)
    decreases Rank(s)
  {
    if IsOver(s) || |buffered| < Need(s) then (s, buffered)
    else Advance(credentials, After(credentials, s, buffered[..Need(s)]), buffered[Need(s)..])
  }

  function OnChunks(credentials: bool, s: Stage, buffered: seq<Byte>, chunks: seq<seq<Byte>>): (Stage, seq<Byte>) {
    if chunks == [] then Advance(credentials, s, buffered)
    else
      var (s1, rest) := OnChunks(credentials, s, buffered, chunks[..|chunks| - 1]);
      Advance(credentials, s1, rest + chunks[|chunks| - 1])
  }

  function Join(chunks: seq<seq<Byte>>): seq<Byte> {
    if chunks == [] then [] else Join(chunks[..|chunks| - 1]) + chunks[|chunks| - 1]
  }

  lemma AdvanceOne(credentials: bool, s: Stage, buffered: seq<Byte>)
    ensures Advance(credentials, s, buffered)
         == if IsOver(s) || |buffered| < Need(s) then (s, buffered)
            else Advance(credentials, After(credentials, s, buffered[..Need(s)]), buffered[Need(s)..])
  {
    hide After;
  }

  /** The read that a stage waits for. */
  lemma AdvanceRead(credentials: bool, s: Stage, bytes: seq<Byte>, more: seq<Byte>)
    requires !IsOver(s) && |bytes| == Need(s)
    ensures Advance(credentials, s, bytes + more) == Advance(credentials, After(credentials, s, bytes), more)
  {
    hide After, Advance;
    AdvanceOne(credentials, s, bytes + more);
    assert (bytes + more)[..|bytes|] == bytes && (bytes + more)[|bytes|..] == more;
  }

  lemma RankFalls(credentials: bool, s: Stage, buffered: seq<Byte>)
    ensures !IsOver(s) && |buffered| >= Need(s) ==> Rank(After(credentials, s, buffered[..Need(s)])) < Rank(s)
  {
  }

  // Chunks

  lemma {:induction false} AdvanceSplit(credentials: bool, s: Stage, a: seq<Byte>, b: seq<Byte>)
    ensures var (s1, rest) := Advance(credentials, s, a);
            Advance(credentials, s, a + b) == Advance(credentials, s1, rest + b)
    decreases Rank(s)
  {
    if !IsOver(s) && |a| >= Need(s) {
      var n := Need(s);
      assert (a + b)[..n] == a[..n] && (a + b)[n..] == a[n..] + b;
      AdvanceSplit(credentials, After(credentials, s, a[..n]), a[n..], b);
    }
  }

  /** However the bytes arrive, the reads are those of the whole stream. */
  lemma {:induction false} ChunksDoNotMatter(credentials: bool, s: Stage, chunks: seq<seq<Byte>>)
    ensures OnChunks(credentials, s, [], chunks) == Advance(credentials, s, Join(chunks))
    decreases |chunks|
  {
    if chunks != [] {
      ChunksDoNotMatter(credentials, s, chunks[..|chunks| - 1]);
      AdvanceSplit(credentials, s, Join(chunks[..|chunks| - 1]), chunks[|chunks| - 1]);
    }
  }

  /** What is left is the end of what was there. */
  lemma {:induction false} RestIsSuffix(credentials: bool, s: Stage, buffered: seq<Byte>)
    ensures var rest := Advance(credentials, s, buffered).1;
            |rest| <= |buffered| && buffered[|buffered| - |rest|..] == rest
    decreases Rank(s)
  {
    hide After, Advance, Rank;
    AdvanceOne(credentials, s, buffered);
    if !IsOver(s) && |buffered| >= Need(s) {
      RankFalls(credentials, s, buffered);
      RestIsSuffix(credentials, After(credentials, s, buffered[..Need(s)]), buffered[Need(s)..]);
      SuffixOfSuffix(buffered, Need(s), Advance(credentials, s, buffered).1);
    }
  }

  lemma SuffixOfSuffix(all: seq<Byte>, n: nat, rest: seq<Byte>)
    requires n <= |all| && |rest| <= |all[n..]| && all[n..][|all[n..]| - |rest|..] == rest
    ensures |rest| <= |all| && all[|all| - |rest|..] == rest
  {
  }

  // The answer of a proxy that agrees

  predicate IsGreeting(b: seq<Byte>, method_: Byte) {
    b == [5, method_]
  }

  /** The answer to the connection request: version, success, reserved, address type; the address; the port. */
  predicate IsReply(b: seq<Byte>) {
    && |b| >= 4 && b[1] == 0
    && (if b[3] == 1 then |b| == 4 + 4 + 2
        else if b[3] == 4 then |b| == 4 + 16 + 2
        else b[3] == 3 && |b| >= 5 && |b| == 5 + Int(b[4]) + 2)
  }

  /** The whole answer: the choice of a method, the outcome of the authentication if there was one, the reply. */
  predicate IsAnswer(credentials: bool, b: seq<Byte>) {
    || (|b| >= 2 && IsGreeting(b[..2], 0) && IsReply(b[2..]))
    || (credentials && |b| >= 4 && IsGreeting(b[..2], 2) && b[2..4] == [1, 0]
        && IsReply(b[4..]))
  }

  lemma ReplyIsRead(credentials: bool, b: seq<Byte>, rest: seq<Byte>)
    requires IsReply(b)
    ensures Advance(credentials, Reply, b + rest) == (Finished, rest)
  {
    hide Advance;
    AdvanceRead(credentials, Reply, b[..4], b[4..] + rest);
    assert b + rest == b[..4] + (b[4..] + rest);
    if b[3] == ATYP_DOMAIN {
      AdvanceRead(credentials, DomainLength, b[4..5], b[5..] + rest);
      assert b[4..] + rest == b[4..5] + (b[5..] + rest);
      BoundIsRead(credentials, b[5..], rest);
    } else {
      BoundIsRead(credentials, b[4..], rest);
    }
  }

  lemma BoundIsRead(credentials: bool, b: seq<Byte>, rest: seq<Byte>)
    ensures Advance(credentials, BoundAddress(|b|), b + rest) == (Finished, rest)
  {
    assert (b + rest)[..|b|] == b && (b + rest)[|b|..] == rest;
  }

  /** If the answer is there, the handshake succeeds and reads exactly it. */
  lemma AnswerIsRead(credentials: bool, b: seq<Byte>, rest: seq<Byte>)
    requires IsAnswer(credentials, b)
    ensures Advance(credentials, Greeting, b + rest) == (Finished, rest)
  {
    hide Advance, IsReply;
    AdvanceRead(credentials, Greeting, b[..2], b[2..] + rest);
    assert b + rest == b[..2] + (b[2..] + rest);
    if IsGreeting(b[..2], AUTH_NONE) {
      ReplyIsRead(credentials, b[2..], rest);
    } else {
      AdvanceRead(credentials, AuthReply, b[2..4], b[4..] + rest);
      assert b[2..] + rest == b[2..4] + (b[4..] + rest);
      ReplyIsRead(credentials, b[4..], rest);
    }
  }

  /** A handshake that succeeded from the reply on has read one. */
  lemma ReadIsReply(credentials: bool, all: seq<Byte>)
    requires Advance(credentials, Reply, all).0 == Finished
    ensures var rest := Advance(credentials, Reply, all).1;
            |rest| <= |all| && IsReply(all[..|all| - |rest|]) && all[|all| - |rest|..] == rest
  {
    hide Advance;
    RestIsSuffix(credentials, Reply, all);
    AdvanceOne(credentials, Reply, all);
    var s := After(credentials, Reply, all[..4]);
    OverStays(credentials, s, all[4..]);
    if s.DomainLength? {
      AdvanceOne(credentials, s, all[4..]);
      assert all[4..][..1] == [all[4]] && all[4..][1..] == all[5..];
      BoundRead(credentials, After(credentials, s, [all[4]]), all[5..]);
    } else {
      BoundRead(credentials, s, all[4..]);
    }
  }

  lemma OverStays(credentials: bool, s: Stage, all: seq<Byte>)
    requires Advance(credentials, s, all).0 == Finished
    ensures !s.Broken?
  {
  }

  lemma BoundRead(credentials: bool, s: Stage, all: seq<Byte>)
    requires s.BoundAddress? && Advance(credentials, s, all).0 == Finished
    ensures |all| >= s.length && Advance(credentials, s, all).1 == all[s.length..]
  {
  }

  lemma ReadIsAnswer(credentials: bool, all: seq<Byte>)
    requires Advance(credentials, Greeting, all).0 == Finished
    ensures var rest := Advance(credentials, Greeting, all).1;
            |rest| <= |all| && IsAnswer(credentials, all[..|all| - |rest|]) && all[|all| - |rest|..] == rest
  {
    hide Advance, IsAnswer, IsGreeting;
    RestIsSuffix(credentials, Greeting, all);
    GreetingIsRead(credentials, all);
    if IsGreeting(all[..2], AUTH_NONE) {
      ReadAfterNone(credentials, all, Advance(credentials, Greeting, all));
    } else {
      ReadAfterAuth(credentials, all, Advance(credentials, Greeting, all));
    }
  }

  lemma GreetingIsRead(credentials: bool, all: seq<Byte>)
    requires Advance(credentials, Greeting, all).0 == Finished
    ensures |all| >= 2
    ensures IsGreeting(all[..2], AUTH_NONE) || (credentials && IsGreeting(all[..2], AUTH_USERPASS))
  {
    hide Advance;
    AdvanceOne(credentials, Greeting, all);
    OverStays(credentials, After(credentials, Greeting, all[..2]), all[2..]);
  }

  lemma ReadAfterNone(credentials: bool, all: seq<Byte>, result: (Stage, seq<Byte>))
    requires |all| >= 2 && IsGreeting(all[..2], AUTH_NONE)
    requires result == Advance(credentials, Greeting, all) && result.0 == Finished
    ensures |result.1| <= |all| && IsAnswer(credentials, all[..|all| - |result.1|])
  {
    hide Advance, IsReply;
    AdvanceOne(credentials, Greeting, all);
    ReadIsReply(credentials, all[2..]);
    var b := all[..|all| - |result.1|];
    assert b[2..] == all[2..][..|all[2..]| - |result.1|];
    assert b[..2] == all[..2];
  }

  lemma ReadAfterAuth(credentials: bool, all: seq<Byte>, result: (Stage, seq<Byte>))
    requires |all| >= 2 && IsGreeting(all[..2], AUTH_USERPASS) && credentials
    requires result == Advance(credentials, Greeting, all) && result.0 == Finished
    ensures |result.1| <= |all| && IsAnswer(credentials, all[..|all| - |result.1|])
  {
    hide Advance, IsReply;
    AdvanceOne(credentials, Greeting, all);
    AuthIsRead(credentials, all[2..]);
    assert all[2..][..2] == all[2..4] && all[2..][2..] == all[4..];
    ReadIsReply(credentials, all[4..]);
    var b := all[..|all| - |result.1|];
    assert b[4..] == all[4..][..|all[4..]| - |result.1|];
    assert b[..2] == all[..2] && b[2..4] == all[2..4];
  }

  lemma AuthIsRead(credentials: bool, all: seq<Byte>)
    requires Advance(credentials, AuthReply, all).0 == Finished
    ensures |all| >= 2 && all[..2] == [SUBNEGOTIATION_VERSION, 0]
    ensures Advance(credentials, AuthReply, all) == Advance(credentials, Reply, all[2..])
  {
    hide Advance;
    AdvanceOne(credentials, AuthReply, all);
    OverStays(credentials, After(credentials, AuthReply, all[..2]), all[2..]);
  }

  /**
   For every chunking of the proxy's bytes: the handshake succeeds exactly if they begin with an
   answer, and what is left for the tunnel is exactly what follows it.
   */
  lemma SucceedsIffAnswered(credentials: bool, chunks: seq<seq<Byte>>, rest: seq<Byte>)
    ensures OnChunks(credentials, Greeting, [], chunks) == (Finished, rest)
       <==> exists b :: IsAnswer(credentials, b) && Join(chunks) == b + rest
  {
    hide Advance, OnChunks, Join, IsAnswer;
    var all := Join(chunks);
    ChunksDoNotMatter(credentials, Greeting, chunks);
    if OnChunks(credentials, Greeting, [], chunks) == (Finished, rest) {
      ReadIsAnswer(credentials, all);
      var b := all[..|all| - |rest|];
      assert IsAnswer(credentials, b) && all == b + rest;
    }
    if exists b :: IsAnswer(credentials, b) && all == b + rest {
      var b :| IsAnswer(credentials, b) && all == b + rest;
      AnswerIsRead(credentials, b, rest);
    }
  }

  // The requests

  /** A destination: an address, or a name of at most 255 bytes for the proxy to resolve. */
  datatype Destination = V4(octets: seq<Byte>) | V6(octets: seq<Byte>) | Name(name: seq<Byte>)

  function EncodeDestination(d: Destination): Option<seq<Byte>> {
    match d
    case V4(octets) => Some([ATYP_IPV4] + octets)
    case V6(octets) => Some([ATYP_IPV6] + octets)
    case Name(name) => if |name| == 0 || |name| > 255 then None else Some([ATYP_DOMAIN, |name|] + name)
  }

  function Port(p: nat): seq<Byte>
    requires p < 65536
  {
    [p / 256, p % 256]
  }

  function ConnectRequest(d: Destination, port: nat): Option<seq<Byte>>
    requires port < 65536
  {
    match EncodeDestination(d)
    case None => None
    case Some(bytes) => Some([VERSION, CMD_CONNECT, 0] + bytes + Port(port))
  }

  /** How a proxy reads a request, by section 4 of RFC 1928. */
  function ReadRequest(b: seq<Byte>): Option<(Destination, nat)> {
    if |b| < 6 || b[..3] != [5, 1, 0] then None
    else
      var n := |b| - 2;
      var port := Int(b[n]) * 256 + Int(b[n + 1]);
      if b[3] == 1 && |b| == 4 + 4 + 2 then Some((V4(b[4..n]), port))
      else if b[3] == 4 && |b| == 4 + 16 + 2 then Some((V6(b[4..n]), port))
      else if b[3] == 3 && b[4] > 0 && |b| == 5 + Int(b[4]) + 2 then Some((Name(b[5..n]), port))
      else None
  }

  predicate ValidDestination(d: Destination) {
    match d
    case V4(octets) => |octets| == 4
    case V6(octets) => |octets| == 16
    case Name(_) => true
  }

  /** The proxy reads the destination that was meant; a name that cannot be encoded is not sent. */
  lemma RequestIsUnderstood(d: Destination, port: nat)
    requires ValidDestination(d) && port < 65536
    ensures ConnectRequest(d, port).None? <==> d.Name? && (|d.name| == 0 || |d.name| > 255)
    ensures ConnectRequest(d, port).Some? ==> ReadRequest(ConnectRequest(d, port).value) == Some((d, port))
  {
    if ConnectRequest(d, port).Some? {
      var bytes := EncodeDestination(d).value;
      var b := ConnectRequest(d, port).value;
      var n := |b| - 2;
      assert b[..3] == [VERSION, CMD_CONNECT, 0] && b[3..n] == bytes && b[n..] == Port(port);
      assert b[n] == b[n..][0] && b[n + 1] == b[n..][1];
      assert b[3] == bytes[0];
      match d {
        case Name(name) =>
          assert b[4] == bytes[1];
          assert b[5..n] == bytes[2..] == name;
        case V4(octets) => assert b[4..n] == bytes[1..] == octets;
        case V6(octets) => assert b[4..n] == bytes[1..] == octets;
      }
    }
  }

  const CREDENTIAL_MAX_BYTES := 255

  /** The user name and the password, each behind its length. */
  function AuthRequest(user: seq<Byte>, password: seq<Byte>): Option<seq<Byte>> {
    if |user| > CREDENTIAL_MAX_BYTES || |password| > CREDENTIAL_MAX_BYTES then None
    else Some([SUBNEGOTIATION_VERSION, |user|] + user + [|password|] + password)
  }

  /** How a proxy reads credentials, by section 2 of RFC 1929. */
  function ReadAuth(b: seq<Byte>): Option<(seq<Byte>, seq<Byte>)> {
    if |b| < 3 || b[0] != 1 || |b| < 3 + Int(b[1]) then None
    else
      var n := 2 + Int(b[1]);
      if |b| != n + 1 + Int(b[n]) then None else Some((b[2..n], b[n + 1..]))
  }

  lemma AuthIsUnderstood(user: seq<Byte>, password: seq<Byte>)
    ensures AuthRequest(user, password).None? <==> |user| > 255 || |password| > 255
    ensures AuthRequest(user, password).Some? ==> ReadAuth(AuthRequest(user, password).value) == Some((user, password))
  {
    if AuthRequest(user, password).Some? {
      var b := AuthRequest(user, password).value;
      var n := 2 + |user|;
      assert b[1] == |user| && b[2..n] == user && b[n] == |password| && b[n + 1..] == password;
    }
  }

  // The reader

  datatype ReadOutcome = Resolved(bytes: seq<Byte>) | Waiting | Rejected

  /**
   The sequential reader: `received` is all that came in, `consumed` what reads were given, and what
   is buffered is the rest.
   */
  class SocketReader {
    var buffered: seq<Byte>
    var waiter: Option<nat>
    var failed: bool
    ghost var received: seq<Byte>
    ghost var consumed: seq<Byte>

    ghost predicate Valid()
      reads this
    {
      received == consumed + buffered && (waiter.Some? ==> |buffered| < waiter.value)
    }

    constructor ()
      ensures Valid() && received == [] && consumed == [] && waiter.None? && !failed
    {
      buffered, waiter, failed := [], None, false;
      received, consumed := [], [];
    }

    /** Give the waiter its bytes if they are there. */
    method SettleIfReady() returns (r: ReadOutcome)
      requires received == consumed + buffered
      modifies this`buffered, this`waiter, this`consumed
      ensures Valid() && (old(waiter).Some? && r.Waiting? ==> waiter == old(waiter))
      ensures old(waiter).None? ==> r.Waiting? && waiter.None? && consumed == old(consumed)
      ensures r == if old(waiter).Some? && |old(buffered)| >= old(waiter).value
                   then Resolved(old(buffered)[..old(waiter).value]) else Waiting
      ensures consumed == old(consumed) + (if r.Resolved? then r.bytes else [])
      ensures r.Resolved? ==> waiter.None?
      ensures buffered == if r.Resolved? then old(buffered)[old(waiter).value..] else old(buffered)
    {
      if waiter.None? || |buffered| < waiter.value {
        return Waiting;
      }
      var need := waiter.value;
      waiter := None;
      r := Resolved(buffered[..need]);
      consumed := consumed + buffered[..need];
      assert buffered == buffered[..need] + buffered[need..];
      ConcatAssoc(old(consumed), buffered[..need], buffered[need..]);
      buffered := buffered[need..];
    }

    /** Bytes arrive. */
    method OnData(chunk: seq<Byte>) returns (r: ReadOutcome)
      requires Valid()
      modifies this
      ensures Valid() && received == old(received) + chunk
      ensures r == if old(waiter).Some? && |old(buffered) + chunk| >= old(waiter).value
                   then Resolved((old(buffered) + chunk)[..old(waiter).value]) else Waiting
      ensures consumed == old(consumed) + (if r.Resolved? then r.bytes else []) && failed == old(failed)
      ensures waiter == if r.Resolved? then None else old(waiter)
      ensures buffered == if r.Resolved? then (old(buffered) + chunk)[old(waiter).value..] else old(buffered) + chunk
    {
      ConcatAssoc(consumed, buffered, chunk);
      buffered := buffered + chunk;
      received := received + chunk;
      r := SettleIfReady();
    }

    /** A read: the next bytes, as soon as they are there; a second read while one waits is an error. */
    method Read(n: nat) returns (r: ReadOutcome)
      requires Valid()
      modifies this
      ensures Valid() && received == old(received) && failed == old(failed)
      ensures r == if old(failed) || old(waiter).Some? then Rejected
                   else if |old(buffered)| >= n then Resolved(old(buffered)[..n]) else Waiting
      ensures consumed == old(consumed) + (if r.Resolved? then r.bytes else [])
      ensures waiter == if r.Rejected? then old(waiter) else if r.Resolved? then None else Some(n)
      ensures buffered == if r.Resolved? then old(buffered)[n..] else old(buffered)
    {
      if failed {
        return Rejected;
      }
      if waiter.Some? {
        return Rejected;
      }
      waiter := Some(n);
      r := SettleIfReady();
    }

    /** The socket failed; `rejected` tells whether a read was waiting. */
    method Fail() returns (rejected: bool)
      requires Valid()
      modifies this
      ensures Valid() && failed && waiter.None? && rejected == old(waiter).Some?
      ensures received == old(received) && consumed == old(consumed)
    {
      failed := true;
      rejected := waiter.Some?;
      waiter := None;
    }

    /** What goes back into the socket: all that was received and not read. */
    method Release() returns (unshifted: seq<Byte>)
      requires Valid()
      ensures unshifted == buffered && consumed + unshifted == received
    {
      unshifted := buffered;
    }
  }

  /** The script: one read after the other until one waits or the handshake is over. */
  method Script(credentials: bool, reader: SocketReader, stage: Stage) returns (next: Stage)
    requires reader.Valid() && reader.waiter.None? && !reader.failed
    modifies reader
    ensures reader.Valid() && reader.received == old(reader.received) && !reader.failed
    ensures (next, reader.buffered) == Advance(credentials, stage, old(reader.buffered))
    ensures reader.waiter == if IsOver(next) then None else Some(Need(next))
  {
    hide After, Advance;
    next := stage;
    while !IsOver(next)
      invariant reader.Valid() && reader.received == old(reader.received) && !reader.failed && reader.waiter.None?
      invariant Advance(credentials, next, reader.buffered) == Advance(credentials, stage, old(reader.buffered))
      decreases Rank(next)
    {
      AdvanceOne(credentials, next, reader.buffered);
      RankFalls(credentials, next, reader.buffered);
      var r := reader.Read(Need(next));
      match r {
        case Resolved(bytes) => next := After(credentials, next, bytes);
        case _ => return;
      }
    }
    AdvanceOne(credentials, next, reader.buffered);
  }

  /** The reader and the script after some chunks: a read waits unless the handshake is over. */
  ghost predicate Reached(credentials: bool, reader: SocketReader, stage: Stage, chunks: seq<seq<Byte>>)
    reads reader
  {
    && reader.Valid() && !reader.failed
    && reader.waiter == (if IsOver(stage) then None else Some(Need(stage)))
    && reader.received == Join(chunks)
    && (stage, reader.buffered) == OnChunks(credentials, Greeting, [], chunks)
  }

  /** The handshake begins with a read, before any byte arrived. */
  method Start(credentials: bool) returns (reader: SocketReader, stage: Stage)
    ensures fresh(reader) && Reached(credentials, reader, stage, [])
  {
    reader := new SocketReader();
    stage := Script(credentials, reader, Greeting);
  }

  /** A chunk arrives: the read that waits may get its bytes, and then the script goes on. */
  method Continue(credentials: bool, reader: SocketReader, stage: Stage, chunk: seq<Byte>, ghost chunks: seq<seq<Byte>>)
    returns (next: Stage)
    requires Reached(credentials, reader, stage, chunks)
    modifies reader
    ensures Reached(credentials, reader, next, chunks + [chunk])
  {
    hide After, Advance, OnChunks, Join;
    ghost var all := reader.buffered + chunk;
    AdvanceOne(credentials, stage, all);
    ChunksSnoc(credentials, chunks, chunk);
    var r := reader.OnData(chunk);
    match r {
      case Resolved(bytes) => next := Script(credentials, reader, After(credentials, stage, bytes));
      case _ => next := stage;
    }
  }

  lemma ChunksSnoc(credentials: bool, chunks: seq<seq<Byte>>, chunk: seq<Byte>)
    ensures Join(chunks + [chunk]) == Join(chunks) + chunk
    ensures var (s, rest) := OnChunks(credentials, Greeting, [], chunks);
            OnChunks(credentials, Greeting, [], chunks + [chunk]) == Advance(credentials, s, rest + chunk)
  {
    assert (chunks + [chunk])[..|chunks|] == chunks;
    hide Advance;
  }

  /**
   For the objects: the handshake is over with success exactly if what was read is an answer, and
   what is put back into the socket is then everything that came after it.
   */
  lemma HandshakeSucceeds(credentials: bool, reader: SocketReader, stage: Stage, chunks: seq<seq<Byte>>)
    requires Reached(credentials, reader, stage, chunks)
    ensures stage == Finished <==> exists b, rest :: IsAnswer(credentials, b) && reader.received == b + rest
    ensures stage == Finished ==> IsAnswer(credentials, reader.consumed)
    ensures reader.received == reader.consumed + reader.buffered
  {
    hide OnChunks, IsAnswer, Join;
    if stage == Finished {
      SucceedsIffAnswered(credentials, chunks, reader.buffered);
      var b :| IsAnswer(credentials, b) && Join(chunks) == b + reader.buffered;
      assert |b| == |reader.consumed|;
      assert b == reader.received[..|b|] == reader.consumed;
    }
    if b, rest :| IsAnswer(credentials, b) && reader.received == b + rest {
      SucceedsIffAnswered(credentials, chunks, rest);
    }
  }
}
