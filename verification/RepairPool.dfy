/**
 The first pass of the repair: the ids that are called and where their results are; and what the pairing
 passes keep track of.
 */
module RepairPool {
  import opened Messages
  import opened Repair
  import opened Ownership

  /** A call that pairing by position left without a result. */
  datatype Missing = Missing(at: Spot, id: Id, trailing: bool)

  type Plans = map<nat, map<nat, Block>>

  /** An array that is not the assistant's and, if it is the user's, holds nothing but results. */
  predicate OnlyResults(m: Message) {
    && m.Msg? && m.content.Blocks? && m.role != Assistant
    && (m.role == User ==> forall b :: 0 <= b < |m.content.blocks| ==> IsToolResult(m.content.blocks[b]))
  }

  method FindLastConversationIndex(ms: seq<Message>) returns (last: int)
    ensures last == LastConversationIndex(ms)
    ensures -1 <= last < |ms| && (last >= 0 ==> !OnlyResults(ms[last]))
    ensures forall k :: last < k < |ms| ==> OnlyResults(ms[k])
  {
    last := |ms| - 1;
    while last >= 0
      invariant -1 <= last < |ms|
      invariant forall k :: last < k < |ms| ==> !IsConversationPoint(ms[k])
    {
      if IsConversationPoint(ms[last]) {
        return;
      }
      last := last - 1;
    }
  }

  method LeadingToolResultCount(bs: seq<Block>) returns (k: nat)
    ensures k == Leading(bs)
  {
    k := 0;
    while k < |bs| && IsToolResult(bs[k])
      invariant k <= |bs| && forall b :: 0 <= b < k ==> IsToolResult(bs[b])
    {
      k := k + 1;
    }
  }

  // Pass A: the ids that are called, and where their results are

  method CollectCallIds(ms: seq<Message>) returns (ids: set<Id>)
    ensures forall x :: x in ids <==> exists c :: CallAt(ms, c) && CallBlock(ms, c).id == x
  {
    ids := {};
    for i := 0 to |ms|
      invariant forall x :: x in ids <==>
                  exists c :: CallAt(ms, c) && CallBlock(ms, c).id == x && Before(c, Spot(i, 0))
    {
      var bs := AssistantBlocks(ms[i]);
      for b := 0 to |bs|
        invariant forall x :: x in ids <==>
                    exists c :: CallAt(ms, c) && CallBlock(ms, c).id == x && Before(c, Spot(i, b))
      {
        if IsToolUse(bs[b]) {
          assert CallAt(ms, Spot(i, b));
          ids := ids + {bs[b].id};
        }
      }
      assert forall c :: CallAt(ms, c) ==> (Before(c, Spot(i + 1, 0)) <==> Before(c, Spot(i, |bs|)));
    }
  }

  function PoolOf(pool: map<Id, seq<Spot>>, x: Id): seq<Spot> {
    if x in pool then pool[x] else []
  }

  ghost predicate InOrder(spots: seq<Spot>) {
    forall s, t :: 0 <= s < t < |spots| ==> Before(spots[s], spots[t])
  }

  ghost predicate PoolHolds(ms: seq<Message>, ids: set<Id>, pool: map<Id, seq<Spot>>, end: Spot) {
    forall x :: InOrder(PoolOf(pool, x)) &&
                forall p :: p in PoolOf(pool, x) <==>
                              ResultAt(ms, p) && ResultBlock(ms, p).id == x && x in ids && Before(p, end)
  }

  ghost predicate OrphansIn(ms: seq<Message>, ids: set<Id>, drops: seq<Spot>, end: Spot) {
    forall p :: p in drops <==> ResultAt(ms, p) && ResultBlock(ms, p).id !in ids && Before(p, end)
  }

  lemma PoolStep(ms: seq<Message>, ids: set<Id>, pool: map<Id, seq<Spot>>, drops: seq<Spot>, i: nat, b: nat)
    requires i < |ms| && b < |UserBlocks(ms[i])|
    requires PoolHolds(ms, ids, pool, Spot(i, b)) && OrphansIn(ms, ids, drops, Spot(i, b))
    ensures var block := UserBlocks(ms[i])[b];
            if !IsToolResult(block) then
              PoolHolds(ms, ids, pool, Spot(i, b + 1)) && OrphansIn(ms, ids, drops, Spot(i, b + 1))
            else if block.id !in ids then
              PoolHolds(ms, ids, pool, Spot(i, b + 1)) && OrphansIn(ms, ids, drops + [Spot(i, b)], Spot(i, b + 1))
            else
              PoolHolds(ms, ids, pool[block.id := PoolOf(pool, block.id) + [Spot(i, b)]], Spot(i, b + 1))
              && OrphansIn(ms, ids, drops, Spot(i, b + 1))
  {
    var block := UserBlocks(ms[i])[b];
    var here := Spot(i, b);
    assert forall p :: Before(p, Spot(i, b + 1)) <==> Before(p, here) || p == here;
    if IsToolResult(block) && block.id in ids {
      var next := pool[block.id := PoolOf(pool, block.id) + [here]];
      forall x
        ensures InOrder(PoolOf(next, x))
        ensures forall p :: p in PoolOf(next, x) <==>
                              ResultAt(ms, p) && ResultBlock(ms, p).id == x && x in ids && Before(p, Spot(i, b + 1))
      {
        assert forall p :: p in PoolOf(pool, x) <==>
                             ResultAt(ms, p) && ResultBlock(ms, p).id == x && x in ids && Before(p, here);
        if x == block.id {
          InOrderAppend(PoolOf(pool, x), here);
        }
      }
    }
  }

  lemma InOrderAppend(spots: seq<Spot>, p: Spot)
    requires InOrder(spots) && forall q :: q in spots ==> Before(q, p)
    ensures InOrder(spots + [p])
  {
  }

  lemma PoolNextMessage(ms: seq<Message>, ids: set<Id>, pool: map<Id, seq<Spot>>, drops: seq<Spot>, i: nat)
    requires i < |ms|
    requires PoolHolds(ms, ids, pool, Spot(i, |UserBlocks(ms[i])|))
    requires OrphansIn(ms, ids, drops, Spot(i, |UserBlocks(ms[i])|))
    ensures PoolHolds(ms, ids, pool, Spot(i + 1, 0)) && OrphansIn(ms, ids, drops, Spot(i + 1, 0))
  {
    assert forall p :: ResultAt(ms, p) ==> (Before(p, Spot(i + 1, 0)) <==> Before(p, Spot(i, |UserBlocks(ms[i])|)));
    forall x
      ensures forall p :: p in PoolOf(pool, x) <==>
                            ResultAt(ms, p) && ResultBlock(ms, p).id == x && x in ids && Before(p, Spot(i + 1, 0))
    {
      assert forall p :: p in PoolOf(pool, x) <==>
                           && ResultAt(ms, p) && ResultBlock(ms, p).id == x && x in ids
                           && Before(p, Spot(i, |UserBlocks(ms[i])|));
    }
  }

  method CollectResults(ms: seq<Message>, ids: set<Id>) returns (pool: map<Id, seq<Spot>>, drops: seq<Spot>)
    ensures PoolHolds(ms, ids, pool, Spot(|ms|, 0))
    ensures OrphansIn(ms, ids, drops, Spot(|ms|, 0))
  {
    pool := map[];
    drops := [];
    for i := 0 to |ms|
      invariant PoolHolds(ms, ids, pool, Spot(i, 0))
      invariant OrphansIn(ms, ids, drops, Spot(i, 0))
    {
      hide PoolHolds, OrphansIn;
      var bs := UserBlocks(ms[i]);
      for b := 0 to |bs|
        invariant PoolHolds(ms, ids, pool, Spot(i, b))
        invariant OrphansIn(ms, ids, drops, Spot(i, b))
      {
        PoolStep(ms, ids, pool, drops, i, b);
        if IsToolResult(bs[b]) {
          if bs[b].id !in ids {
            drops := drops + [Spot(i, b)];
          } else {
            pool := pool[bs[b].id := PoolOf(pool, bs[b].id) + [Spot(i, b)]];
          }
        }
      }
      PoolNextMessage(ms, ids, pool, drops, i);
    }
  }

  // What the pairing passes keep track of

  /** The call owns a result in the message right after it. */
  ghost predicate Adjacent(ms: seq<Message>, c: Spot) {
    exists p :: Owns(ms, c, p) && p.msg == c.msg + 1
  }

  ghost predicate Ready(ms: seq<Message>, c: Spot) {
    exists p :: Owns(ms, c, p) && InPosition(ms, c, p)
  }

  predicate IsPlanned(plans: Plans, c: Spot) {
    c.msg in plans && c.blk in plans[c.msg]
  }

  function RecordInsert(plans: Plans, c: Spot, b: Block): Plans {
    plans[c.msg := (if c.msg in plans then plans[c.msg] else map[])[c.blk := b]]
  }

  ghost predicate Claimed(ms: seq<Message>, done: iset<Spot>, p: Spot) {
    exists c :: c in done && Owns(ms, c, p)
  }

  ghost predicate Displaced(ms: seq<Message>, last: int, done: iset<Spot>, p: Spot) {
    exists c :: c in done && Owns(ms, c, p) && c.msg < last && !InPosition(ms, c, p)
  }

  ghost predicate Orphan(ms: seq<Message>, ids: set<Id>, p: Spot) {
    ResultAt(ms, p) && ResultBlock(ms, p).id !in ids
  }

  ghost predicate PlansHold(ms: seq<Message>, last: int, done: iset<Spot>, plans: Plans) {
    && (forall c :: IsPlanned(plans, c) <==> c in done && c.msg < last && !Ready(ms, c))
    && (forall c :: IsPlanned(plans, c) ==> CallAt(ms, c) && plans[c.msg][c.blk] == AnswerTo(ms, c))
    && (forall i :: i in plans ==> plans[i] != map[])
  }

  /** What has been consumed, dropped and planned once the calls in `done` are dealt with. */
  ghost predicate Ledger(ms: seq<Message>, last: int, ids: set<Id>, done: iset<Spot>,
                         consumed: set<Spot>, drops: seq<Spot>, plans: Plans) {
    && (forall c :: c in done ==> CallAt(ms, c) && c.msg <= last)
    && (forall p :: p in consumed <==> Claimed(ms, done, p))
    && (forall p :: p in drops <==> Orphan(ms, ids, p) || Displaced(ms, last, done, p))
    && PlansHold(ms, last, done, plans)
  }

  lemma ReadyIs(ms: seq<Message>, c: Spot, p: Spot)
    requires Owns(ms, c, p)
    ensures Ready(ms, c) <==> InPosition(ms, c, p)
  {
    hide Owns, InPosition;
    if q :| Owns(ms, c, q) && InPosition(ms, c, q) {
      OneResult(ms, c, p, q);
    }
  }

  lemma PlansRecord(ms: seq<Message>, last: int, done: iset<Spot>, plans: Plans, c: Spot)
    requires PlansHold(ms, last, done, plans) && CallAt(ms, c) && c !in done
    ensures PlansHold(ms, last, done + iset{c},
              if c.msg < last && !Ready(ms, c) then RecordInsert(plans, c, AnswerTo(ms, c)) else plans)
  {
    hide Ready, CallAt, AnswerTo;
    var next := RecordInsert(plans, c, AnswerTo(ms, c));
    assert forall d :: IsPlanned(next, d) <==> IsPlanned(plans, d) || d == c;
    assert forall d :: d != c && IsPlanned(plans, d) ==> next[d.msg][d.blk] == plans[d.msg][d.blk];
  }

  /** Consuming the owned result of a call. */
  lemma LedgerHit(ms: seq<Message>, last: int, ids: set<Id>, done: iset<Spot>,
                  consumed: set<Spot>, drops: seq<Spot>, plans: Plans, c: Spot, p: Spot)
    requires Ledger(ms, last, ids, done, consumed, drops, plans)
    requires Owns(ms, c, p) && c.msg <= last && c !in done
    ensures if c.msg < last && !InPosition(ms, c, p)
            then Ledger(ms, last, ids, done + iset{c}, consumed + {p}, drops + [p],
                        RecordInsert(plans, c, ResultBlock(ms, p)))
            else Ledger(ms, last, ids, done + iset{c}, consumed + {p}, drops, plans)
  {
    hide Owns, InPosition, Ready, PlansHold, Orphan, AnswerTo;
    var after := done + iset{c};
    OwnsCall(ms, c, p);
    PlansRecord(ms, last, done, plans, c);
    ReadyIs(ms, c, p);
    OwnedAnswer(ms, c, p);
    forall q
      ensures Claimed(ms, after, q) <==> Claimed(ms, done, q) || q == p
      ensures Displaced(ms, last, after, q) <==>
              Displaced(ms, last, done, q) || (q == p && c.msg < last && !InPosition(ms, c, p))
    {
      if Owns(ms, c, q) {
        OneResult(ms, c, p, q);
      }
      assert c in after;
      assert forall d :: d in done ==> d in after;
    }
  }

  lemma OwnsCall(ms: seq<Message>, c: Spot, p: Spot)
    requires Owns(ms, c, p)
    ensures CallAt(ms, c) && InReach(ms, c, p)
  {
  }

  /** A call that owns nothing. */
  lemma LedgerMiss(ms: seq<Message>, last: int, ids: set<Id>, done: iset<Spot>,
                   consumed: set<Spot>, drops: seq<Spot>, plans: Plans, c: Spot)
    requires Ledger(ms, last, ids, done, consumed, drops, plans)
    requires CallAt(ms, c) && c.msg <= last && c !in done && forall p :: !Owns(ms, c, p)
    ensures Ledger(ms, last, ids, done + iset{c}, consumed, drops,
              if c.msg < last
              then RecordInsert(plans, c, ToolResult(CallBlock(ms, c).id, SYNTHETIC_TOOL_RESULT_TEXT))
              else plans)
  {
    hide Owns, InPosition, PlansHold, Orphan, AnswerTo, CallAt;
    var after := done + iset{c};
    PlansRecord(ms, last, done, plans, c);
    UnownedAnswer(ms, c);
    assert !Ready(ms, c);
    forall q
      ensures Claimed(ms, after, q) <==> Claimed(ms, done, q)
      ensures Displaced(ms, last, after, q) <==> Displaced(ms, last, done, q)
    {
      assert forall d :: d in done ==> d in after;
    }
  }
}
