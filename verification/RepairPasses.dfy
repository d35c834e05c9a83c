/**
 The passes that repair the tool exchanges of a history: collect, pair by position, relay
 within reach, drop what is left, reassemble.
 */
module RepairPasses {
  import opened Common
  import opened Messages
  import opened Repair
  import opened RepairTheorems
  import opened Ownership
  import opened RepairPool
  import opened PairingPass
  import opened RelayPass

  // What is left in the pools, and what the passes add up to

  method DropLeftovers(pool: map<Id, seq<Spot>>, consumed0: set<Spot>, drops0: seq<Spot>) returns (drops: seq<Spot>)
    ensures forall p :: p in drops <==> p in drops0 || (p !in consumed0 && exists x :: x in pool && p in pool[x])
  {
    drops := drops0;
    var consumed := consumed0;
    var ids := pool.Keys;
    while ids != {}
      invariant ids <= pool.Keys
      invariant forall p :: p in consumed <==> p in consumed0 || exists x :: x in pool && x !in ids && p in pool[x]
      invariant forall p :: p in drops <==>
                  p in drops0 || (p !in consumed0 && exists x :: x in pool && x !in ids && p in pool[x])
      decreases |ids|
    {
      var x :| x in ids;
      ghost var consumed1, drops1 := consumed, drops;
      for s := 0 to |pool[x]|
        invariant forall p :: p in consumed <==> p in consumed1 || p in pool[x][..s]
        invariant forall p :: p in drops <==> p in drops1 || (p !in consumed1 && p in pool[x][..s])
      {
        if pool[x][s] !in consumed {
          drops := drops + [pool[x][s]];
          consumed := consumed + {pool[x][s]};
        }
      }
      assert pool[x][..|pool[x]|] == pool[x];
      ids := ids - {x};
    }
  }

  /** `p` is a result that does not stay where it is. */
  predicate Goes(ms: seq<Message>, last: int, p: Spot)
    requires last < |ms|
  {
    ResultAt(ms, p) && !Stays(ms, last, p.msg, p.blk)
  }

  /** Every result is dropped unless it stays. */
  ghost predicate DropsHold(ms: seq<Message>, last: int, drops: seq<Spot>)
    requires last < |ms|
  {
    forall p :: p in drops <==> Goes(ms, last, p)
  }

  lemma DropsAddUp(ms: seq<Message>, last: int, ids: set<Id>, pool: map<Id, seq<Spot>>, done: iset<Spot>,
                   consumed: set<Spot>, drops0: seq<Spot>, plans: Plans, missing: seq<Missing>, drops: seq<Spot>)
    requires last == LastConversationIndex(ms)
    requires forall c :: CallAt(ms, c) ==> CallBlock(ms, c).id in ids
    requires PoolHolds(ms, ids, pool, Spot(|ms|, 0))
    requires Relaying(ms, last, ids, done, consumed, drops0, plans, missing, |missing|)
    requires forall p :: p in drops <==> p in drops0 || (p !in consumed && exists x :: x in pool && p in pool[x])
    ensures DropsHold(ms, last, drops)
  {
    hide *;
    AllDone(ms, last, ids, done, consumed, drops0, plans, missing);
    forall p
      ensures p in drops <==> Goes(ms, last, p)
    {
      InSomePool(ms, ids, pool, p);
      RelayingDrops(ms, last, ids, done, consumed, drops0, plans, missing, p);
      DropIff(ms, last, ids, done, p);
    }
    DropsFrom(ms, last, drops);
  }

  lemma DropsFrom(ms: seq<Message>, last: int, drops: seq<Spot>)
    requires last < |ms|
    requires forall p :: p in drops <==> Goes(ms, last, p)
    ensures DropsHold(ms, last, drops)
  {
  }

  lemma RelayingDrops(ms: seq<Message>, last: int, ids: set<Id>, done: iset<Spot>, consumed: set<Spot>,
                      drops: seq<Spot>,
                      plans: Plans, missing: seq<Missing>, p: Spot)
    requires -1 <= last && Relaying(ms, last, ids, done, consumed, drops, plans, missing, |missing|)
    ensures p in consumed <==> Claimed(ms, done, p)
    ensures p in drops <==> Orphan(ms, ids, p) || Displaced(ms, last, done, p)
  {
  }

  /** A result stays unless it is an orphan, displaced by its owner, or owned by no call. */
  lemma DropIff(ms: seq<Message>, last: int, ids: set<Id>, done: iset<Spot>, p: Spot)
    requires last == LastConversationIndex(ms)
    requires forall c :: CallAt(ms, c) ==> CallBlock(ms, c).id in ids
    requires forall c :: c in done <==> CallAt(ms, c)
    ensures Goes(ms, last, p) <==>
            || Orphan(ms, ids, p)
            || Displaced(ms, last, done, p)
            || (ResultAt(ms, p) && ResultBlock(ms, p).id in ids && !Claimed(ms, done, p))
  {
    hide Owns, InPosition, Stays, CallAt, ResultAt;
    if ResultAt(ms, p) {
      StaysIffOwned(ms, last, p);
    }
    if c :| Owns(ms, c, p) {
      OwnedById(ms, c, p);
      assert c in done;
      forall d | Owns(ms, d, p)
        ensures d == c
      {
        OneOwner(ms, c, d, p);
      }
    }
  }

  lemma InSomePool(ms: seq<Message>, ids: set<Id>, pool: map<Id, seq<Spot>>, p: Spot)
    requires PoolHolds(ms, ids, pool, Spot(|ms|, 0))
    ensures (exists x :: x in pool && p in pool[x]) <==> ResultAt(ms, p) && ResultBlock(ms, p).id in ids
  {
    hide InOrder;
    if x :| x in pool && p in pool[x] {
      assert p in PoolOf(pool, x);
    }
    if ResultAt(ms, p) && ResultBlock(ms, p).id in ids {
      assert p in PoolOf(pool, ResultBlock(ms, p).id);
    }
  }

  /** In the end every call has been dealt with. */
  lemma AllDone(ms: seq<Message>, last: int, ids: set<Id>, done: iset<Spot>, consumed: set<Spot>, drops: seq<Spot>,
                plans: Plans, missing: seq<Missing>)
    requires last == LastConversationIndex(ms)
    requires Relaying(ms, last, ids, done, consumed, drops, plans, missing, |missing|)
    ensures forall c :: c in done <==> CallAt(ms, c)
  {
    hide CallAt, Adjacent, Ledger;
    forall c | CallAt(ms, c)
      ensures c in done
    {
      CallsUpToLast(ms, c);
      assert Before(c, Spot(last + 1, 0));
    }
  }

  /** The plans hold exactly what the rebuilt history inserts. */
  ghost predicate PlansMatch(ms: seq<Message>, last: int, plans: Plans) {
    && (forall i :: i in plans ==> plans[i] != map[] && 0 <= i < last < |ms|)
    && (forall i: nat, k :: i < last < |ms| && 0 <= k < |AssistantBlocks(ms[i])| ==>
          InsertAt(ms, i, k) == if IsPlanned(plans, Spot(i, k)) then [plans[i][k]] else [])
    && (forall c :: IsPlanned(plans, c) ==> c.msg < last < |ms| && c.blk < |AssistantBlocks(ms[c.msg])|)
  }

  lemma PlansAddUp(ms: seq<Message>, last: int, done: iset<Spot>, plans: Plans)
    requires last == LastConversationIndex(ms)
    requires PlansHold(ms, last, done, plans)
    requires forall c :: c in done <==> CallAt(ms, c)
    ensures PlansMatch(ms, last, plans)
  {
    hide Ready, AnswerTo, InsertAt, CallAt;
    forall i | i in plans
      ensures plans[i] != map[] && 0 <= i < last < |ms|
    {
      assert plans[i] != map[];
      var k :| k in plans[i];
      assert IsPlanned(plans, Spot(i, k));
    }
    forall i: nat, k: nat | i < last < |ms| && k < |AssistantBlocks(ms[i])|
      ensures InsertAt(ms, i, k) == if IsPlanned(plans, Spot(i, k)) then [plans[i][k]] else []
    {
      InsertAtIsPlanned(ms, last, done, plans, i, k);
    }
    forall c | IsPlanned(plans, c)
      ensures c.msg < last < |ms| && c.blk < |AssistantBlocks(ms[c.msg])|
    {
      CallBounds(ms, c);
    }
  }

  lemma CallBounds(ms: seq<Message>, c: Spot)
    requires CallAt(ms, c)
    ensures c.msg < |ms| && c.blk < |AssistantBlocks(ms[c.msg])|
  {
  }

  lemma InsertAtIsPlanned(ms: seq<Message>, last: int, done: iset<Spot>, plans: Plans, i: nat, k: nat)
    requires last == LastConversationIndex(ms) && i < last && k < |AssistantBlocks(ms[i])|
    requires PlansHold(ms, last, done, plans) && forall c :: c in done <==> CallAt(ms, c)
    ensures InsertAt(ms, i, k) == if IsPlanned(plans, Spot(i, k)) then [plans[i][k]] else []
  {
    hide Owns, InPosition, Payload, InPlace, CallCount;
    var c := Spot(i, k);
    if IsToolUse(AssistantBlocks(ms[i])[k]) {
      assert CallAt(ms, c);
      InPlaceIffInPosition(ms, c);
      assert IsPlanned(plans, c) <==> !Ready(ms, c);
    } else {
      assert !CallAt(ms, c);
    }
  }

  // Pass C: reassembly

  /** The planned results of one message, in the order of the calls. */
  method OrderPlan(ms: seq<Message>, last: int, plans: Plans, i: nat) returns (blocks: seq<Block>)
    requires i < last < |ms| && i in plans && PlansMatch(ms, last, plans)
    ensures blocks == Inserts(ms, last, i) && blocks != []
  {
    hide InsertsUpTo, PlansMatch, AssistantBlocks;
    blocks := [];
    PlanStart(ms, i);
    var n := |AssistantBlocks(ms[i])|;
    for k := 0 to n
      invariant blocks == InsertsUpTo(ms, i, k)
      invariant forall b :: b in plans[i] && b < k ==> blocks != []
    {
      PlanStep(ms, last, plans, i, k);
      if k in plans[i] {
        blocks := blocks + [plans[i][k]];
      }
    }
    ghost var b := SomePlan(ms, last, plans, i);
  }

  lemma PlanStart(ms: seq<Message>, i: nat)
    requires i + 1 < |ms|
    ensures InsertsUpTo(ms, i, 0) == []
  {
  }

  lemma PlanStep(ms: seq<Message>, last: int, plans: Plans, i: nat, k: nat)
    requires i < last < |ms| && i in plans && PlansMatch(ms, last, plans) && k < |AssistantBlocks(ms[i])|
    ensures InsertsUpTo(ms, i, k + 1) == InsertsUpTo(ms, i, k) + if k in plans[i] then [plans[i][k]] else []
  {
    hide InsertAt, AssistantBlocks;
    assert IsPlanned(plans, Spot(i, k)) <==> k in plans[i];
  }

  lemma SomePlan(ms: seq<Message>, last: int, plans: Plans, i: nat) returns (b: nat)
    requires i < last < |ms| && i in plans && PlansMatch(ms, last, plans)
    ensures b in plans[i] && b < |AssistantBlocks(ms[i])|
  {
    b :| b in plans[i];
    assert IsPlanned(plans, Spot(i, b));
  }

  ghost predicate InsertsMatch(ms: seq<Message>, last: int, inserts: map<nat, seq<Block>>)
    requires last < |ms|
  {
    && (forall i: nat :: i < |ms| ==> (i in inserts <==> Inserts(ms, last, i) != []))
    && (forall i :: i in inserts ==> i < |ms| && inserts[i] == Inserts(ms, last, i))
  }

  lemma UnplannedInsertsNothing(ms: seq<Message>, last: int, plans: Plans, i: nat)
    requires i < |ms| && last < |ms| && PlansMatch(ms, last, plans) && i !in plans
    ensures Inserts(ms, last, i) == []
  {
    hide InsertAt;
    if i < last {
      NoInsertsUpTo(ms, last, plans, i, |AssistantBlocks(ms[i])|);
    }
  }

  lemma {:induction false} NoInsertsUpTo(ms: seq<Message>, last: int, plans: Plans, i: nat, k: nat)
    requires i < last < |ms| && PlansMatch(ms, last, plans) && i !in plans && k <= |AssistantBlocks(ms[i])|
    ensures InsertsUpTo(ms, i, k) == []
    decreases k
  {
    hide InsertAt;
    if k > 0 {
      NoInsertsUpTo(ms, last, plans, i, k - 1);
      assert !IsPlanned(plans, Spot(i, k - 1));
    }
  }

  method OrderPlans(ms: seq<Message>, last: int, plans: Plans) returns (inserts: map<nat, seq<Block>>)
    requires -1 <= last < |ms| && PlansMatch(ms, last, plans)
    ensures InsertsMatch(ms, last, inserts)
    ensures forall i :: i in inserts ==> i < last
  {
    hide PlansMatch, Inserts;
    inserts := map[];
    for i := 0 to |ms|
      invariant forall j: nat :: j < |ms| ==> (j in inserts <==> j < i && Inserts(ms, last, j) != [])
      invariant forall j :: j in inserts ==> j < |ms| && j < last && inserts[j] == Inserts(ms, last, j)
    {
      if i in plans {
        PlanBounds(ms, last, plans, i);
        var blocks := OrderPlan(ms, last, plans, i);
        inserts := inserts[i := blocks];
      } else {
        UnplannedInsertsNothing(ms, last, plans, i);
      }
    }
  }

  lemma PlanBounds(ms: seq<Message>, last: int, plans: Plans, i: nat)
    requires PlansMatch(ms, last, plans) && i in plans
    ensures i < last < |ms|
  {
  }

  method GroupDrops(drops: seq<Spot>) returns (byMsg: map<nat, set<nat>>)
    ensures forall p :: p in drops <==> p.msg in byMsg && p.blk in byMsg[p.msg]
    ensures forall i :: i in byMsg ==> byMsg[i] != {}
  {
    byMsg := map[];
    for d := 0 to |drops|
      invariant forall p :: p in drops[..d] <==> p.msg in byMsg && p.blk in byMsg[p.msg]
      invariant forall i :: i in byMsg ==> byMsg[i] != {}
    {
      var p := drops[d];
      byMsg := byMsg[p.msg := (if p.msg in byMsg then byMsg[p.msg] else {}) + {p.blk}];
      assert drops[..d + 1] == drops[..d] + [p];
    }
    assert drops[..|drops|] == drops;
  }

  method FilterDropped(ms: seq<Message>, last: int, j: nat, dropped: set<nat>) returns (kept: seq<Block>)
    requires j < |ms| && last < |ms|
    requires forall b :: 0 <= b < |UserBlocks(ms[j])| ==>
               (b in dropped <==> IsToolResult(UserBlocks(ms[j])[b]) && !Stays(ms, last, j, b))
    ensures kept == Kept(ms, last, j)
  {
    hide Stays;
    var bs := UserBlocks(ms[j]);
    kept := [];
    for b := 0 to |bs|
      invariant kept == KeptUpTo(ms, last, j, b)
    {
      if b !in dropped {
        kept := kept + [bs[b]];
      }
    }
  }

  lemma {:induction false} NothingDropped(ms: seq<Message>, last: int, j: nat, k: nat)
    requires j < |ms| && last < |ms| && k <= |UserBlocks(ms[j])|
    requires forall b :: 0 <= b < |UserBlocks(ms[j])| && IsToolResult(UserBlocks(ms[j])[b]) ==> Stays(ms, last, j, b)
    ensures KeptUpTo(ms, last, j, k) == UserBlocks(ms[j])[..k]
    decreases k
  {
    hide Stays;
    if k > 0 {
      NothingDropped(ms, last, j, k - 1);
    }
  }

  /** The dropped blocks of one message. */
  ghost predicate DroppedFrom(ms: seq<Message>, last: int, j: nat, dropped: set<nat>)
    requires j < |ms| && last < |ms|
  {
    forall b :: 0 <= b < |UserBlocks(ms[j])| ==>
                  (b in dropped <==> IsToolResult(UserBlocks(ms[j])[b]) && !Stays(ms, last, j, b))
  }

  method RewriteUserMessage(ms: seq<Message>, last: int, j: nat, dropped: set<nat>, prepend: seq<Block>)
    returns (out: seq<Message>)
    requires j < |ms| && last < |ms| && IsUser(ms[j])
    requires DroppedFrom(ms, last, j, dropped) && forall b :: b in dropped ==> b < |UserBlocks(ms[j])|
    requires prepend == Prepend(ms, last, j)
    ensures out == RewriteUser(ms, last, j)
  {
    hide Stays, Prepend, KeptUpTo, Leading, IsBlank;
    var m := ms[j];
    if m.content.Blocks? && (dropped != {} || prepend != []) {
      var filtered := FilterDropped(ms, last, j, dropped);
      var k := LeadingToolResultCount(filtered);
      var content := filtered[..k] + prepend + filtered[k..];
      if dropped != {} && prepend == [] {
        assert filtered[..k] + prepend + filtered[k..] == filtered;
      }
      if content == [] {
        assert prepend == [];
        ghost var b :| b in dropped;
        assert b < |UserBlocks(m)|;
        return [];
      }
      return [m.(content := Blocks(content))];
    } else if m.content.Str? && prepend != [] {
      return [m.(content := Blocks(prepend + TextBlocks(m.content.text)))];
    }
    if m.content.Blocks? {
      NothingDropped(ms, last, j, |UserBlocks(m)|);
      assert Spliced(UserBlocks(m), []) == UserBlocks(m);
    }
    return [m];
  }

  function BlocksAt(byMsg: map<nat, seq<Block>>, i: nat): seq<Block> {
    if i in byMsg then byMsg[i] else []
  }

  method Reassemble(ms: seq<Message>, last: int, drops: seq<Spot>, inserts: map<nat, seq<Block>>)
    returns (out: seq<Message>)
    requires last < |ms| && DropsHold(ms, last, drops) && InsertsMatch(ms, last, inserts)
    ensures out == Rebuilt(ms, last, |ms|)
  {
    hide InsertsMatch, Segment, Prepend, DropsHold, Inserts, RewriteUser, Rebuilt;
    var dropsByMsg := GroupDrops(drops);
    var prependByMsg: map<nat, seq<Block>> := map[];
    out := [];
    RebuiltNothing(ms, last);
    PrependNothing(ms, last);
    for i := 0 to |ms|
      invariant out == Rebuilt(ms, last, i)
      invariant i < |ms| && IsUser(ms[i]) ==>
                  BlocksAt(prependByMsg, i) == Prepend(ms, last, i)
      invariant forall k :: k in prependByMsg ==> k <= i
    {
      RebuiltStep(ms, last, i);
      InsertsAt(ms, last, inserts, i);
      var msg := ms[i];
      if IsUser(msg) {
        var dropped := if i in dropsByMsg then dropsByMsg[i] else {};
        var prepend := BlocksAt(prependByMsg, i);
        DroppedHere(ms, last, drops, i, dropped);
        var current := RewriteUserMessage(ms, last, i, dropped, prepend);
        out := out + current;
      } else {
        out := out + [msg];
        if i in inserts {
          if NextIsUser(ms, i) {
            prependByMsg := prependByMsg[i + 1 := BlocksAt(prependByMsg, i + 1) + inserts[i]];
          } else {
            out := out + [ResultMessage(inserts[i])];
          }
        }
      }
    }
  }

  lemma RebuiltNothing(ms: seq<Message>, last: int)
    requires last < |ms|
    ensures Rebuilt(ms, last, 0) == []
  {
  }

  lemma PrependNothing(ms: seq<Message>, last: int)
    requires last < |ms|
    ensures 0 < |ms| ==> Prepend(ms, last, 0) == []
  {
  }

  /** What the insert plans say about one message. */
  lemma InsertsAt(ms: seq<Message>, last: int, inserts: map<nat, seq<Block>>, i: nat)
    requires i < |ms| && last < |ms| && InsertsMatch(ms, last, inserts)
    ensures (if i in inserts then inserts[i] else []) == Inserts(ms, last, i)
    ensures i in inserts ==> !IsUser(ms[i])
    ensures i + 1 < |ms| ==> Prepend(ms, last, i + 1) == Inserts(ms, last, i)
    ensures Segment(ms, last, i) ==
            if IsUser(ms[i]) then RewriteUser(ms, last, i)
            else [ms[i]] + if i in inserts && !NextIsUser(ms, i) then [ResultMessage(inserts[i])] else []
  {
    hide Inserts, RewriteUser;
    if IsUser(ms[i]) {
      UserInsertsNothing(ms, last, i);
    }
  }

  lemma UserInsertsNothing(ms: seq<Message>, last: int, i: nat)
    requires i < |ms| && last < |ms| && IsUser(ms[i])
    ensures Inserts(ms, last, i) == []
  {
  }

  lemma DroppedHere(ms: seq<Message>, last: int, drops: seq<Spot>, j: nat, dropped: set<nat>)
    requires j < |ms| && last < |ms| && DropsHold(ms, last, drops)
    requires forall b: nat :: b in dropped <==> Spot(j, b) in drops
    ensures DroppedFrom(ms, last, j, dropped) && forall b :: b in dropped ==> b < |UserBlocks(ms[j])|
  {
    hide Stays;
    forall b: nat | b in dropped
      ensures b < |UserBlocks(ms[j])|
    {
      assert Spot(j, b) in drops;
    }
  }

  /** Nothing to drop and nothing to insert is exactly a clean history. */
  lemma CleanIffNothingToDo(ms: seq<Message>, last: int, drops: seq<Spot>, inserts: map<nat, seq<Block>>)
    requires last < |ms| && DropsHold(ms, last, drops) && InsertsMatch(ms, last, inserts)
    ensures drops == [] && inserts == map[] <==> Clean(ms, last)
  {
    hide Stays, Inserts;
    assert drops != [] ==> drops[0] in drops;
    if drops == [] && inserts == map[] {
      forall j: nat, b: nat | j < |ms| && b < |UserBlocks(ms[j])| && IsToolResult(UserBlocks(ms[j])[b])
        ensures Stays(ms, last, j, b)
      {
        assert !Goes(ms, last, Spot(j, b));
      }
    }
  }

  /** Repair, pass by pass: the result is the repaired history, or None when there is nothing to do. */
  method RepairToolExchangeAdjacency(ms: seq<Message>) returns (out: Option<seq<Message>>)
    ensures out == RepairAdjacency(ms)
  {
    hide PoolHolds, Pairing, Relaying, PlansMatch, DropsHold, InsertsMatch, Clean, Rebuilt, Before, OrphansIn;
    var ids := CollectCallIds(ms);
    var pool, orphans := CollectResults(ms, ids);
    var last := FindLastConversationIndex(ms);
    OrphansAre(ms, ids, orphans);
    var consumed, drops, plans, missing;
    ghost var done;
    consumed, drops, plans, missing, done := PairByPosition(ms, last, ids, orphans);
    consumed, drops, plans, done := RelayWithinReach(ms, last, ids, pool, missing, consumed, drops, plans, done);
    var dropped := DropLeftovers(pool, consumed, drops);
    DropsAddUp(ms, last, ids, pool, done, consumed, drops, plans, missing, dropped);
    PlansFromLedger(ms, last, ids, done, consumed, drops, plans, missing);
    var inserts := OrderPlans(ms, last, plans);
    CleanIffNothingToDo(ms, last, dropped, inserts);
    if |dropped| == 0 && |inserts| == 0 {
      return None;
    }
    var rebuilt := Reassemble(ms, last, dropped, inserts);
    return Some(rebuilt);
  }

  lemma OrphansAre(ms: seq<Message>, ids: set<Id>, orphans: seq<Spot>)
    requires OrphansIn(ms, ids, orphans, Spot(|ms|, 0))
    ensures forall p :: p in orphans <==> Orphan(ms, ids, p)
  {
  }

  lemma PlansFromLedger(ms: seq<Message>, last: int, ids: set<Id>, done: iset<Spot>, consumed: set<Spot>,
                        drops: seq<Spot>, plans: Plans, missing: seq<Missing>)
    requires last == LastConversationIndex(ms)
    requires Relaying(ms, last, ids, done, consumed, drops, plans, missing, |missing|)
    ensures PlansMatch(ms, last, plans)
  {
    hide PlansHold, PlansMatch, CallAt;
    AllDone(ms, last, ids, done, consumed, drops, plans, missing);
    PlansAddUp(ms, last, done, plans);
  }
}
