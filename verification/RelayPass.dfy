/** The third pass of the repair: results further on are relayed to calls, within the reach of each exchange. */
module RelayPass {
  import opened Common
  import opened Messages
  import opened Repair
  import opened Ownership
  import opened RepairPool
  import opened PairingPass

  // Pass B2: relaying results from further on, within reach

  function IndicesOf(indices: map<Id, seq<nat>>, x: Id): seq<nat> {
    if x in indices then indices[x] else []
  }

  ghost predicate Ascending(s: seq<nat>) {
    forall a, b :: 0 <= a < b < |s| ==> s[a] <= s[b]
  }

  ghost predicate CallsBy(ms: seq<Message>, x: Id, j: nat, end: Spot) {
    exists c :: CallAt(ms, c) && CallBlock(ms, c).id == x && c.msg == j && Before(c, end)
  }

  /** Per id, the messages that call it before `end`, in order. */
  ghost predicate IndicesHold(ms: seq<Message>, indices: map<Id, seq<nat>>, end: Spot) {
    && (forall x :: Ascending(IndicesOf(indices, x)))
    && (forall x, j :: j in IndicesOf(indices, x) <==> CallsBy(ms, x, j, end))
  }

  lemma CallsByStep(ms: seq<Message>, x: Id, j: nat, c: Spot)
    ensures CallsBy(ms, x, j, Spot(c.msg, c.blk + 1)) <==>
            CallsBy(ms, x, j, c) || (CallAt(ms, c) && CallBlock(ms, c).id == x && c.msg == j)
  {
    BeforeNext(c);
  }

  lemma AscendingAppend(s: seq<nat>, n: nat)
    requires Ascending(s) && forall j :: j in s ==> j <= n
    ensures Ascending(s + [n])
  {
    assert forall a :: 0 <= a < |s| ==> s[a] in s;
  }

  lemma IndicesStep(ms: seq<Message>, indices: map<Id, seq<nat>>, c: Spot)
    requires c.msg < |ms| && c.blk < |AssistantBlocks(ms[c.msg])| && IndicesHold(ms, indices, c)
    ensures var block := AssistantBlocks(ms[c.msg])[c.blk];
            var end := Spot(c.msg, c.blk + 1);
            if IsToolUse(block)
            then IndicesHold(ms, indices[block.id := IndicesOf(indices, block.id) + [c.msg]], end)
            else IndicesHold(ms, indices, end)
  {
    hide CallsBy;
    var end := Spot(c.msg, c.blk + 1);
    var block := AssistantBlocks(ms[c.msg])[c.blk];
    var next := if IsToolUse(block) then indices[block.id := IndicesOf(indices, block.id) + [c.msg]] else indices;
    forall x
      ensures Ascending(IndicesOf(next, x))
    {
      var was := IndicesOf(indices, x);
      assert Ascending(was);
      forall j | j in was
        ensures j <= c.msg
      {
        assert CallsBy(ms, x, j, c);
        CallsByBound(ms, x, j, c);
      }
      AscendingAppend(was, c.msg);
    }
    forall x, j
      ensures j in IndicesOf(next, x) <==> CallsBy(ms, x, j, end)
    {
      CallsByStep(ms, x, j, c);
    }
  }

  lemma CallsByBound(ms: seq<Message>, x: Id, j: nat, end: Spot)
    requires CallsBy(ms, x, j, end)
    ensures j <= end.msg && j < |ms| && CallCount(AssistantBlocks(ms[j]), x) > 0
  {
    hide CallCount;
    var c :| CallAt(ms, c) && CallBlock(ms, c).id == x && c.msg == j && Before(c, end);
    SomeCall(AssistantBlocks(ms[j]), c.blk);
  }

  lemma IndicesNext(ms: seq<Message>, indices: map<Id, seq<nat>>, i: nat)
    requires i < |ms| && IndicesHold(ms, indices, Spot(i, |AssistantBlocks(ms[i])|))
    ensures IndicesHold(ms, indices, Spot(i + 1, 0))
  {
    hide CallAt;
    NextMessageFrom(ms, i);
    forall x, j: nat
      ensures CallsBy(ms, x, j, Spot(i, |AssistantBlocks(ms[i])|)) <==> CallsBy(ms, x, j, Spot(i + 1, 0))
    {
    }
  }

  method CollectCallIndices(ms: seq<Message>, last: int) returns (indices: map<Id, seq<nat>>)
    requires last == LastConversationIndex(ms)
    ensures IndicesHold(ms, indices, Spot(last + 1, 0))
  {
    indices := map[];
    for i := 0 to last + 1
      invariant IndicesHold(ms, indices, Spot(i, 0))
    {
      hide IndicesHold;
      var bs := AssistantBlocks(ms[i]);
      for b := 0 to |bs|
        invariant IndicesHold(ms, indices, Spot(i, b))
      {
        IndicesStep(ms, indices, Spot(i, b));
        if IsToolUse(bs[b]) {
          indices := indices[bs[b].id := IndicesOf(indices, bs[b].id) + [i]];
        }
      }
      IndicesNext(ms, indices, i);
    }
  }

  /** `n` is the first index beyond `i`; `none` stands for infinity. */
  ghost predicate IsFirstBeyond(indices: seq<nat>, i: nat, none: nat, n: nat) {
    if forall j :: j in indices ==> j <= i then n == none
    else i < n && exists s :: 0 <= s < |indices| && indices[s] == n && forall t :: 0 <= t < s ==> indices[t] <= i
  }

  method FirstBeyond(indices: seq<nat>, i: nat, none: nat) returns (n: nat)
    ensures IsFirstBeyond(indices, i, none, n)
  {
    for s := 0 to |indices|
      invariant forall t :: 0 <= t < s ==> indices[t] <= i
    {
      if indices[s] > i {
        assert indices[s] in indices;
        return indices[s];
      }
    }
    return none;
  }

  /** The next message that calls the same id bounds what belongs to a call. */
  lemma BeyondIsNextExchange(ms: seq<Message>, last: int, indices: map<Id, seq<nat>>, c: Spot, n: nat)
    requires last == LastConversationIndex(ms) && IndicesHold(ms, indices, Spot(last + 1, 0)) && CallAt(ms, c)
    requires IsFirstBeyond(IndicesOf(indices, CallBlock(ms, c).id), c.msg, |ms|, n)
    ensures n == NextExchange(ms, CallBlock(ms, c).id, c.msg)
  {
    hide CallCount, CallsBy, IsFirstBeyond, Ascending, LastConversationIndex, IndicesOf;
    var x := CallBlock(ms, c).id;
    var l := IndicesOf(indices, x);
    var e := NextExchange(ms, x, c.msg);
    if e < |ms| {
      CallingMessage(ms, last, x, e);
    }
    forall j | j in l && c.msg < j
      ensures e <= j && j < |ms|
    {
      assert CallsBy(ms, x, j, Spot(last + 1, 0));
      CallsByBound(ms, x, j, Spot(last + 1, 0));
    }
    assert Ascending(l);
    FirstBeyondIs(l, c.msg, |ms|, n, e);
  }

  lemma FirstBeyondIs(l: seq<nat>, i: nat, none: nat, n: nat, e: nat)
    requires Ascending(l) && IsFirstBeyond(l, i, none, n)
    requires i < e <= none && (e < none ==> e in l)
    requires forall j :: j in l && i < j ==> e <= j < none
    ensures n == e
  {
    if !(forall j :: j in l ==> j <= i) {
      var s :| 0 <= s < |l| && l[s] == n && forall t :: 0 <= t < s ==> l[t] <= i;
      assert l[s] in l;
      var u :| 0 <= u < |l| && l[u] == e;
    }
  }

  lemma CallingMessage(ms: seq<Message>, last: int, x: Id, e: nat)
    requires last == LastConversationIndex(ms) && e < |ms| && CallCount(AssistantBlocks(ms[e]), x) > 0
    ensures e <= last && CallsBy(ms, x, e, Spot(last + 1, 0))
  {
    var k := NthCall(AssistantBlocks(ms[e]), x, 0);
    assert CallAt(ms, Spot(e, k));
    CallsUpToLast(ms, Spot(e, k));
  }

  ghost predicate FirstInReach(pool: seq<Spot>, consumed: set<Spot>, lo: nat, hi: nat, hit: Option<Spot>) {
    match hit
    case None => forall p :: p in pool && lo < p.msg < hi ==> p in consumed
    case Some(p) =>
      && p !in consumed && lo < p.msg < hi
      && exists s :: 0 <= s < |pool| && pool[s] == p &&
                     forall t :: 0 <= t < s && lo < pool[t].msg < hi ==> pool[t] in consumed
  }

  method FindInReach(pool: seq<Spot>, consumed: set<Spot>, lo: nat, hi: nat) returns (hit: Option<Spot>)
    ensures FirstInReach(pool, consumed, lo, hi, hit)
  {
    for s := 0 to |pool|
      invariant forall t :: 0 <= t < s && lo < pool[t].msg < hi ==> pool[t] in consumed
    {
      if pool[s] !in consumed && lo < pool[s].msg < hi {
        return Some(pool[s]);
      }
    }
    return None;
  }

  /** The calls dealt with once the first `t` missing ones are relayed. */
  ghost predicate RelayDone(ms: seq<Message>, done: iset<Spot>, missing: seq<Missing>, t: nat)
    requires t <= |missing|
  {
    forall c :: c in done <==> CallAt(ms, c) && (Adjacent(ms, c) || exists s :: 0 <= s < t && missing[s].at == c)
  }

  /** Among the calls that could own a result in reach of a missing one, the earlier ones are done. */
  lemma RelayOrder(ms: seq<Message>, last: int, done: iset<Spot>, missing: seq<Missing>, t: nat, d: Spot, q: Spot)
    requires -1 <= last && t < |missing| && RelayDone(ms, done, missing, t)
    requires MissingHolds(ms, last, missing, Spot(last + 1, 0))
    requires var c := missing[t].at;
             CallAt(ms, c) && !Adjacent(ms, c) && c.msg <= last && InReach(ms, c, q) && Owns(ms, d, q) && d.msg == c.msg
    ensures d in done <==> d.blk < missing[t].at.blk
  {
    hide InReach, Owns, CallAt, Adjacent;
    var c := missing[t].at;
    OwnsCall(ms, d, q);
    if d.blk < c.blk && !Adjacent(ms, d) {
      var s :| 0 <= s < |missing| && missing[s].at == d;
      assert t < s ==> Before(missing[t].at, missing[s].at);
    }
    if d in done {
      if Adjacent(ms, d) {
        AdjacentEarlier(ms, c, d, q);
      } else {
        var s :| 0 <= s < t && missing[s].at == d;
      }
    }
  }

  lemma AdjacentEarlier(ms: seq<Message>, c: Spot, d: Spot, q: Spot)
    requires CallAt(ms, c) && !Adjacent(ms, c) && InReach(ms, c, q)
    requires Owns(ms, d, q) && d.msg == c.msg && Adjacent(ms, d)
    ensures d.blk < c.blk
  {
    hide Owns, CallAt, InReach;
    var p :| Owns(ms, d, p) && p.msg == d.msg + 1;
    OneResult(ms, d, p, q);
    if c.blk < d.blk {
      AdjacentLater(ms, c, d, q);
    }
  }

  lemma AdjacentLater(ms: seq<Message>, c: Spot, d: Spot, q: Spot)
    requires CallAt(ms, c) && InReach(ms, c, q) && q.msg == c.msg + 1
    requires Owns(ms, d, q) && d.msg == c.msg && c.blk < d.blk
    ensures Adjacent(ms, c)
  {
    hide CallRank, ResultRank, NextExchange;
    OwnerInReach(ms, c, d, q);
    CallRankLess(ms, c, d);
    RankInReach(ms, c, q);
    var r := OwnedResult(ms, c);
    if Before(q, r) {
      RankLess(ms, c.msg + 1, q, r);
    }
  }

  lemma RelayClaimed(ms: seq<Message>, last: int, done: iset<Spot>, missing: seq<Missing>, t: nat, q: Spot)
    requires -1 <= last && t < |missing| && RelayDone(ms, done, missing, t)
    requires MissingHolds(ms, last, missing, Spot(last + 1, 0))
    requires MissingCall(ms, last, missing[t]) && missing[t].at.msg <= last && InReach(ms, missing[t].at, q)
    ensures var c := missing[t].at;
            Claimed(ms, done, q) <==> ResultRank(ms, c.msg + 1, q) < CallRank(ms, c)
  {
    hide CallRank, ResultRank, NextExchange, Owns, Adjacent, Claimed, RelayDone, MissingHolds, InReach, CallAt;
    var c := missing[t].at;
    forall d | Owns(ms, d, q) && d.msg == c.msg
      ensures d in done <==> d.blk < c.blk
    {
      RelayOrder(ms, last, done, missing, t, d, q);
    }
    ConsumedIffEarlier(ms, done, c, q);
  }

  /** What the search in the pool finds is what the call owns. */
  lemma RelayFound(ms: seq<Message>, last: int, ids: set<Id>, pool: seq<Spot>, done: iset<Spot>, consumed: set<Spot>,
                   missing: seq<Missing>, t: nat, hit: Option<Spot>)
    requires -1 <= last && t < |missing| && RelayDone(ms, done, missing, t)
    requires MissingHolds(ms, last, missing, Spot(last + 1, 0))
    requires forall p :: p in consumed <==> Claimed(ms, done, p)
    requires MissingCall(ms, last, missing[t]) && missing[t].at.msg <= last
    requires InOrder(pool) && forall p :: p in pool <==> ResultAt(ms, p) && ResultBlock(ms, p).id == missing[t].id
    requires var c := missing[t].at;
             FirstInReach(pool, consumed, c.msg, NextExchange(ms, missing[t].id, c.msg), hit)
    ensures hit.Some? ==> Owns(ms, missing[t].at, hit.value) && !InPosition(ms, missing[t].at, hit.value)
    ensures hit.None? ==> forall p :: !Owns(ms, missing[t].at, p)
  {
    hide CallRank, ResultRank, NextExchange, Owns, Adjacent, Claimed, RelayDone, MissingHolds, Leading, InOrder;
    var c := missing[t].at;
    forall q | InReach(ms, c, q)
      ensures q in consumed <==> ResultRank(ms, c.msg + 1, q) < CallRank(ms, c)
      ensures q in pool
    {
      RelayClaimed(ms, last, done, missing, t, q);
    }
    match hit
    case Some(p) =>
      PoolOrder(ms, pool, consumed, c, p);
      FirstFree(ms, c, p);
      NotInPosition(ms, c, p);
    case None =>
      forall p
        ensures !Owns(ms, c, p)
      {
        NoneFree(ms, c, p);
      }
  }

  /** Everything in reach before the first unconsumed result in a pool is consumed. */
  lemma PoolOrder(ms: seq<Message>, pool: seq<Spot>, consumed: set<Spot>, c: Spot, p: Spot)
    requires CallAt(ms, c) && InOrder(pool)
    requires forall q :: q in pool <==> ResultAt(ms, q) && ResultBlock(ms, q).id == CallBlock(ms, c).id
    requires FirstInReach(pool, consumed, c.msg, NextExchange(ms, CallBlock(ms, c).id, c.msg), Some(p))
    ensures InReach(ms, c, p) && p !in consumed
    ensures forall q :: InReach(ms, c, q) && Before(q, p) ==> q in consumed
  {
    hide NextExchange, InOrder, ResultAt, ResultBlock, CallAt, CallBlock;
    var n := NextExchange(ms, CallBlock(ms, c).id, c.msg);
    var s :| 0 <= s < |pool| && pool[s] == p
             && forall u :: 0 <= u < s && c.msg < pool[u].msg < n ==> pool[u] in consumed;
    assert p in pool;
    forall q | InReach(ms, c, q) && Before(q, p)
      ensures q in consumed
    {
      assert q in pool;
      var u :| 0 <= u < |pool| && pool[u] == q;
      InOrderAt(pool, s, u);
    }
  }

  lemma InOrderAt(spots: seq<Spot>, s: nat, t: nat)
    requires InOrder(spots) && s < |spots| && t < |spots|
    ensures s < t ==> Before(spots[s], spots[t])
  {
  }

  lemma NotInPosition(ms: seq<Message>, c: Spot, p: Spot)
    requires Owns(ms, c, p) && !Adjacent(ms, c)
    ensures !InPosition(ms, c, p)
  {
  }

  ghost predicate Relaying(ms: seq<Message>, last: int, ids: set<Id>, done: iset<Spot>, consumed: set<Spot>,
                           drops: seq<Spot>, plans: Plans, missing: seq<Missing>, t: nat)
    requires -1 <= last && t <= |missing|
  {
    && Ledger(ms, last, ids, done, consumed, drops, plans)
    && RelayDone(ms, done, missing, t)
    && MissingHolds(ms, last, missing, Spot(last + 1, 0))
  }

  lemma RelayStart(ms: seq<Message>, last: int, ids: set<Id>, done: iset<Spot>, consumed: set<Spot>,
                   drops: seq<Spot>, plans: Plans, missing: seq<Missing>)
    requires last == LastConversationIndex(ms)
    requires Pairing(ms, last, ids, done, consumed, drops, plans, missing, Spot(last + 1, 0))
    ensures Relaying(ms, last, ids, done, consumed, drops, plans, missing, 0)
  {
    hide Ledger, MissingHolds, Adjacent, CallAt;
    forall c | CallAt(ms, c)
      ensures Before(c, Spot(last + 1, 0))
    {
      CallsUpToLast(ms, c);
    }
  }

  lemma MissingBounds(ms: seq<Message>, last: int, ids: set<Id>, done: iset<Spot>, missing: seq<Missing>, t: nat)
    requires -1 <= last && t < |missing| && MissingHolds(ms, last, missing, Spot(last + 1, 0))
             && RelayDone(ms, done, missing, t)
    ensures MissingCall(ms, last, missing[t]) && missing[t].at.msg <= last && missing[t].at !in done
    ensures RelayDone(ms, done + iset{missing[t].at}, missing, t + 1)
  {
    hide CallAt, Adjacent;
    assert Before(missing[t].at, Spot(last + 1, 0));
    assert forall s :: 0 <= s < t ==> Before(missing[s].at, missing[t].at);
  }

  lemma RelayHit(ms: seq<Message>, last: int, ids: set<Id>, pool: seq<Spot>, done: iset<Spot>, consumed: set<Spot>,
                 drops: seq<Spot>, plans: Plans, missing: seq<Missing>, t: nat, p: Spot)
    requires -1 <= last && t < |missing| && Relaying(ms, last, ids, done, consumed, drops, plans, missing, t)
    requires MissingCall(ms, last, missing[t]) && missing[t].at.msg <= last
    requires InOrder(pool) && forall p :: p in pool <==> ResultAt(ms, p) && ResultBlock(ms, p).id == missing[t].id
    requires FirstInReach(pool, consumed, missing[t].at.msg, NextExchange(ms, missing[t].id, missing[t].at.msg),
                          Some(p))
    ensures ResultAt(ms, p)
    ensures var c := missing[t].at;
            if missing[t].trailing
            then Relaying(ms, last, ids, done + iset{c}, consumed + {p}, drops, plans, missing, t + 1)
            else Relaying(ms, last, ids, done + iset{c}, consumed + {p}, drops + [p],
                          RecordInsert(plans, c, ResultBlock(ms, p)), missing, t + 1)
  {
    hide Ledger, MissingHolds, RelayDone, Owns, InPosition, RecordInsert, FirstInReach, NextExchange;
    LedgerConsumed(ms, last, ids, done, consumed, drops, plans);
    MissingBounds(ms, last, ids, done, missing, t);
    RelayFound(ms, last, ids, pool, done, consumed, missing, t, Some(p));
    OwnsCall(ms, missing[t].at, p);
    LedgerHit(ms, last, ids, done, consumed, drops, plans, missing[t].at, p);
  }

  lemma RelayMiss(ms: seq<Message>, last: int, ids: set<Id>, pool: seq<Spot>, done: iset<Spot>, consumed: set<Spot>,
                  drops: seq<Spot>, plans: Plans, missing: seq<Missing>, t: nat)
    requires -1 <= last && t < |missing| && Relaying(ms, last, ids, done, consumed, drops, plans, missing, t)
    requires MissingCall(ms, last, missing[t]) && missing[t].at.msg <= last
    requires InOrder(pool) && forall p :: p in pool <==> ResultAt(ms, p) && ResultBlock(ms, p).id == missing[t].id
    requires FirstInReach(pool, consumed, missing[t].at.msg, NextExchange(ms, missing[t].id, missing[t].at.msg), None)
    ensures var c := missing[t].at;
            var synthetic := ToolResult(missing[t].id, SYNTHETIC_TOOL_RESULT_TEXT);
            Relaying(ms, last, ids, done + iset{c}, consumed, drops,
                     if missing[t].trailing then plans else RecordInsert(plans, c, synthetic), missing, t + 1)
  {
    hide Ledger, MissingHolds, RelayDone, Owns, RecordInsert, FirstInReach, NextExchange;
    LedgerConsumed(ms, last, ids, done, consumed, drops, plans);
    MissingBounds(ms, last, ids, done, missing, t);
    RelayFound(ms, last, ids, pool, done, consumed, missing, t, None);
    LedgerMiss(ms, last, ids, done, consumed, drops, plans, missing[t].at);
  }

  /** The pool of an id that is called holds all its results. */
  lemma PoolComplete(ms: seq<Message>, ids: set<Id>, pool: map<Id, seq<Spot>>, c: Spot)
    requires CallAt(ms, c) && CallBlock(ms, c).id in ids && PoolHolds(ms, ids, pool, Spot(|ms|, 0))
    ensures var l := PoolOf(pool, CallBlock(ms, c).id);
            InOrder(l) && forall p :: p in l <==> ResultAt(ms, p) && ResultBlock(ms, p).id == CallBlock(ms, c).id
  {
    var x := CallBlock(ms, c).id;
    assert forall p :: p in PoolOf(pool, x) <==>
                         ResultAt(ms, p) && ResultBlock(ms, p).id == x && x in ids && Before(p, Spot(|ms|, 0));
  }

  method RelayWithinReach(ms: seq<Message>, last: int, ids: set<Id>, pool: map<Id, seq<Spot>>, missing: seq<Missing>,
                          consumed0: set<Spot>, drops0: seq<Spot>, plans0: Plans, ghost done0: iset<Spot>)
    returns (consumed: set<Spot>, drops: seq<Spot>, plans: Plans, ghost done: iset<Spot>)
    requires last == LastConversationIndex(ms)
    requires forall c :: CallAt(ms, c) ==> CallBlock(ms, c).id in ids
    requires PoolHolds(ms, ids, pool, Spot(|ms|, 0))
    requires Pairing(ms, last, ids, done0, consumed0, drops0, plans0, missing, Spot(last + 1, 0))
    ensures Relaying(ms, last, ids, done, consumed, drops, plans, missing, |missing|)
  {
    hide Relaying, Pairing, PoolHolds, IndicesHold, IsFirstBeyond, FirstInReach, RecordInsert, NextExchange, InOrder;
    consumed, drops, plans, done := consumed0, drops0, plans0, done0;
    RelayStart(ms, last, ids, done, consumed, drops, plans, missing);
    var indices := CollectCallIndices(ms, last);
    for t := 0 to |missing|
      invariant Relaying(ms, last, ids, done, consumed, drops, plans, missing, t)
    {
      var mc := missing[t];
      assert MissingCall(ms, last, mc) && mc.at.msg <= last by {
        RelayingMissing(ms, last, ids, done, consumed, drops, plans, missing, t);
      }
      PoolComplete(ms, ids, pool, mc.at);
      var next := FirstBeyond(IndicesOf(indices, mc.id), mc.at.msg, |ms|);
      BeyondIsNextExchange(ms, last, indices, mc.at, next);
      var hit := FindInReach(PoolOf(pool, mc.id), consumed, mc.at.msg, next);
      match hit {
      case Some(p) =>
        RelayHit(ms, last, ids, PoolOf(pool, mc.id), done, consumed, drops, plans, missing, t, p);
        consumed := consumed + {p};
        if !mc.trailing {
          drops := drops + [p];
          plans := RecordInsert(plans, mc.at, UserBlocks(ms[p.msg])[p.blk]);
        }
      case None =>
        RelayMiss(ms, last, ids, PoolOf(pool, mc.id), done, consumed, drops, plans, missing, t);
        if !mc.trailing {
          plans := RecordInsert(plans, mc.at, ToolResult(mc.id, SYNTHETIC_TOOL_RESULT_TEXT));
        }
      }
      done := done + iset{mc.at};
    }
  }

  lemma RelayingMissing(ms: seq<Message>, last: int, ids: set<Id>, done: iset<Spot>, consumed: set<Spot>,
                        drops: seq<Spot>, plans: Plans, missing: seq<Missing>, t: nat)
    requires -1 <= last && t < |missing| && Relaying(ms, last, ids, done, consumed, drops, plans, missing, t)
    ensures MissingCall(ms, last, missing[t]) && missing[t].at.msg <= last
  {
    MissingBounds(ms, last, ids, done, missing, t);
  }
}
