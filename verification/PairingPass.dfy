/** The second pass of the repair: results that already are where a call needs them. */
module PairingPass {
  import opened Common
  import opened Messages
  import opened Repair
  import opened Ownership
  import opened RepairPool

  // Pass B1: pairing by position

  /** Up to which results in reach of `c` are consumed, when its earlier namesakes are done. */
  lemma ConsumedIffEarlier(ms: seq<Message>, done: iset<Spot>, c: Spot, q: Spot)
    requires CallAt(ms, c) && InReach(ms, c, q)
    requires forall d :: Owns(ms, d, q) && d.msg == c.msg ==> (d in done <==> d.blk < c.blk)
    ensures Claimed(ms, done, q) <==> ResultRank(ms, c.msg + 1, q) < CallRank(ms, c)
  {
    hide Owns, NextExchange, ResultRank, CallRank;
    if d :| d in done && Owns(ms, d, q) {
      OwnerInReach(ms, c, d, q);
      OwnsRank(ms, d, q);
      CallRankLess(ms, d, c);
    }
    if ResultRank(ms, c.msg + 1, q) < CallRank(ms, c) {
      RankBelowCount(ms, c);
      var d := OwnerByRank(ms, c, q);
      OwnsRank(ms, d, q);
      if c.blk < d.blk {
        CallRankLess(ms, c, d);
      }
    }
  }

  lemma OwnsRank(ms: seq<Message>, c: Spot, p: Spot)
    requires Owns(ms, c, p)
    ensures CallAt(ms, c) && InReach(ms, c, p) && ResultRank(ms, c.msg + 1, p) == CallRank(ms, c)
  {
  }

  function NextBlocks(ms: seq<Message>, i: nat): seq<Block> {
    if i + 1 < |ms| then UserBlocks(ms[i + 1]) else []
  }

  /** The first unconsumed result for `x` in the message at `msg`, if there is one. */
  ghost predicate FirstUnconsumed(next: seq<Block>, x: Id, msg: nat, consumed: set<Spot>, hit: Option<nat>) {
    match hit
    case None => forall b :: 0 <= b < |next| && IsResultOf(next[b], x) ==> Spot(msg, b) in consumed
    case Some(h) =>
      && h < |next| && IsResultOf(next[h], x) && Spot(msg, h) !in consumed
      && forall b :: 0 <= b < h && IsResultOf(next[b], x) ==> Spot(msg, b) in consumed
  }

  method FindAdjacent(next: seq<Block>, x: Id, msg: nat, consumed: set<Spot>) returns (hit: Option<nat>)
    ensures FirstUnconsumed(next, x, msg, consumed, hit)
  {
    for b := 0 to |next|
      invariant forall k :: 0 <= k < b && IsResultOf(next[k], x) ==> Spot(msg, k) in consumed
    {
      if IsResultOf(next[b], x) && Spot(msg, b) !in consumed {
        return Some(b);
      }
    }
    return None;
  }

  /** The calls that pairing by position has dealt with before `end`. */
  ghost predicate PositionDone(ms: seq<Message>, done: iset<Spot>, end: Spot) {
    forall c :: c in done <==> CallAt(ms, c) && Before(c, end) && Adjacent(ms, c)
  }

  ghost predicate MissingHolds(ms: seq<Message>, last: int, missing: seq<Missing>, end: Spot) {
    && (forall s, t :: 0 <= s < t < |missing| ==> Before(missing[s].at, missing[t].at))
    && (forall t :: 0 <= t < |missing| ==> MissingCall(ms, last, missing[t]) && Before(missing[t].at, end))
    && (forall c :: CallAt(ms, c) && Before(c, end) && !Adjacent(ms, c) ==>
          exists t :: 0 <= t < |missing| && missing[t].at == c)
  }

  ghost predicate MissingCall(ms: seq<Message>, last: int, mc: Missing) {
    && CallAt(ms, mc.at) && !Adjacent(ms, mc.at)
    && mc.id == CallBlock(ms, mc.at).id && mc.trailing == (mc.at.msg >= last)
  }

  /** What the search in the next message finds is what the call owns there. */
  lemma AdjacentFound(ms: seq<Message>, done: iset<Spot>, consumed: set<Spot>, c: Spot, hit: Option<nat>)
    requires CallAt(ms, c) && PositionDone(ms, done, c)
    requires forall p :: p in consumed <==> Claimed(ms, done, p)
    requires FirstUnconsumed(NextBlocks(ms, c.msg), CallBlock(ms, c).id, c.msg + 1, consumed, hit)
    ensures hit.Some? ==> Owns(ms, c, Spot(c.msg + 1, hit.value))
    ensures hit.None? ==> !Adjacent(ms, c)
  {
    hide ResultRank, CallRank, NextExchange, Claimed;
    var x := CallBlock(ms, c).id;
    match hit
    case Some(b) =>
      var p := Spot(c.msg + 1, b);
      NextInReach(ms, c, p);
      AdjacentClaimed(ms, done, c, p);
      forall q | InReach(ms, c, q) && Before(q, p)
        ensures ResultRank(ms, c.msg + 1, q) < CallRank(ms, c)
      {
        AdjacentClaimed(ms, done, c, q);
      }
      FirstFree(ms, c, p);
    case None =>
      if p :| Owns(ms, c, p) && p.msg == c.msg + 1 {
        AdjacentClaimed(ms, done, c, p);
      }
  }

  lemma NextInReach(ms: seq<Message>, c: Spot, p: Spot)
    requires CallAt(ms, c) && ResultAt(ms, p) && p.msg == c.msg + 1 && ResultBlock(ms, p).id == CallBlock(ms, c).id
    ensures InReach(ms, c, p)
  {
    RankInNextMessage(ms, c, p);
  }

  lemma AdjacentClaimed(ms: seq<Message>, done: iset<Spot>, c: Spot, q: Spot)
    requires CallAt(ms, c) && PositionDone(ms, done, c) && InReach(ms, c, q) && q.msg == c.msg + 1
    ensures Claimed(ms, done, q) <==> ResultRank(ms, c.msg + 1, q) < CallRank(ms, c)
  {
    hide ResultRank, CallRank, NextExchange, InReach, Owns, CallAt, Claimed;
    forall d | Owns(ms, d, q) && d.msg == c.msg
      ensures d in done <==> d.blk < c.blk
    {
      OwnsCall(ms, d, q);
      assert Adjacent(ms, d);
    }
    ConsumedIffEarlier(ms, done, c, q);
  }

  lemma BeforeNext(c: Spot)
    ensures forall d: Spot :: Before(d, Spot(c.msg, c.blk + 1)) <==> Before(d, c) || d == c
  {
  }

  lemma MissingAppend(ms: seq<Message>, last: int, missing: seq<Missing>, c: Spot)
    requires CallAt(ms, c) && MissingHolds(ms, last, missing, c)
    ensures Adjacent(ms, c) ==> MissingHolds(ms, last, missing, Spot(c.msg, c.blk + 1))
    ensures !Adjacent(ms, c) ==>
              MissingHolds(ms, last, missing + [Missing(c, CallBlock(ms, c).id, c.msg >= last)], Spot(c.msg, c.blk + 1))
  {
    hide CallAt, Adjacent;
    var end := Spot(c.msg, c.blk + 1);
    var next := missing + [Missing(c, CallBlock(ms, c).id, c.msg >= last)];
    BeforeNext(c);
    assert next[|missing|].at == c;
    forall d | CallAt(ms, d) && Before(d, c) && !Adjacent(ms, d)
      ensures exists t :: 0 <= t < |next| && next[t].at == d
    {
      var t :| 0 <= t < |missing| && missing[t].at == d;
      assert next[t].at == d;
    }
  }

  lemma MissingShift(ms: seq<Message>, last: int, missing: seq<Missing>, done: iset<Spot>, a: Spot, b: Spot)
    requires forall c :: CallAt(ms, c) ==> (Before(c, a) <==> Before(c, b))
    requires MissingHolds(ms, last, missing, a) && PositionDone(ms, done, a)
    ensures MissingHolds(ms, last, missing, b) && PositionDone(ms, done, b)
  {
    hide CallAt, Adjacent;
  }

  /** The state of pairing by position when all calls before `end` have been visited. */
  ghost predicate Pairing(ms: seq<Message>, last: int, ids: set<Id>, done: iset<Spot>, consumed: set<Spot>,
                          drops: seq<Spot>, plans: Plans, missing: seq<Missing>, end: Spot) {
    && Ledger(ms, last, ids, done, consumed, drops, plans)
    && PositionDone(ms, done, end)
    && MissingHolds(ms, last, missing, end)
  }

  method PairByPosition(ms: seq<Message>, last: int, ids: set<Id>, orphans: seq<Spot>)
    returns (consumed: set<Spot>, drops: seq<Spot>, plans: Plans, missing: seq<Missing>, ghost done: iset<Spot>)
    requires last == LastConversationIndex(ms)
    requires forall p :: p in orphans <==> Orphan(ms, ids, p)
    ensures Pairing(ms, last, ids, done, consumed, drops, plans, missing, Spot(last + 1, 0))
  {
    hide Pairing, Leading, RecordInsert, FirstUnconsumed, NextBlocks, Orphan, Before;
    consumed, drops, plans, missing, done := {}, orphans, map[], [], iset{};
    PairStart(ms, last, ids, orphans);
    for i := 0 to last + 1
      invariant Pairing(ms, last, ids, done, consumed, drops, plans, missing, Spot(i, 0))
    {
      var bs := AssistantBlocks(ms[i]);
      var next := NextBlocks(ms, i);
      var leading := LeadingToolResultCount(next);
      for b := 0 to |bs|
        invariant Pairing(ms, last, ids, done, consumed, drops, plans, missing, Spot(i, b))
      {
        ghost var c := Spot(i, b);
        if IsToolUse(bs[b]) {
          var hit := FindAdjacent(next, bs[b].id, i + 1, consumed);
          match hit
          case Some(h) =>
            PairHit(ms, last, ids, done, consumed, drops, plans, missing, c, h);
            consumed := consumed + {Spot(i + 1, h)};
            if i < last && leading <= h {
              drops := drops + [Spot(i + 1, h)];
              plans := RecordInsert(plans, Spot(i, b), next[h]);
            }
            done := done + iset{c};
          case None =>
            PairMiss(ms, last, ids, done, consumed, drops, plans, missing, c);
            missing := missing + [Missing(Spot(i, b), bs[b].id, i >= last)];
        } else {
          PairSkip(ms, last, ids, done, consumed, drops, plans, missing, c, Spot(i, b + 1));
        }
      }
      PairNextMessage(ms, last, ids, done, consumed, drops, plans, missing, i);
    }
  }

  lemma PairStart(ms: seq<Message>, last: int, ids: set<Id>, orphans: seq<Spot>)
    requires forall p :: p in orphans <==> Orphan(ms, ids, p)
    ensures Pairing(ms, last, ids, iset{}, {}, orphans, map[], [], Spot(0, 0))
  {
    hide Owns, Adjacent, CallAt;
  }

  lemma PairNextMessage(ms: seq<Message>, last: int, ids: set<Id>, done: iset<Spot>, consumed: set<Spot>,
                        drops: seq<Spot>, plans: Plans, missing: seq<Missing>, i: nat)
    requires i < |ms|
    requires Pairing(ms, last, ids, done, consumed, drops, plans, missing, Spot(i, |AssistantBlocks(ms[i])|))
    ensures Pairing(ms, last, ids, done, consumed, drops, plans, missing, Spot(i + 1, 0))
  {
    NextMessageFrom(ms, i);
    PairShift(ms, last, ids, done, consumed, drops, plans, missing, Spot(i, |AssistantBlocks(ms[i])|), Spot(i + 1, 0));
  }

  lemma PairHit(ms: seq<Message>, last: int, ids: set<Id>, done: iset<Spot>, consumed: set<Spot>,
                drops: seq<Spot>, plans: Plans, missing: seq<Missing>, c: Spot, h: nat)
    requires Pairing(ms, last, ids, done, consumed, drops, plans, missing, c)
    requires CallAt(ms, c) && c.msg <= last
    requires FirstUnconsumed(NextBlocks(ms, c.msg), CallBlock(ms, c).id, c.msg + 1, consumed, Some(h))
    ensures h < |NextBlocks(ms, c.msg)|
    ensures var p := Spot(c.msg + 1, h);
            var end := Spot(c.msg, c.blk + 1);
            if c.msg < last && Leading(NextBlocks(ms, c.msg)) <= h
            then Pairing(ms, last, ids, done + iset{c}, consumed + {p}, drops + [p],
                         RecordInsert(plans, c, NextBlocks(ms, c.msg)[h]), missing, end)
            else Pairing(ms, last, ids, done + iset{c}, consumed + {p}, drops, plans, missing, end)
  {
    hide Ledger, PositionDone, MissingHolds, Owns, Adjacent, InPosition, Leading, RecordInsert, CallAt, CallBlock;
    var p := Spot(c.msg + 1, h);
    LedgerConsumed(ms, last, ids, done, consumed, drops, plans);
    AdjacentFound(ms, done, consumed, c, Some(h));
    OwnsNextInPosition(ms, c, p);
    MissingAppend(ms, last, missing, c);
    NotYetDone(ms, done, c);
    LedgerHit(ms, last, ids, done, consumed, drops, plans, c, p);
    PositionStep(ms, done, c, true);
  }

  lemma PairMiss(ms: seq<Message>, last: int, ids: set<Id>, done: iset<Spot>, consumed: set<Spot>,
                 drops: seq<Spot>, plans: Plans, missing: seq<Missing>, c: Spot)
    requires Pairing(ms, last, ids, done, consumed, drops, plans, missing, c)
    requires CallAt(ms, c) && c.msg <= last
    requires FirstUnconsumed(NextBlocks(ms, c.msg), CallBlock(ms, c).id, c.msg + 1, consumed, None)
    ensures Pairing(ms, last, ids, done, consumed, drops, plans,
                    missing + [Missing(c, CallBlock(ms, c).id, c.msg >= last)], Spot(c.msg, c.blk + 1))
  {
    hide Ledger, PositionDone, MissingHolds, Owns, Adjacent;
    LedgerConsumed(ms, last, ids, done, consumed, drops, plans);
    AdjacentFound(ms, done, consumed, c, None);
    MissingAppend(ms, last, missing, c);
    PositionStep(ms, done, c, false);
  }

  lemma PairShift(ms: seq<Message>, last: int, ids: set<Id>, done: iset<Spot>, consumed: set<Spot>,
                  drops: seq<Spot>, plans: Plans, missing: seq<Missing>, a: Spot, b: Spot)
    requires Pairing(ms, last, ids, done, consumed, drops, plans, missing, a)
    requires forall c :: CallAt(ms, c) ==> (Before(c, a) <==> Before(c, b))
    ensures Pairing(ms, last, ids, done, consumed, drops, plans, missing, b)
  {
    hide Ledger, PositionDone, MissingHolds;
    MissingShift(ms, last, missing, done, a, b);
  }

  lemma PairSkip(ms: seq<Message>, last: int, ids: set<Id>, done: iset<Spot>, consumed: set<Spot>,
                 drops: seq<Spot>, plans: Plans, missing: seq<Missing>, c: Spot, end: Spot)
    requires Pairing(ms, last, ids, done, consumed, drops, plans, missing, c)
    requires !CallAt(ms, c) && end == Spot(c.msg, c.blk + 1)
    ensures Pairing(ms, last, ids, done, consumed, drops, plans, missing, end)
  {
    BeforeNext(c);
    PairShift(ms, last, ids, done, consumed, drops, plans, missing, c, end);
  }

  lemma LedgerConsumed(ms: seq<Message>, last: int, ids: set<Id>, done: iset<Spot>,
                       consumed: set<Spot>, drops: seq<Spot>, plans: Plans)
    requires Ledger(ms, last, ids, done, consumed, drops, plans)
    ensures forall p :: p in consumed <==> Claimed(ms, done, p)
  {
  }

  lemma OwnsNextInPosition(ms: seq<Message>, c: Spot, p: Spot)
    requires Owns(ms, c, p) && p.msg == c.msg + 1
    ensures Adjacent(ms, c) && ResultAt(ms, p) && NextBlocks(ms, c.msg) == UserBlocks(ms[p.msg])
    ensures InPosition(ms, c, p) <==> p.blk < Leading(NextBlocks(ms, c.msg))
  {
    hide ResultRank, CallRank, NextExchange, Leading;
  }

  lemma NotYetDone(ms: seq<Message>, done: iset<Spot>, c: Spot)
    requires PositionDone(ms, done, c)
    ensures c !in done
  {
  }

  lemma PositionStep(ms: seq<Message>, done: iset<Spot>, c: Spot, adjacent: bool)
    requires CallAt(ms, c) && PositionDone(ms, done, c) && adjacent == Adjacent(ms, c)
    ensures PositionDone(ms, if adjacent then done + iset{c} else done, Spot(c.msg, c.blk + 1))
  {
    hide CallAt, Adjacent;
    BeforeNext(c);
  }

  lemma NextMessageFrom(ms: seq<Message>, i: nat)
    requires i < |ms|
    ensures forall c :: CallAt(ms, c) ==> (Before(c, Spot(i, |AssistantBlocks(ms[i])|)) <==> Before(c, Spot(i + 1, 0)))
  {
  }
}
