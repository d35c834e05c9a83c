/** Unique ids, and what making ids unique leaves as it was. */
module DedupeLemmas {
  import opened Messages
  import opened Ownership
  import opened Dedupe
  import opened FreshIds

  // Occurrence numbers

  lemma OccConcat(s: seq<Id>, t: seq<Id>, x: Id)
    ensures Occ(s + t, x) == Occ(s, x) + Occ(t, x)
  {
  }

  lemma {:induction false} CallIdsCount(bs: seq<Block>, x: Id)
    ensures Occ(CallIds(bs), x) == CallCount(bs, x)
  {
    if bs != [] {
      CallIdsCount(bs[..|bs| - 1], x);
    }
  }

  /** How many calls of `x` the first `n` messages hold. */
  function TotalCalls(ms: seq<Message>, x: Id, n: nat): nat
    requires n <= |ms|
  {
    Occ(CallSeq(ms, n), x)
  }

  lemma TotalCallsStep(ms: seq<Message>, x: Id, n: nat)
    requires n < |ms|
    ensures TotalCalls(ms, x, n + 1) == TotalCalls(ms, x, n) + CallCount(AssistantBlocks(ms[n]), x)
  {
    CallIdsCount(AssistantBlocks(ms[n]), x);
    OccConcat(CallSeq(ms, n), CallIds(AssistantBlocks(ms[n])), x);
  }

  lemma {:induction false} TotalCallsMonotone(ms: seq<Message>, x: Id, m: nat, n: nat)
    requires m <= n <= |ms|
    ensures TotalCalls(ms, x, m) <= TotalCalls(ms, x, n)
    ensures (forall k :: m <= k < n ==> CallCount(AssistantBlocks(ms[k]), x) == 0) ==>
              TotalCalls(ms, x, m) == TotalCalls(ms, x, n)
    decreases n
  {
    hide TotalCalls;
    if m < n {
      TotalCallsMonotone(ms, x, m, n - 1);
      TotalCallsStep(ms, x, n - 1);
    }
  }

  /** The number of a call among the calls of its id in the whole history, from 1. */
  function CallNumber(ms: seq<Message>, c: Spot): nat
    requires CallAt(ms, c)
  {
    TotalCalls(ms, CallBlock(ms, c).id, c.msg) + CallRank(ms, c) + 1
  }

  /** The number of a result among the results for its id in the whole history, from 1. */
  function ResultNumber(ms: seq<Message>, p: Spot): nat
    requires ResultAt(ms, p)
  {
    ResultRank(ms, 0, p) + 1
  }

  lemma CallNumberValid(ms: seq<Message>, c: Spot)
    requires CallAt(ms, c)
    ensures ValidName(CallSeq(ms, |ms|), CallBlock(ms, c).id, CallNumber(ms, c))
  {
    hide CallCount, CallSeq;
    var x := CallBlock(ms, c).id;
    CallCountPrefix(AssistantBlocks(ms[c.msg]), c.blk, x);
    TotalCallsStep(ms, x, c.msg);
    TotalCallsMonotone(ms, x, c.msg + 1, |ms|);
  }

  /** Two calls of one id never have the same number. */
  lemma CallNumberUnique(ms: seq<Message>, c: Spot, d: Spot)
    requires CallAt(ms, c) && CallAt(ms, d) && CallBlock(ms, c).id == CallBlock(ms, d).id
    requires CallNumber(ms, c) == CallNumber(ms, d)
    ensures c == d
  {
    hide CallCount, TotalCalls;
    if c.msg < d.msg {
      LaterCall(ms, c, d);
    } else if d.msg < c.msg {
      LaterCall(ms, d, c);
    } else if c.blk < d.blk {
      CallRankLess(ms, c, d);
    } else if d.blk < c.blk {
      CallRankLess(ms, d, c);
    }
  }

  lemma LaterCall(ms: seq<Message>, c: Spot, d: Spot)
    requires CallAt(ms, c) && CallAt(ms, d) && CallBlock(ms, c).id == CallBlock(ms, d).id && c.msg < d.msg
    ensures CallNumber(ms, c) < CallNumber(ms, d)
  {
    hide CallCount, TotalCalls;
    var x := CallBlock(ms, c).id;
    CallCountPrefix(AssistantBlocks(ms[c.msg]), c.blk, x);
    TotalCallsStep(ms, x, c.msg);
    TotalCallsMonotone(ms, x, c.msg + 1, d.msg);
  }

  // Same shape

  /** Block by block the same, except possibly for the ids of calls and results. */
  ghost predicate SameShape(ms: seq<Message>, ns: seq<Message>) {
    && |ns| == |ms|
    && (forall i :: 0 <= i < |ms| ==> SameShapeAt(ms[i], ns[i]))
  }

  ghost predicate SameShapeAt(m: Message, n: Message) {
    if m.Msg? && m.content.Blocks? then
      n == m || (
        && n.Msg? && n.role == m.role && n.extra == m.extra && n.content.Blocks?
        && |n.content.blocks| == |m.content.blocks|
        && forall b :: 0 <= b < |m.content.blocks| ==> SameBut(m.content.blocks[b], n.content.blocks[b]))
    else n == m
  }

  /** The same block, except possibly for its id. */
  ghost predicate SameBut(a: Block, b: Block) {
    match a
    case ToolUse(id, input) => b.ToolUse? && b.input == input && (|id| > 0 <==> |b.id| > 0)
    case ToolResult(id, output) => b.ToolResult? && b.output == output && (|id| > 0 <==> |b.id| > 0)
    case _ => b == a
  }

  lemma NewNameNonEmpty(calls: seq<Id>, x: Id, n: nat)
    requires |x| > 0
    ensures var t := Renaming(calls, AllIds(calls)).1; |NewName(t, x, n)| > 0
  {
    RenamedNonEmpty(calls, AllIds(calls));
  }

  lemma FreshNonEmpty(stem: string, n: nat, used: set<Id>)
    ensures |Fresh(stem, n, used)| > 0
  {
    var k := FreshIsFirst(stem, n, used);
  }

  lemma {:induction false} RenamedNonEmpty(calls: seq<Id>, used: set<Id>)
    ensures forall k :: k in Renaming(calls, used).1 ==> |Renaming(calls, used).1[k]| > 0
  {
    if calls != [] {
      hide Fresh, Occ;
      var rest := calls[..|calls| - 1];
      RenamedNonEmpty(rest, used);
      var x := calls[|calls| - 1];
      var (u, t) := Renaming(rest, used);
      var n := Occ(rest, x) + 1;
      FreshNonEmpty(Stem(x), n, u);
      assert Renaming(calls, used).1 == if n == 1 then t else t[(x, n) := Fresh(Stem(x), n, u)];
    }
  }

  lemma DedupedShape(ms: seq<Message>)
    ensures SameShape(ms, AllDeduped(ms, RenamesOf(ms)))
  {
    var t := RenamesOf(ms);
    hide Renaming, RenamesOf, CallsSoFar, ResultsSoFar;
    forall i | 0 <= i < |ms|
      ensures SameShapeAt(ms[i], DedupedMessage(ms, t, i))
    {
      if ms[i].Msg? && ms[i].content.Blocks? {
        forall b | 0 <= b < |ms[i].content.blocks|
          ensures SameBut(ms[i].content.blocks[b], DedupedBlock(ms, t, i, b))
        {
          BlockShape(ms, i, b);
        }
      }
    }
  }

  lemma BlockShape(ms: seq<Message>, i: nat, b: nat)
    requires i < |ms| && ms[i].Msg? && ms[i].content.Blocks? && b < |ms[i].content.blocks|
    ensures SameBut(ms[i].content.blocks[b], DedupedBlock(ms, RenamesOf(ms), i, b))
  {
    hide Renaming, CallsSoFar, ResultsSoFar;
    var block := ms[i].content.blocks[b];
    if ms[i].role == Assistant && IsToolUse(block) {
      NewNameNonEmpty(CallSeq(ms, |ms|), block.id, CallsSoFar(ms, block.id, i, b) + 1);
    } else if ms[i].role == User && IsToolResult(block) {
      NewNameNonEmpty(CallSeq(ms, |ms|), block.id, ResultsSoFar(ms, block.id, i, b) + 1);
    }
  }

  lemma SameSpots(ms: seq<Message>, ns: seq<Message>, p: Spot)
    requires SameShape(ms, ns)
    ensures CallAt(ns, p) <==> CallAt(ms, p)
    ensures ResultAt(ns, p) <==> ResultAt(ms, p)
    ensures CallAt(ms, p) ==> CallBlock(ns, p).input == CallBlock(ms, p).input
    ensures ResultAt(ms, p) ==> ResultBlock(ns, p).output == ResultBlock(ms, p).output
  {
    if p.msg < |ms| {
      assert SameShapeAt(ms[p.msg], ns[p.msg]);
    }
  }

  lemma SamePoints(ms: seq<Message>, ns: seq<Message>)
    requires SameShape(ms, ns)
    ensures LastConversationIndex(ns) == LastConversationIndex(ms)
    ensures forall i :: 0 <= i < |ms| ==> (HasCall(AssistantBlocks(ns[i])) <==> HasCall(AssistantBlocks(ms[i])))
    ensures forall i :: 0 <= i < |ms| ==>
              |UserBlocks(ns[i])| == |UserBlocks(ms[i])| && (IsUserBlocks(ns[i]) <==> IsUserBlocks(ms[i]))
    ensures forall i :: 0 <= i < |ms| ==> Leading(UserBlocks(ns[i])) == Leading(UserBlocks(ms[i]))
  {
    forall i | 0 <= i < |ms|
      ensures IsConversationPoint(ns[i]) <==> IsConversationPoint(ms[i])
      ensures HasCall(AssistantBlocks(ns[i])) <==> HasCall(AssistantBlocks(ms[i]))
      ensures |UserBlocks(ns[i])| == |UserBlocks(ms[i])| && (IsUserBlocks(ns[i]) <==> IsUserBlocks(ms[i]))
      ensures Leading(UserBlocks(ns[i])) == Leading(UserBlocks(ms[i]))
    {
      assert SameShapeAt(ms[i], ns[i]);
      MessageShape(ms[i], ns[i]);
    }
  }

  lemma MessageShape(m: Message, n: Message)
    requires SameShapeAt(m, n)
    ensures IsConversationPoint(n) <==> IsConversationPoint(m)
    ensures HasCall(AssistantBlocks(n)) <==> HasCall(AssistantBlocks(m))
    ensures |UserBlocks(n)| == |UserBlocks(m)| && (IsUserBlocks(n) <==> IsUserBlocks(m))
    ensures Leading(UserBlocks(n)) == Leading(UserBlocks(m))
  {
    if m.Msg? && m.content.Blocks? && n != m {
      var a, b := m.content.blocks, n.content.blocks;
      forall k | 0 <= k < |a|
        ensures IsToolUse(b[k]) <==> IsToolUse(a[k])
        ensures IsToolResult(b[k]) <==> IsToolResult(a[k])
      {
        assert SameBut(a[k], b[k]);
      }
    }
  }

  // Unique ids

  /** What the block at a call or result position becomes. */
  lemma RenamedCall(ms: seq<Message>, c: Spot)
    requires CallAt(ms, c)
    ensures var ns := AllDeduped(ms, RenamesOf(ms));
            CallAt(ns, c) && CallBlock(ns, c).id == NewName(RenamesOf(ms), CallBlock(ms, c).id, CallNumber(ms, c))
  {
    hide RenamesOf, NewName, CallCount, CallSeq;
    DedupedShape(ms);
    SameSpots(ms, AllDeduped(ms, RenamesOf(ms)), c);
  }

  lemma RenamedResult(ms: seq<Message>, p: Spot)
    requires ResultAt(ms, p)
    ensures var ns := AllDeduped(ms, RenamesOf(ms));
            && ResultAt(ns, p)
            && ResultBlock(ns, p).id == NewName(RenamesOf(ms), ResultBlock(ms, p).id, ResultNumber(ms, p))
  {
    hide RenamesOf, NewName, Results, ResultsIn;
    DedupedShape(ms);
    SameSpots(ms, AllDeduped(ms, RenamesOf(ms)), p);
  }

  /** No two calls of a history have the same id. */
  ghost predicate UniqueCalls(ms: seq<Message>) {
    forall c, d :: CallAt(ms, c) && CallAt(ms, d) && CallBlock(ms, c).id == CallBlock(ms, d).id ==> c == d
  }

  lemma AllDedupedUnique(ms: seq<Message>)
    ensures UniqueCalls(AllDeduped(ms, RenamesOf(ms)))
  {
    hide AllDeduped, RenamesOf, NewName, CallNumber, CallAt;
    var ns := AllDeduped(ms, RenamesOf(ms));
    DedupedShape(ms);
    forall c, d | CallAt(ns, c) && CallAt(ns, d) && CallBlock(ns, c).id == CallBlock(ns, d).id
      ensures c == d
    {
      SameSpots(ms, ns, c);
      SameSpots(ms, ns, d);
      RenamedCall(ms, c);
      RenamedCall(ms, d);
      CallNumberValid(ms, c);
      CallNumberValid(ms, d);
      SameNewName(ms, CallBlock(ms, c).id, CallNumber(ms, c), CallBlock(ms, d).id, CallNumber(ms, d));
      CallNumberUnique(ms, c, d);
    }
  }

  lemma SameNewName(ms: seq<Message>, x: Id, m: nat, y: Id, n: nat)
    requires ValidName(CallSeq(ms, |ms|), x, m) && ValidName(CallSeq(ms, |ms|), y, n)
    requires NewName(RenamesOf(ms), x, m) == NewName(RenamesOf(ms), y, n)
    ensures x == y && m == n
  {
    NamesDiffer(CallSeq(ms, |ms|), x, m, y, n);
  }

  /** Ids are unique exactly when there is nothing to rename. */
  lemma NoDuplicateIffUnique(ms: seq<Message>)
    ensures !HasDuplicate(CallSeq(ms, |ms|)) <==> UniqueCalls(ms)
  {
    hide CallNumber, CallSeq, CallAt;
    var calls := CallSeq(ms, |ms|);
    if !HasDuplicate(calls) {
      forall c, d | CallAt(ms, c) && CallAt(ms, d) && CallBlock(ms, c).id == CallBlock(ms, d).id
        ensures c == d
      {
        CallNumberValid(ms, c);
        CallNumberValid(ms, d);
        assert CallBlock(ms, c).id in calls;
        CallNumberUnique(ms, c, d);
      }
    } else {
      var x :| x in calls && Occ(calls, x) > 1;
      var c, d := TwoCalls(ms, x);
      assert CallAt(ms, c) && CallAt(ms, d);
    }
  }

  lemma TwoCalls(ms: seq<Message>, x: Id) returns (c: Spot, d: Spot)
    requires Occ(CallSeq(ms, |ms|), x) > 1
    ensures CallAt(ms, c) && CallAt(ms, d) && CallBlock(ms, c).id == CallBlock(ms, d).id && c != d
  {
    c := NumberedCall(ms, x, |ms|, 1);
    d := NumberedCall(ms, x, |ms|, 2);
  }

  lemma {:induction false} NumberedCall(ms: seq<Message>, x: Id, n: nat, k: nat) returns (c: Spot)
    requires n <= |ms| && 1 <= k <= TotalCalls(ms, x, n)
    ensures CallAt(ms, c) && CallBlock(ms, c).id == x && CallNumber(ms, c) == k
    decreases n
  {
    hide CallCount, TotalCalls;
    NoCallsInNothing(ms, x);
    TotalCallsStep(ms, x, n - 1);
    if k <= TotalCalls(ms, x, n - 1) {
      c := NumberedCall(ms, x, n - 1, k);
    } else {
      var b := NthCall(AssistantBlocks(ms[n - 1]), x, k - 1 - TotalCalls(ms, x, n - 1));
      c := Spot(n - 1, b);
    }
  }

  lemma NoCallsInNothing(ms: seq<Message>, x: Id)
    ensures TotalCalls(ms, x, 0) == 0
  {
  }

  /** Afterwards no two calls have the same id, whatever the history. */
  lemma DedupedUnique(ms: seq<Message>)
    ensures UniqueCalls(Deduped(ms))
  {
    hide UniqueCalls, AllDeduped;
    if HasDuplicate(CallSeq(ms, |ms|)) {
      AllDedupedUnique(ms);
    } else {
      NoDuplicateIffUnique(ms);
    }
  }
}
