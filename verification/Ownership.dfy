/** Which call owns which result, as a relation between positions in a history. */
module Ownership {
  import opened Messages
  import opened Repair
  import opened RepairTheorems

  /** The position of a block in a history. */
  datatype Spot = Spot(msg: nat, blk: nat)

  predicate Before(a: Spot, b: Spot) {
    a.msg < b.msg || (a.msg == b.msg && a.blk < b.blk)
  }

  predicate CallAt(ms: seq<Message>, c: Spot) {
    c.msg < |ms| && c.blk < |AssistantBlocks(ms[c.msg])| && IsToolUse(AssistantBlocks(ms[c.msg])[c.blk])
  }

  predicate ResultAt(ms: seq<Message>, p: Spot) {
    p.msg < |ms| && p.blk < |UserBlocks(ms[p.msg])| && IsToolResult(UserBlocks(ms[p.msg])[p.blk])
  }

  function CallBlock(ms: seq<Message>, c: Spot): (b: Block)
    requires CallAt(ms, c)
    ensures IsToolUse(b)
  {
    AssistantBlocks(ms[c.msg])[c.blk]
  }

  function ResultBlock(ms: seq<Message>, p: Spot): (b: Block)
    requires ResultAt(ms, p)
    ensures IsToolResult(b)
  {
    UserBlocks(ms[p.msg])[p.blk]
  }

  /** How many calls of the same id precede `c` in its message. */
  function CallRank(ms: seq<Message>, c: Spot): nat
    requires CallAt(ms, c)
  {
    CallCount(AssistantBlocks(ms[c.msg])[..c.blk], CallBlock(ms, c).id)
  }

  /** How many results for the same id precede `p` from message `lo` on. */
  function ResultRank(ms: seq<Message>, lo: nat, p: Spot): nat
    requires ResultAt(ms, p)
  {
    var x := ResultBlock(ms, p).id;
    |ResultsIn(ms, x, lo, p.msg)| + |Results(UserBlocks(ms[p.msg])[..p.blk], x)|
  }

  /** `p` is a result that only calls in the message of `c`, of the same id, can own. */
  predicate InReach(ms: seq<Message>, c: Spot, p: Spot)
    requires CallAt(ms, c)
  {
    && ResultAt(ms, p)
    && ResultBlock(ms, p).id == CallBlock(ms, c).id
    && c.msg < p.msg < NextExchange(ms, CallBlock(ms, c).id, c.msg)
  }

  /** The call at `c` owns the result at `p`. */
  predicate Owns(ms: seq<Message>, c: Spot, p: Spot) {
    && CallAt(ms, c)
    && InReach(ms, c, p)
    && ResultRank(ms, c.msg + 1, p) == CallRank(ms, c)
  }

  lemma RankLess(ms: seq<Message>, lo: nat, p: Spot, q: Spot)
    requires ResultAt(ms, p) && ResultAt(ms, q) && ResultBlock(ms, p).id == ResultBlock(ms, q).id
    requires lo <= p.msg && Before(p, q)
    ensures ResultRank(ms, lo, p) < ResultRank(ms, lo, q)
  {
    hide Results, ResultsIn;
    var x := ResultBlock(ms, p).id;
    if p.msg < q.msg {
      RankBelowTotal(ms, x, lo, q.msg, p.msg, p.blk);
    } else {
      var bs := UserBlocks(ms[q.msg]);
      ResultsPrefix(bs[..q.blk], p.blk, x);
      assert bs[..q.blk][..p.blk] == bs[..p.blk];
    }
  }

  lemma SameRankSameResult(ms: seq<Message>, lo: nat, p: Spot, q: Spot)
    requires ResultAt(ms, p) && ResultAt(ms, q) && ResultBlock(ms, p).id == ResultBlock(ms, q).id
    requires lo <= p.msg && lo <= q.msg && ResultRank(ms, lo, p) == ResultRank(ms, lo, q)
    ensures p == q
  {
    hide ResultRank;
    if Before(p, q) {
      RankLess(ms, lo, p, q);
    } else if Before(q, p) {
      RankLess(ms, lo, q, p);
    }
  }

  lemma CallRankLess(ms: seq<Message>, c: Spot, d: Spot)
    requires CallAt(ms, c) && CallAt(ms, d) && CallBlock(ms, c).id == CallBlock(ms, d).id
    requires c.msg == d.msg && c.blk < d.blk
    ensures CallRank(ms, c) < CallRank(ms, d)
  {
    hide CallCount;
    var bs := AssistantBlocks(ms[c.msg]);
    CallCountPrefix(bs[..d.blk], c.blk, CallBlock(ms, c).id);
    assert bs[..d.blk][..c.blk] == bs[..c.blk];
  }

  lemma RankBelowCount(ms: seq<Message>, c: Spot)
    requires CallAt(ms, c)
    ensures CallRank(ms, c) < CallCount(AssistantBlocks(ms[c.msg]), CallBlock(ms, c).id)
  {
    CallCountPrefix(AssistantBlocks(ms[c.msg]), c.blk, CallBlock(ms, c).id);
  }

  lemma OwnerInReach(ms: seq<Message>, c: Spot, d: Spot, p: Spot)
    requires CallAt(ms, c) && InReach(ms, c, p) && Owns(ms, d, p)
    ensures d.msg == c.msg && CallBlock(ms, d).id == CallBlock(ms, c).id
  {
    hide ResultRank, CallRank, CallCount;
    var x := CallBlock(ms, c).id;
    assert CallCount(AssistantBlocks(ms[c.msg]), x) > 0 by { SomeCall(AssistantBlocks(ms[c.msg]), c.blk); }
    assert CallCount(AssistantBlocks(ms[d.msg]), x) > 0 by { SomeCall(AssistantBlocks(ms[d.msg]), d.blk); }
  }

  /** A result has at most one owner, and a call owns at most one result. */
  lemma OneOwner(ms: seq<Message>, c: Spot, d: Spot, p: Spot)
    requires Owns(ms, c, p) && Owns(ms, d, p)
    ensures c == d
  {
    hide ResultRank, CallRank, NextExchange;
    OwnerInReach(ms, c, d, p);
    if c.blk < d.blk {
      CallRankLess(ms, c, d);
    } else if d.blk < c.blk {
      CallRankLess(ms, d, c);
    }
  }

  lemma OneResult(ms: seq<Message>, c: Spot, p: Spot, q: Spot)
    requires Owns(ms, c, p) && Owns(ms, c, q)
    ensures p == q
  {
    hide ResultRank, CallRank, NextExchange;
    SameRankSameResult(ms, c.msg + 1, p, q);
  }

  function OwnedCount(ms: seq<Message>, c: Spot): nat
    requires CallAt(ms, c)
  {
    |Owned(ms, CallBlock(ms, c).id, c.msg)|
  }

  function AnswerTo(ms: seq<Message>, c: Spot): Block
    requires CallAt(ms, c)
  {
    Payload(ms, CallBlock(ms, c).id, c.msg, CallRank(ms, c))
  }

  /** The result of a given rank within reach of a call. */
  lemma RankedResult(ms: seq<Message>, c: Spot, r: nat) returns (p: Spot)
    requires CallAt(ms, c) && r < OwnedCount(ms, c)
    ensures InReach(ms, c, p) && ResultRank(ms, c.msg + 1, p) == r
  {
    hide Results, ResultsIn;
    var x := CallBlock(ms, c).id;
    var j, b := NthResultIn(ms, x, c.msg + 1, NextExchange(ms, x, c.msg), r);
    p := Spot(j, b);
  }

  lemma OwnedResult(ms: seq<Message>, c: Spot) returns (p: Spot)
    requires CallAt(ms, c) && CallRank(ms, c) < OwnedCount(ms, c)
    ensures Owns(ms, c, p)
  {
    p := RankedResult(ms, c, CallRank(ms, c));
  }

  lemma RankInReach(ms: seq<Message>, c: Spot, p: Spot)
    requires CallAt(ms, c) && InReach(ms, c, p)
    ensures ResultRank(ms, c.msg + 1, p) < OwnedCount(ms, c)
    ensures Owned(ms, CallBlock(ms, c).id, c.msg)[ResultRank(ms, c.msg + 1, p)] == ResultBlock(ms, p)
  {
    hide Results, ResultsIn;
    var x := CallBlock(ms, c).id;
    var n := NextExchange(ms, x, c.msg);
    RankBelowTotal(ms, x, c.msg + 1, n, p.msg, p.blk);
    ResultsInSplit(ms, x, c.msg + 1, p.msg, n);
    ResultsInSplit(ms, x, p.msg, p.msg + 1, n);
    ResultsInSingle(ms, x, p.msg);
    ResultsPrefix(UserBlocks(ms[p.msg]), p.blk, x);
  }

  lemma ResultsInSingle(ms: seq<Message>, x: Id, j: nat)
    requires j < |ms|
    ensures ResultsIn(ms, x, j, j + 1) == Results(UserBlocks(ms[j]), x)
  {
    assert ResultsIn(ms, x, j, j) == [];
  }

  /** What an owned result means for the answer. */
  lemma OwnedAnswer(ms: seq<Message>, c: Spot, p: Spot)
    requires Owns(ms, c, p)
    ensures AnswerTo(ms, c) == ResultBlock(ms, p)
  {
    hide ResultRank, CallRank, Owned;
    RankInReach(ms, c, p);
  }

  lemma UnownedAnswer(ms: seq<Message>, c: Spot)
    requires CallAt(ms, c) && forall p :: !Owns(ms, c, p)
    ensures AnswerTo(ms, c) == ToolResult(CallBlock(ms, c).id, SYNTHETIC_TOOL_RESULT_TEXT)
  {
    hide ResultRank, CallRank, Owned;
    if CallRank(ms, c) < OwnedCount(ms, c) {
      var p := OwnedResult(ms, c);
    }
  }

  /** Scanning forward, the first result of rank at least that of the call is the owned one. */
  lemma FirstFree(ms: seq<Message>, c: Spot, p: Spot)
    requires CallAt(ms, c) && InReach(ms, c, p) && CallRank(ms, c) <= ResultRank(ms, c.msg + 1, p)
    requires forall q :: InReach(ms, c, q) && Before(q, p) ==> ResultRank(ms, c.msg + 1, q) < CallRank(ms, c)
    ensures Owns(ms, c, p)
  {
    hide ResultRank, CallRank, Owned, NextExchange;
    var r := CallRank(ms, c);
    if r < ResultRank(ms, c.msg + 1, p) {
      RankInReach(ms, c, p);
      var q := RankedResult(ms, c, r);
      if Before(p, q) {
        RankLess(ms, c.msg + 1, p, q);
      }
    }
  }

  lemma NoneFree(ms: seq<Message>, c: Spot, p: Spot)
    requires CallAt(ms, c) && forall q :: InReach(ms, c, q) ==> ResultRank(ms, c.msg + 1, q) < CallRank(ms, c)
    ensures !Owns(ms, c, p)
  {
  }

  /** The calls of one id in one message own the results in reach from the first on. */
  lemma OwnerByRank(ms: seq<Message>, c: Spot, p: Spot) returns (d: Spot)
    requires CallAt(ms, c) && InReach(ms, c, p)
    requires ResultRank(ms, c.msg + 1, p) < CallCount(AssistantBlocks(ms[c.msg]), CallBlock(ms, c).id)
    ensures Owns(ms, d, p) && d.msg == c.msg && CallBlock(ms, d).id == CallBlock(ms, c).id
  {
    hide ResultRank, CallCount, NextExchange;
    var k := NthCall(AssistantBlocks(ms[c.msg]), CallBlock(ms, c).id, ResultRank(ms, c.msg + 1, p));
    d := Spot(c.msg, k);
  }

  /** The result already sits where the call needs it. */
  predicate InPosition(ms: seq<Message>, c: Spot, p: Spot) {
    c.msg + 1 == p.msg < |ms| && p.blk < Leading(UserBlocks(ms[p.msg]))
  }

  lemma RankInNext(ms: seq<Message>, c: Spot, p: Spot)
    requires CallAt(ms, c) && InReach(ms, c, p) && p.msg == c.msg + 1
    ensures ResultRank(ms, c.msg + 1, p) == |Results(UserBlocks(ms[p.msg])[..p.blk], CallBlock(ms, c).id)|
  {
  }

  /** A result stays exactly when its owner is at the last conversation point or has it in place. */
  lemma StaysIffOwned(ms: seq<Message>, last: int, p: Spot)
    requires last == LastConversationIndex(ms) && ResultAt(ms, p)
    ensures Stays(ms, last, p.msg, p.blk) <==>
            exists c :: Owns(ms, c, p) && (c.msg == last || InPosition(ms, c, p))
  {
    if p.msg <= last {
      StaysInBody(ms, last, p);
    } else {
      StaysInTail(ms, last, p);
    }
  }

  lemma StaysInBody(ms: seq<Message>, last: int, p: Spot)
    requires last < |ms| && ResultAt(ms, p) && p.msg <= last
    ensures Stays(ms, last, p.msg, p.blk) <==>
            exists c :: Owns(ms, c, p) && (c.msg == last || InPosition(ms, c, p))
  {
    hide Stays, Owns, InPosition;
    if Stays(ms, last, p.msg, p.blk) {
      var c := StaysForCall(ms, last, p);
      assert Owns(ms, c, p);
    }
    if c :| Owns(ms, c, p) && (c.msg == last || InPosition(ms, c, p)) {
      InPositionStays(ms, last, c, p);
    }
  }

  /** The call that keeps a result in its place. */
  lemma StaysForCall(ms: seq<Message>, last: int, p: Spot) returns (c: Spot)
    requires last < |ms| && ResultAt(ms, p) && p.msg <= last && Stays(ms, last, p.msg, p.blk)
    ensures Owns(ms, c, p) && InPosition(ms, c, p)
  {
    hide Results, CallCount, ResultsIn, Leading;
    var x := ResultBlock(ms, p).id;
    NoBlocks(x);
    var i: nat := p.msg - 1;
    var k := NthCall(AssistantBlocks(ms[i]), x, |Results(UserBlocks(ms[p.msg])[..p.blk], x)|);
    c := Spot(i, k);
    RankInNextMessage(ms, c, p);
  }

  lemma InPositionStays(ms: seq<Message>, last: int, c: Spot, p: Spot)
    requires last < |ms| && ResultAt(ms, p) && p.msg <= last
    requires Owns(ms, c, p) && (c.msg == last || InPosition(ms, c, p))
    ensures Stays(ms, last, p.msg, p.blk)
  {
    hide Results, CallCount, ResultsIn, Leading;
    RankInNext(ms, c, p);
    CallCountPrefix(AssistantBlocks(ms[c.msg]), c.blk, ResultBlock(ms, p).id);
  }

  lemma RankInNextMessage(ms: seq<Message>, c: Spot, p: Spot)
    requires CallAt(ms, c) && ResultAt(ms, p) && p.msg == c.msg + 1 && ResultBlock(ms, p).id == CallBlock(ms, c).id
    ensures InReach(ms, c, p)
    ensures ResultRank(ms, c.msg + 1, p) == |Results(UserBlocks(ms[p.msg])[..p.blk], CallBlock(ms, c).id)|
  {
    hide Results, CallCount;
    NoBlocks(CallBlock(ms, c).id);
    assert AssistantBlocks(ms[p.msg]) == [];
  }

  lemma ReachOfLast(ms: seq<Message>, x: Id)
    requires LastConversationIndex(ms) >= 0
    ensures NextExchange(ms, x, LastConversationIndex(ms)) == |ms|
  {
    var n := NextExchange(ms, x, LastConversationIndex(ms));
    if n < |ms| {
      NoBlocks(x);
    }
  }

  lemma StaysInTail(ms: seq<Message>, last: int, p: Spot)
    requires last == LastConversationIndex(ms) && ResultAt(ms, p) && last < p.msg
    ensures Stays(ms, last, p.msg, p.blk) <==>
            exists c :: Owns(ms, c, p) && (c.msg == last || InPosition(ms, c, p))
  {
    hide Owns, Stays;
    if Stays(ms, last, p.msg, p.blk) {
      var c := TailOwner(ms, last, p);
    }
    if c :| Owns(ms, c, p) && (c.msg == last || InPosition(ms, c, p)) {
      TailOwned(ms, last, c, p);
    }
  }

  lemma TailOwner(ms: seq<Message>, last: int, p: Spot) returns (c: Spot)
    requires last == LastConversationIndex(ms) && ResultAt(ms, p) && last < p.msg
    requires Stays(ms, last, p.msg, p.blk)
    ensures Owns(ms, c, p) && c.msg == last
  {
    hide Results, CallCount, ResultsIn, Leading;
    var x := ResultBlock(ms, p).id;
    NoBlocks(x);
    var k := NthCall(AssistantBlocks(ms[last]), x, ResultRank(ms, last + 1, p));
    c := Spot(last, k);
    ReachOfLast(ms, x);
  }

  lemma TailOwned(ms: seq<Message>, last: int, c: Spot, p: Spot)
    requires last == LastConversationIndex(ms) && ResultAt(ms, p) && last < p.msg
    requires Owns(ms, c, p) && (c.msg == last || InPosition(ms, c, p))
    ensures Stays(ms, last, p.msg, p.blk)
  {
    hide Results, CallCount, ResultsIn, Leading, NextExchange;
    CallsUpToLast(ms, c);
    CallCountPrefix(AssistantBlocks(ms[c.msg]), c.blk, ResultBlock(ms, p).id);
  }

  lemma CallsUpToLast(ms: seq<Message>, c: Spot)
    requires CallAt(ms, c)
    ensures c.msg <= LastConversationIndex(ms)
  {
    assert IsConversationPoint(ms[c.msg]);
  }

  lemma OwnedById(ms: seq<Message>, c: Spot, p: Spot)
    requires Owns(ms, c, p)
    ensures CallAt(ms, c) && ResultAt(ms, p) && ResultBlock(ms, p).id == CallBlock(ms, c).id
    ensures c.msg <= LastConversationIndex(ms)
  {
    CallsUpToLast(ms, c);
  }

  /** A call is in place, in the sense of the rebuilt history, when it owns a result in position. */
  lemma InPlaceIffInPosition(ms: seq<Message>, c: Spot)
    requires CallAt(ms, c) && c.msg + 1 < |ms|
    ensures InPlace(ms, CallBlock(ms, c).id, c.msg, CallRank(ms, c)) <==>
            exists p :: Owns(ms, c, p) && InPosition(ms, c, p)
  {
    hide Results, CallCount, ResultsIn, Leading;
    var x := CallBlock(ms, c).id;
    var bs := UserBlocks(ms[c.msg + 1]);
    var r := CallRank(ms, c);
    if InPlace(ms, x, c.msg, r) {
      var b := NthResult(LeadingRun(bs), x, r);
      var p := Spot(c.msg + 1, b);
      assert LeadingRun(bs)[..b] == bs[..b];
      RankInNextMessage(ms, c, p);
      assert Owns(ms, c, p) && InPosition(ms, c, p);
    }
    if p :| Owns(ms, c, p) && InPosition(ms, c, p) {
      RankInNext(ms, c, p);
      ResultsPrefix(LeadingRun(bs), p.blk, x);
      assert LeadingRun(bs)[..p.blk] == bs[..p.blk];
    }
  }
}
