/** The guarantees of repair, for every history. */
module RepairGuarantees {
  import opened Common
  import opened Messages
  import opened Repair
  import opened RepairLemmas
  import opened RepairTheorems

  // Rebuilding a clean history gives it back

  lemma {:induction false} CleanKept(ms: seq<Message>, last: int, j: nat, k: nat)
    requires j < |ms| && last < |ms| && k <= |UserBlocks(ms[j])| && AllStay(ms, last, j)
    ensures KeptUpTo(ms, last, j, k) == UserBlocks(ms[j])[..k]
    decreases k
  {
    hide Stays;
    if k > 0 {
      CleanKept(ms, last, j, k - 1);
      assert KeptAt(ms, last, j, k - 1) == [UserBlocks(ms[j])[k - 1]];
    }
  }

  lemma CleanSegment(ms: seq<Message>, last: int, i: nat)
    requires i < |ms| && last < |ms| && Clean(ms, last)
    ensures Segment(ms, last, i) == [ms[i]]
  {
    hide Inserts, KeptUpTo, Stays, Leading;
    assert Inserts(ms, last, i) == [];
    assert i > 0 ==> Inserts(ms, last, i - 1) == [];
    if IsUserBlocks(ms[i]) {
      assert AllStay(ms, last, i);
      CleanKept(ms, last, i, |UserBlocks(ms[i])|);
      var bs := UserBlocks(ms[i]);
      assert Kept(ms, last, i) == bs;
      assert Spliced(bs, []) == bs;
    }
  }

  lemma {:induction false} CleanRebuilt(ms: seq<Message>, last: int, n: nat)
    requires n <= |ms| && last < |ms| && Clean(ms, last)
    ensures Rebuilt(ms, last, n) == ms[..n]
  {
    hide Segment, Clean;
    if n > 0 {
      CleanRebuilt(ms, last, n - 1);
      CleanSegment(ms, last, n - 1);
    }
  }

  lemma RepairedIsRebuilt(ms: seq<Message>)
    ensures Repaired(ms) == Rebuilt(ms, LastConversationIndex(ms), |ms|)
  {
    hide Clean, Rebuilt;
    if Clean(ms, LastConversationIndex(ms)) {
      CleanRebuilt(ms, LastConversationIndex(ms), |ms|);
    }
  }

  // Well-formedness and idempotence, with the exact condition

  lemma {:induction false} RebuiltPrefix(ms: seq<Message>, last: int, n: nat, m: nat)
    requires n <= m <= |ms| && last < |ms|
    ensures Rebuilt(ms, last, n) <= Rebuilt(ms, last, m)
    decreases m
  {
    hide Segment;
    if n < m {
      RebuiltPrefix(ms, last, n, m - 1);
    }
  }

  /** Where a message of the rebuilt history comes from. */
  lemma {:induction false} SegmentAt(ms: seq<Message>, last: int, n: nat, k: nat) returns (i: nat)
    requires n <= |ms| && last < |ms| && k < |Rebuilt(ms, last, n)|
    ensures i < n && 0 <= k - |Rebuilt(ms, last, i)| < |Segment(ms, last, i)|
    ensures Rebuilt(ms, last, n)[k] == Segment(ms, last, i)[k - |Rebuilt(ms, last, i)|]
  {
    hide Segment;
    if k < |Rebuilt(ms, last, n - 1)| {
      i := SegmentAt(ms, last, n - 1, k);
    } else {
      i := n - 1;
    }
  }

  lemma SegmentCalls(ms: seq<Message>, last: int, i: nat, d: nat)
    requires i < |ms| && last < |ms| && d < |Segment(ms, last, i)|
    requires HasCall(AssistantBlocks(Segment(ms, last, i)[d]))
    ensures d == 0 && !IsUser(ms[i]) && Segment(ms, last, i)[0] == ms[i]
  {
    hide Inserts, KeptUpTo, Spliced;
  }

  /** The calls of the repaired history are those of the original one. */
  lemma CallsComeFrom(ms: seq<Message>, k: nat) returns (i: nat)
    requires k < |Repaired(ms)| && HasCall(AssistantBlocks(Repaired(ms)[k]))
    ensures i < |ms| && k == |Rebuilt(ms, LastConversationIndex(ms), i)|
    ensures i <= LastConversationIndex(ms) && !IsUser(ms[i]) && Repaired(ms)[k] == ms[i]
  {
    hide HasCall, Rebuilt, Segment, Repaired;
    RepairedIsRebuilt(ms);
    var last := LastConversationIndex(ms);
    i := SegmentAt(ms, last, |ms|, k);
    SegmentCalls(ms, last, i, k - |Rebuilt(ms, last, i)|);
    assert IsConversationPoint(ms[i]) by { HasCallBlocks(ms[i]); }
  }

  lemma HasCallBlocks(m: Message)
    requires HasCall(AssistantBlocks(m))
    ensures IsAssistantBlocks(m)
  {
  }

  lemma OtherBare(ms: seq<Message>, last: int, j: nat)
    requires j < |ms| && last < |ms| && IsUser(ms[j]) && ms[j].content.OtherContent?
    ensures Segment(ms, last, j) == [ms[j]] && IsConversationPoint(ms[j])
  {
  }

  lemma FirstOfSegment(ms: seq<Message>, last: int, i: nat)
    requires i < |ms| && last < |ms| && !IsUser(ms[i])
    ensures Segment(ms, last, i) != [] && Segment(ms, last, i)[0] == ms[i]
  {
  }

  lemma KeptBare(ms: seq<Message>, last: int, i: nat)
    requires i < |ms| && last < |ms| && !IsUser(ms[i]) && NextIsUser(ms, i)
    ensures Segment(ms, last, i) == [ms[i]]
  {
  }

  // Which exchanges are answered

  /** Message `k + 1` of `out` holds the answers to the calls of message `i`, and no other results. */
  ghost predicate AnsweredAt(ms: seq<Message>, i: nat, out: seq<Message>, k: nat)
    requires i < |ms|
  {
    && k + 1 < |out| && out[k] == ms[i] && IsUserBlocks(out[k + 1])
    && forall x ::
         Results(LeadingRun(UserBlocks(out[k + 1])), x) == Results(UserBlocks(out[k + 1]), x) == Share(ms, x, i)
  }

  /**
   Every message with calls before the last conversation point is followed at once by a user
   message whose leading results are the answers to its calls, and which holds no others,
   exactly if its own insertion is not lost.
   */
  lemma EachExchangeAnswered(ms: seq<Message>, i: nat)
    requires i < LastConversationIndex(ms) && HasCall(AssistantBlocks(ms[i]))
    ensures AnsweredAt(ms, i, Repaired(ms), |Rebuilt(ms, LastConversationIndex(ms), i)|) <==> !Loses(ms, i)
  {
    hide Rebuilt, Repaired, Results, Share, Leading, AnsweredFor;
    if Loses(ms, i) {
      LostIsUnanswered(ms, i);
    } else {
      hide Loses;
      var k := |Rebuilt(ms, LastConversationIndex(ms), i)|;
      forall x
        ensures AnsweredFor(ms, i, Repaired(ms), k, x)
      {
        KeptIsAnswered(ms, i, x);
      }
      AnsweredForAll(ms, i, Repaired(ms), k);
    }
  }

  lemma AnsweredForAll(ms: seq<Message>, i: nat, out: seq<Message>, k: nat)
    requires i < |ms| && forall x :: AnsweredFor(ms, i, out, k, x)
    ensures AnsweredAt(ms, i, out, k)
  {
    hide Results, Leading, Share;
    assert AnsweredFor(ms, i, out, k, "");
    forall x
      ensures Results(LeadingRun(UserBlocks(out[k + 1])), x) == Results(UserBlocks(out[k + 1]), x) == Share(ms, x, i)
    {
      assert AnsweredFor(ms, i, out, k, x);
    }
  }

  lemma KeptIsAnswered(ms: seq<Message>, i: nat, x: Id)
    requires i < LastConversationIndex(ms) && HasCall(AssistantBlocks(ms[i])) && !Loses(ms, i)
    ensures AnsweredFor(ms, i, Repaired(ms), |Rebuilt(ms, LastConversationIndex(ms), i)|, x)
  {
    hide *;
    var last := LastConversationIndex(ms);
    RepairedIsRebuilt(ms);
    HasCallBlocks(ms[i]);
    NotFromUser(ms[i]);
    FirstOfSegment(ms, last, i);
    if IsUser(ms[i + 1]) {
      NextUser(ms, i);
      KeptBare(ms, last, i);
      AnsweredByNext(ms, last, i, x);
      PlaceInRebuilt(ms, last, i, 0);
      PlaceInRebuilt(ms, last, i + 1, 0);
      RebuiltStep(ms, last, i);
      AnsweredForThis(ms, i, Repaired(ms), |Rebuilt(ms, last, i)|, x);
    } else {
      AnsweredByNew(ms, last, i, x);
      PlaceInRebuilt(ms, last, i, 0);
      PlaceInRebuilt(ms, last, i, 1);
      AnsweredForThis(ms, i, Repaired(ms), |Rebuilt(ms, last, i)|, x);
    }
  }

  lemma NotFromUser(m: Message)
    requires IsAssistantBlocks(m)
    ensures !IsUser(m)
  {
  }

  lemma NextUser(ms: seq<Message>, i: nat)
    requires i + 1 < |ms| && IsUser(ms[i + 1])
    ensures NextIsUser(ms, i)
  {
  }

  /** Message `d` of a segment sits right there in the whole. */
  lemma PlaceInRebuilt(ms: seq<Message>, last: int, i: nat, d: nat)
    requires i < |ms| && last < |ms| && d < |Segment(ms, last, i)|
    ensures var out := Rebuilt(ms, last, |ms|);
            var k := |Rebuilt(ms, last, i)| + d;
            k < |out| && out[k] == Segment(ms, last, i)[d]
  {
    hide *;
    RebuiltStep(ms, last, i);
    RebuiltPrefix(ms, last, i + 1, |ms|);
  }

  lemma AnsweredForThis(ms: seq<Message>, i: nat, out: seq<Message>, k: nat, x: Id)
    requires i < |ms| && k + 1 < |out| && out[k] == ms[i] && IsUserBlocks(out[k + 1])
    requires Results(LeadingRun(UserBlocks(out[k + 1])), x) == Results(UserBlocks(out[k + 1]), x) == Share(ms, x, i)
    ensures AnsweredFor(ms, i, out, k, x)
  {
  }

  ghost predicate AnsweredFor(ms: seq<Message>, i: nat, out: seq<Message>, k: nat, x: Id)
    requires i < |ms|
  {
    && k + 1 < |out| && out[k] == ms[i] && IsUserBlocks(out[k + 1])
    && Results(LeadingRun(UserBlocks(out[k + 1])), x) == Results(UserBlocks(out[k + 1]), x) == Share(ms, x, i)
  }

  /** A lost insertion leaves its message unanswered, right where it stays. */
  lemma LostIsUnanswered(ms: seq<Message>, i: nat)
    requires i < LastConversationIndex(ms) && Loses(ms, i)
    ensures var k := |Rebuilt(ms, LastConversationIndex(ms), i)|;
            && k + 1 <= LastConversationIndex(Repaired(ms))
            && Repaired(ms)[k] == ms[i] && Repaired(ms)[k + 1] == ms[i + 1]
            && Unanswered(Repaired(ms), k + 1)
            && |Rebuilt(ms, LastConversationIndex(ms), i + 1)| == k + 1
  {
    hide Rebuilt, Repaired, Segment, HasCall, IsConversationPoint;
    RepairedIsRebuilt(ms);
    var last := LastConversationIndex(ms);
    HasCallBlocks(ms[i]);
    KeptBare(ms, last, i);
    OtherBare(ms, last, i + 1);
    RebuiltStep(ms, last, i);
    PlaceInRebuilt(ms, last, i, 0);
    PlaceInRebuilt(ms, last, i + 1, 0);
    assert IsConversationPoint(Repaired(ms)[|Rebuilt(ms, last, i)| + 1]);
  }

  /** Only a lost insertion leaves a message unanswered. */
  lemma UnansweredIsLost(ms: seq<Message>, j: nat) returns (i: nat)
    requires j <= LastConversationIndex(Repaired(ms)) && Unanswered(Repaired(ms), j)
    ensures i < LastConversationIndex(ms) && Loses(ms, i)
    ensures j == |Rebuilt(ms, LastConversationIndex(ms), i)| + 1
  {
    hide Rebuilt, Repaired, Segment, HasCall, IsConversationPoint, Results, Share, Loses;
    assert j > 0 by { NoCallInNothing(); }
    var last := LastConversationIndex(ms);
    i := CallsComeFrom(ms, j - 1);
    if i == last {
      NoPointAfter(ms, last);
    } else {
      EachExchangeAnswered(ms, i);
    }
  }

  lemma NoCallInNothing()
    ensures !HasCall([])
  {
  }

  lemma NoPointAfter(ms: seq<Message>, last: int)
    requires 0 <= last == LastConversationIndex(ms) && !IsUser(ms[last])
    ensures LastConversationIndex(Repaired(ms)) == |Rebuilt(ms, last, last)|
  {
    hide Rebuilt, Repaired, IsConversationPoint, ResultsIn, TailShare;
    RepairedIsRebuilt(ms);
    var tail := RebuiltTail(ms, last, |ms|);
    LastSegment(ms, last);
    LastOf(Rebuilt(ms, last, last) + [ms[last]], tail);
  }

  /**
   The repaired history is well formed, for every history except those in which the results
   of some exchange have nowhere to go.
   */
  lemma RepairedWellFormed(ms: seq<Message>)
    ensures Paired(Repaired(ms))
    ensures WellFormed(Repaired(ms)) <==> !LosesInserts(ms)
  {
    hide WellFormed, Rebuilt, Repaired, Paired, Unanswered, Loses;
    RepairedIsRebuilt(ms);
    RebuiltPaired(ms);
    WellFormedIff(Repaired(ms));
    if i :| 0 <= i < LastConversationIndex(ms) && Loses(ms, i) {
      LostIsUnanswered(ms, i);
    }
    if j: nat :| j <= LastConversationIndex(Repaired(ms)) && Unanswered(Repaired(ms), j) {
      var i := UnansweredIsLost(ms, j);
    }
  }

  /** Repairing twice changes nothing the second time, in exactly the same cases. */
  lemma RepairIdempotent(ms: seq<Message>)
    ensures RepairAdjacency(Repaired(ms)).None? <==> !LosesInserts(ms)
  {
    hide WellFormed, RepairAdjacency, Paired;
    RepairedWellFormed(ms);
    NoRepairIffWellFormed(Repaired(ms));
  }

  // Who gets which result

  /**
   All the answers the exchanges get, in order: those whose insertion is lost get none, and the
   last one only what exists.
   */
  function Delivered(ms: seq<Message>, x: Id): seq<Block> {
    var last := LastConversationIndex(ms);
    if last < 0 then []
    else
      Shares(ms, x, last)
        + Owned(ms, x, last)[..Min(|Owned(ms, x, last)|, CallCount(AssistantBlocks(ms[last]), x))]
  }

  lemma TailIsOwned(ms: seq<Message>, x: Id)
    requires LastConversationIndex(ms) >= 0
    ensures TailShare(ms, x, LastConversationIndex(ms), |ms|)
         == var last := LastConversationIndex(ms);
            Owned(ms, x, last)[..Min(|Owned(ms, x, last)|, CallCount(AssistantBlocks(ms[last]), x))]
  {
    hide ResultsIn;
    var last := LastConversationIndex(ms);
    var n := NextExchange(ms, x, last);
    if n < |ms| {
      NoBlocks(x);
    }
  }

  /**
   For every history and every id, the results in the repaired history are, in order, exactly the
   answers given to its calls: nothing else is kept, nothing is answered twice, nothing is out of order.
   */
  lemma RepairDelivers(ms: seq<Message>, x: Id)
    ensures ResultsIn(Repaired(ms), x, 0, |Repaired(ms)|) == Delivered(ms, x)
  {
    hide ResultsIn, Rebuilt, Repaired, Results, CallCount, Share, TailShare, Segment, Owned;
    RepairedIsRebuilt(ms);
    var last := LastConversationIndex(ms);
    var out := Rebuilt(ms, last, |ms|);
    if ms == [] {
      RebuiltEmpty(ms, last);
      ResultsInEmpty([], x, 0, 0);
    } else {
      var tail := RebuiltTail(ms, last, |ms|);
      var body := Rebuilt(ms, last, last + 1);
      ResultsInConcat(body, tail, x);
      if last < 0 {
        RebuiltEmpty(ms, last);
        ResultsInEmpty([], x, 0, 0);
        NoBlocks(x);
        NothingBefore(ms, last, x);
      } else {
        RebuiltBody(ms, last, last);
        BodyDelivers(ms, last, x);
        TailIsOwned(ms, x);
      }
    }
  }

  lemma NothingBefore(ms: seq<Message>, last: int, x: Id)
    requires ms != [] && last == -1
    ensures TailShare(ms, x, last, |ms|) == []
  {
  }

  lemma BodyDelivers(ms: seq<Message>, last: int, x: Id)
    requires 0 <= last < |ms| && Built(ms, last, Rebuilt(ms, last, last))
    ensures var body := Rebuilt(ms, last, last + 1);
            ResultsIn(body, x, 0, |body|) == Shares(ms, x, last)
  {
    hide ResultsIn, Rebuilt, Results, CallCount, Share, Shares, Segment, Due, Chain;
    var out := Rebuilt(ms, last, last);
    RebuiltStep(ms, last, last);
    if IsUser(ms[last]) {
      UserSegmentOk(ms, last, last);
      ResultsInConcat(out, Segment(ms, last, last), x);
      SharesDue(ms, x, last);
    } else {
      LastSegment(ms, last);
      BuildKeep(ms, last, out);
    }
  }

  lemma AnsweredByNext(ms: seq<Message>, last: int, i: nat, x: Id)
    requires i < last < |ms| && HasCall(AssistantBlocks(ms[i])) && IsUser(ms[i + 1]) && !Loses(ms, i)
    ensures var seg := Segment(ms, last, i + 1);
            && seg != [] && IsUserBlocks(seg[0])
            && Results(LeadingRun(UserBlocks(seg[0])), x) == Results(UserBlocks(seg[0]), x) == Share(ms, x, i)
  {
    hide Results, CallCount, Segment, Leading, ResultsIn, Share, Loses;
    UserSegmentOk(ms, last, i + 1);
    var seg := Segment(ms, last, i + 1);
    var b :| 0 <= b < |AssistantBlocks(ms[i])| && IsToolUse(AssistantBlocks(ms[i])[b]);
    SomeCall(AssistantBlocks(ms[i]), b);
    DueCount(ms, AssistantBlocks(ms[i])[b].id, i + 1);
    assert seg != [];
    assert seg == [seg[0]];
    ResultsInOne(seg[0], x);
    ResultsPrefix(UserBlocks(seg[0]), Leading(UserBlocks(seg[0])), x);
  }

  lemma AnsweredByNew(ms: seq<Message>, last: int, i: nat, x: Id)
    requires i < last < |ms| && HasCall(AssistantBlocks(ms[i])) && !IsUser(ms[i + 1])
    ensures var seg := Segment(ms, last, i);
            && |seg| == 2 && IsUserBlocks(seg[1])
            && Results(LeadingRun(UserBlocks(seg[1])), x) == Results(UserBlocks(seg[1]), x) == Share(ms, x, i)
  {
    hide Results, CallCount, Leading, Share, Inserts;
    ResultMessageOk(ms, last, i);
    InsertsAreShare(ms, last, i, x);
    var b :| 0 <= b < |AssistantBlocks(ms[i])| && IsToolUse(AssistantBlocks(ms[i])[b]);
    SomeCall(AssistantBlocks(ms[i]), b);
    NoBlocks(AssistantBlocks(ms[i])[b].id);
    assert Inserts(ms, last, i) != [];
  }

  /**
   A real result goes only to a call that precedes it with no call of the same id in a message
   between them; a call gets a synthetic result only if no such result is left for it.
   */
  lemma OwnershipOfPayload(ms: seq<Message>, x: Id, i: nat, r: nat) returns (j: nat, b: nat)
    requires i < |ms| && r < |Owned(ms, x, i)|
    ensures i < j < |ms| && b < |UserBlocks(ms[j])| && IsResultOf(UserBlocks(ms[j])[b], x)
    ensures Payload(ms, x, i, r) == UserBlocks(ms[j])[b]
    ensures forall k :: i < k < j ==> CallCount(AssistantBlocks(ms[k]), x) == 0
    ensures |ResultsIn(ms, x, i + 1, j)| + |Results(UserBlocks(ms[j])[..b], x)| == r
  {
    hide Results, CallCount;
    var n := NextExchange(ms, x, i);
    j, b := NthResultIn(ms, x, i + 1, n, r);
    ResultsInSplit(ms, x, i + 1, j, n);
    ResultsInSplit(ms, x, j, j + 1, n);
    ResultsPrefix(UserBlocks(ms[j]), b, x);
    assert ResultsIn(ms, x, j, j) == [];
  }

  // What is not a result stays

  function SkeletonOf(m: Message): seq<Message> {
    if !IsUser(m) || m.content.OtherContent? then [m]
    else
      var bs := if m.content.Str? then TextBlocks(m.content.text) else NonResults(m.content.blocks);
      if bs == [] then [] else [m.(content := Blocks(bs))]
  }

  /** A history without its results, empty user messages and blank string contents. */
  function Skeleton(ms: seq<Message>): seq<Message> {
    if ms == [] then [] else Skeleton(ms[..|ms| - 1]) + SkeletonOf(ms[|ms| - 1])
  }

  lemma {:induction false} SkeletonConcat(a: seq<Message>, b: seq<Message>)
    ensures Skeleton(a + b) == Skeleton(a) + Skeleton(b)
  {
    if b == [] {
      assert a + b == a;
    } else {
      assert (a + b)[..|a + b| - 1] == a + b[..|b| - 1];
      SkeletonConcat(a, b[..|b| - 1]);
    }
  }

  lemma {:induction false} NonResultsConcat(a: seq<Block>, b: seq<Block>)
    ensures NonResults(a + b) == NonResults(a) + NonResults(b)
  {
    if b == [] {
      assert a + b == a;
    } else {
      assert (a + b)[..|a + b| - 1] == a + b[..|b| - 1];
      NonResultsConcat(a, b[..|b| - 1]);
    }
  }

  lemma {:induction false} NonResultsOfRun(a: seq<Block>)
    requires forall k :: 0 <= k < |a| ==> IsToolResult(a[k])
    ensures NonResults(a) == []
  {
    if a != [] {
      NonResultsOfRun(a[..|a| - 1]);
    }
  }

  lemma {:induction false} KeptNonResults(ms: seq<Message>, last: int, j: nat, k: nat)
    requires j < |ms| && last < |ms| && k <= |UserBlocks(ms[j])|
    ensures NonResults(KeptUpTo(ms, last, j, k)) == NonResults(UserBlocks(ms[j])[..k])
    decreases k
  {
    hide Stays, NonResults;
    var bs := UserBlocks(ms[j]);
    if k == 0 {
      assert bs[..0] == [];
    } else {
      KeptNonResults(ms, last, j, k - 1);
      NonResultsConcat(KeptUpTo(ms, last, j, k - 1), KeptAt(ms, last, j, k - 1));
      NonResultsConcat(bs[..k - 1], [bs[k - 1]]);
      assert bs[..k] == bs[..k - 1] + [bs[k - 1]];
      if IsToolResult(bs[k - 1]) {
        NonResultsOfRun([bs[k - 1]]);
        NonResultsOfRun([]);
      }
    }
  }

  lemma PrependIsResults(ms: seq<Message>, last: int, j: nat)
    requires j < |ms| && last < |ms|
    ensures NonResults(Prepend(ms, last, j)) == []
  {
    hide NonResults, Inserts;
    if j <= last {
      PrependIsRun(ms, last, j);
    } else if j > 0 {
      InsertsPrepend(ms, last, j - 1);
    }
    NonResultsOfRun(Prepend(ms, last, j));
  }

  lemma SplicedNonResults(kept: seq<Block>, pre: seq<Block>)
    requires NonResults(pre) == []
    ensures NonResults(Spliced(kept, pre)) == NonResults(kept)
  {
    hide NonResults, Leading;
    var k := Leading(kept);
    NonResultsConcat(kept[..k] + pre, kept[k..]);
    NonResultsConcat(kept[..k], pre);
    NonResultsConcat(kept[..k], kept[k..]);
    assert kept == kept[..k] + kept[k..];
  }

  lemma SkeletonOfOne(m: Message)
    ensures Skeleton([m]) == SkeletonOf(m)
  {
    assert [m][..0] == [];
  }

  lemma SegmentSkeleton(ms: seq<Message>, last: int, i: nat)
    requires i < |ms| && last < |ms|
    ensures Skeleton(Segment(ms, last, i)) == SkeletonOf(ms[i])
  {
    hide NonResults, Inserts, KeptUpTo, Leading, Skeleton, Spliced;
    var m := ms[i];
    SkeletonOfOne(m);
    PrependIsResults(ms, last, i);
    if IsUser(m) {
      match m.content
      case Blocks(bs) =>
        KeptNonResults(ms, last, i, |bs|);
        assert bs[..|bs|] == bs;
        SplicedNonResults(Kept(ms, last, i), Prepend(ms, last, i));
        SkeletonOfOne(m.(content := Blocks(Spliced(Kept(ms, last, i), Prepend(ms, last, i)))));
        NonResultsOfRun([]);
        SkeletonOfNone();
      case Str(s) =>
        NonResultsConcat(Prepend(ms, last, i), TextBlocks(s));
        TextIsNoResult(s);
        var joined := m.(content := Blocks(Prepend(ms, last, i) + TextBlocks(s)));
        SkeletonOfOne(joined);
        assert NonResults(joined.content.blocks) == TextBlocks(s);
        assert Segment(ms, last, i) == if Prepend(ms, last, i) == [] then [m] else [joined];
      case OtherContent(_) => {}
    } else {
      var r := ResultMessage(Inserts(ms, last, i));
      SkeletonConcat([m], [r]);
      SkeletonOfOne(r);
      if i + 1 < |ms| {
        PrependIsResults(ms, last, i + 1);
      } else {
        InsertsPrepend(ms, last, i);
        NonResultsOfRun([]);
      }
      assert [m] + [] == [m];
      assert [m] + [r] == [m, r];
    }
  }

  lemma SkeletonOfNone()
    ensures Skeleton([]) == []
  {
  }

  lemma TextIsNoResult(s: string)
    ensures NonResults(TextBlocks(s)) == TextBlocks(s)
  {
  }

  lemma {:induction false} RebuiltSkeleton(ms: seq<Message>, last: int, n: nat)
    requires n <= |ms| && last < |ms|
    ensures Skeleton(Rebuilt(ms, last, n)) == Skeleton(ms[..n])
  {
    hide Segment, SkeletonOf, Skeleton;
    SkeletonOfNone();
    if n > 0 {
      RebuiltSkeleton(ms, last, n - 1);
      SkeletonConcat(Rebuilt(ms, last, n - 1), Segment(ms, last, n - 1));
      SegmentSkeleton(ms, last, n - 1);
      SkeletonConcat(ms[..n - 1], [ms[n - 1]]);
      SkeletonOfOne(ms[n - 1]);
      assert ms[..n] == ms[..n - 1] + [ms[n - 1]];
    } else {
      assert ms[..0] == [];
    }
  }

  /** Repair keeps everything that is not a result, in order, whatever the history. */
  lemma RepairKeepsTheRest(ms: seq<Message>)
    ensures Skeleton(Repaired(ms)) == Skeleton(ms)
  {
    hide Rebuilt, Repaired, Skeleton;
    RepairedIsRebuilt(ms);
    RebuiltSkeleton(ms, LastConversationIndex(ms), |ms|);
    assert ms[..|ms|] == ms;
  }
}
