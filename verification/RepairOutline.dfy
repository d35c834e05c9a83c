/** Which messages the repaired history has, and what each of them comes from. */
module RepairOutline {
  import opened Common
  import opened Messages
  import opened Repair
  import opened RepairLemmas
  import opened RepairGuarantees
  import opened Ownership

  /** A message of the original history, or one that is added after it. */
  datatype Origin = Kept(i: nat) | Added(i: nat)

  /** Some call owns the result at `p`, and the result may stay where it is. */
  ghost predicate Settled(ms: seq<Message>, p: Spot) {
    exists c :: Owns(ms, c, p) && (c.msg == LastConversationIndex(ms) || InPosition(ms, c, p))
  }

  /** Block `b` of message `i` is a result that may not stay. */
  ghost predicate Leaves(ms: seq<Message>, i: nat, b: nat) {
    ResultAt(ms, Spot(i, b)) && !Settled(ms, Spot(i, b))
  }

  /** Message `i` has to answer calls. */
  predicate Due(ms: seq<Message>, i: nat) {
    0 < i <= LastConversationIndex(ms) && HasCall(CallsBefore(ms, i))
  }

  /** The messages that disappear: arrays of results of which none may stay, where no answer is due. */
  ghost predicate Vanishes(ms: seq<Message>, i: nat)
    requires i < |ms|
  {
    && UserBlocks(ms[i]) != [] && !Due(ms, i)
    && forall b :: 0 <= b < |UserBlocks(ms[i])| ==> Leaves(ms, i, b)
  }

  /** A message is added for calls that no user message follows. */
  predicate Adds(ms: seq<Message>, i: nat)
    requires i < |ms|
  {
    i < LastConversationIndex(ms) && HasCall(AssistantBlocks(ms[i])) && !NextIsUser(ms, i)
  }

  ghost function OriginsOf(ms: seq<Message>, i: nat): seq<Origin>
    requires i < |ms|
  {
    (if Vanishes(ms, i) then [] else [Kept(i)]) + (if Adds(ms, i) then [Added(i)] else [])
  }

  /** Where the messages of the repaired history come from, in order. */
  ghost function Origins(ms: seq<Message>, n: nat): seq<Origin>
    requires n <= |ms|
  {
    if n == 0 then [] else Origins(ms, n - 1) + OriginsOf(ms, n - 1)
  }

  predicate AllResults(bs: seq<Block>) {
    forall b :: 0 <= b < |bs| ==> IsToolResult(bs[b])
  }

  /** `s` as an array behind some results; a blank text is left out. */
  predicate TextAfterResults(s: string, bs: seq<Block>) {
    exists k :: 0 < k <= |bs| && AllResults(bs[..k]) && bs[k..] == if IsBlank(s) then [] else [Text(s)]
  }

  /** What a message that does not disappear becomes; an array is emptied only if it was empty. */
  predicate Becomes(ms: seq<Message>, i: nat, m: Message)
    requires i < |ms|
  {
    if !IsUser(ms[i]) || ms[i].content.OtherContent? || (ms[i].content.Str? && !Due(ms, i)) then m == ms[i]
    else
      && IsUserBlocks(m) && m.extra == ms[i].extra
      && match ms[i].content
         case Str(s) => TextAfterResults(s, UserBlocks(m))
         case Blocks(bs) => NonResults(UserBlocks(m)) == NonResults(bs) && (UserBlocks(m) == [] ==> bs == [])
  }

  predicate ComesFrom(ms: seq<Message>, o: Origin, m: Message) {
    && o.i < |ms|
    && match o
       case Kept(i) => Becomes(ms, i, m)
       case Added(_) => m == Msg(User, Blocks(UserBlocks(m)), "") && UserBlocks(m) != [] && AllResults(UserBlocks(m))
  }

  predicate AllComeFrom(ms: seq<Message>, from: seq<Origin>, out: seq<Message>) {
    |from| == |out| && forall k :: 0 <= k < |out| ==> ComesFrom(ms, from[k], out[k])
  }

  // What is inserted before a message

  /** No results are in place. */
  lemma PrependIffCalls(ms: seq<Message>, i: nat)
    requires i < |ms|
    requires forall x ::
               0 < i <= LastConversationIndex(ms) && CallCount(CallsBefore(ms, i), x) > 0 ==>
                 InPlaceCount(ms, x, i - 1) == 0
    ensures Prepend(ms, LastConversationIndex(ms), i) == [] <==> !Due(ms, i)
  {
    hide CallCount, InPlaceCount, Inserts, LastConversationIndex, HasCall;
    var last := LastConversationIndex(ms);
    if 0 < i <= last {
      InsertsEmpty(ms, last, i - 1);
      CallsIffSome(CallsBefore(ms, i));
    } else if 0 < i {
      NothingInserted(ms, last, i - 1);
    }
  }

  lemma NothingInserted(ms: seq<Message>, last: int, i: nat)
    requires last < |ms| && last <= i < |ms|
    ensures Inserts(ms, last, i) == []
  {
  }

  lemma CallsIffSome(bs: seq<Block>)
    ensures HasCall(bs) <==> exists x :: CallCount(bs, x) > 0
  {
    hide CallCount;
    if b :| 0 <= b < |bs| && IsToolUse(bs[b]) {
      SomeCall(bs, b);
    }
    if x :| CallCount(bs, x) > 0 {
      var k := NthCall(bs, x, 0);
      assert IsToolUse(bs[k]);
    }
  }

  lemma NoneInPlace(ms: seq<Message>, i: nat, x: Id)
    requires i + 1 < |ms| && UserBlocks(ms[i + 1]) == []
    ensures InPlaceCount(ms, x, i) == 0
  {
    NoBlocks(x);
  }

  /** The first result in place stays. */
  lemma FirstInPlace(ms: seq<Message>, i: nat, x: Id) returns (b: nat)
    requires 0 < i <= LastConversationIndex(ms)
    requires CallCount(CallsBefore(ms, i), x) > 0 && InPlaceCount(ms, x, i - 1) > 0
    ensures b < |UserBlocks(ms[i])| && IsToolResult(UserBlocks(ms[i])[b])
    ensures Stays(ms, LastConversationIndex(ms), i, b)
  {
    hide Results, CallCount, Leading, LastConversationIndex;
    var bs := UserBlocks(ms[i]);
    b := NthResult(LeadingRun(bs), x, 0);
    assert LeadingRun(bs)[..b] == bs[..b] && LeadingRun(bs)[b] == bs[b];
  }

  /** Where no result stays, none is in place. */
  lemma NoneStaysNoneInPlace(ms: seq<Message>, i: nat, x: Id)
    requires 0 < i <= LastConversationIndex(ms) && NoneStays(ms, i) && CallCount(CallsBefore(ms, i), x) > 0
    ensures InPlaceCount(ms, x, i - 1) == 0
  {
    hide Stays, InPlaceCount, CallCount, LastConversationIndex;
    if InPlaceCount(ms, x, i - 1) > 0 {
      var b := FirstInPlace(ms, i, x);
    }
  }

  /** The blocks of message `i` are results, and none of them stays. */
  predicate NoneStays(ms: seq<Message>, i: nat)
    requires i < |ms|
  {
    forall b :: 0 <= b < |UserBlocks(ms[i])| ==>
      IsToolResult(UserBlocks(ms[i])[b]) && !Stays(ms, LastConversationIndex(ms), i, b)
  }

  lemma NoneStaysIsUnsettled(ms: seq<Message>, i: nat)
    requires i < |ms|
    ensures NoneStays(ms, i) <==> forall b :: 0 <= b < |UserBlocks(ms[i])| ==> Leaves(ms, i, b)
  {
    hide Stays, LastConversationIndex, Owns, InPosition;
    forall b | 0 <= b < |UserBlocks(ms[i])|
      ensures Leaves(ms, i, b) <==>
              IsToolResult(UserBlocks(ms[i])[b]) && !Stays(ms, LastConversationIndex(ms), i, b)
    {
      if IsToolResult(UserBlocks(ms[i])[b]) {
        StaysIffOwned(ms, LastConversationIndex(ms), Spot(i, b));
      }
    }
  }

  lemma NoneKept(ms: seq<Message>, last: int, j: nat)
    requires j < |ms| && last < |ms|
    ensures KeptUpTo(ms, last, j, 0) == []
  {
  }

  lemma OneKept(ms: seq<Message>, last: int, j: nat, k: nat)
    requires j < |ms| && last < |ms| && 0 < k <= |UserBlocks(ms[j])|
    ensures KeptUpTo(ms, last, j, k) == [] <==>
            KeptUpTo(ms, last, j, k - 1) == []
            && IsToolResult(UserBlocks(ms[j])[k - 1]) && !Stays(ms, last, j, k - 1)
  {
    hide Stays, UserBlocks, IsToolResult;
  }

  lemma {:induction false} KeptNone(ms: seq<Message>, last: int, j: nat, k: nat)
    requires j < |ms| && last < |ms| && k <= |UserBlocks(ms[j])|
    ensures KeptUpTo(ms, last, j, k) == [] <==>
            forall b :: 0 <= b < k ==> IsToolResult(UserBlocks(ms[j])[b]) && !Stays(ms, last, j, b)
    decreases k
  {
    hide *;
    NoneKept(ms, last, j);
    if k > 0 {
      KeptNone(ms, last, j, k - 1);
      OneKept(ms, last, j, k);
    }
  }

  lemma SplicedNone(kept: seq<Block>, prepend: seq<Block>)
    ensures Spliced(kept, prepend) == [] <==> kept == [] && prepend == []
  {
    assert kept == kept[..Leading(kept)] + kept[Leading(kept)..];
  }

  lemma EmptiedIffVanishes(ms: seq<Message>, i: nat)
    requires i < |ms| && IsUserBlocks(ms[i]) && UserBlocks(ms[i]) != []
    ensures var last := LastConversationIndex(ms);
            Spliced(Repair.Kept(ms, last, i), Prepend(ms, last, i)) == [] <==> Vanishes(ms, i)
  {
    hide Spliced, Prepend, KeptUpTo, LastConversationIndex, Settled, Stays, Due, CallCount, InPlaceCount;
    var last := LastConversationIndex(ms);
    SplicedNone(Repair.Kept(ms, last, i), Prepend(ms, last, i));
    KeptNone(ms, last, i, |UserBlocks(ms[i])|);
    NoneStaysIsUnsettled(ms, i);
    if NoneStays(ms, i) {
      forall x | 0 < i <= last && CallCount(CallsBefore(ms, i), x) > 0
        ensures InPlaceCount(ms, x, i - 1) == 0
      {
        NoneStaysNoneInPlace(ms, i, x);
      }
      PrependIffCalls(ms, i);
    }
  }

  // What each message becomes

  lemma OneComesFrom(ms: seq<Message>, o: Origin, m: Message)
    requires ComesFrom(ms, o, m)
    ensures AllComeFrom(ms, [o], [m])
  {
  }

  lemma NoneComesFrom(ms: seq<Message>)
    ensures AllComeFrom(ms, [], [])
  {
  }

  lemma UserOrigins(ms: seq<Message>, i: nat)
    requires i < |ms| && IsUser(ms[i])
    ensures OriginsOf(ms, i) == if Vanishes(ms, i) then [] else [Kept(i)]
  {
    hide Vanishes, NextIsUser, LastConversationIndex;
  }

  lemma ArrayKeepsTheRest(ms: seq<Message>, last: int, i: nat)
    requires i < |ms| && last < |ms|
    ensures NonResults(Spliced(Repair.Kept(ms, last, i), Prepend(ms, last, i))) == NonResults(UserBlocks(ms[i]))
  {
    hide Spliced, Prepend, KeptUpTo, NonResults;
    var bs := UserBlocks(ms[i]);
    KeptNonResults(ms, last, i, |bs|);
    assert bs[..|bs|] == bs;
    PrependIsResults(ms, last, i);
    SplicedNonResults(Repair.Kept(ms, last, i), Prepend(ms, last, i));
  }

  lemma ArrayBecomes(ms: seq<Message>, i: nat)
    requires i < |ms| && IsUserBlocks(ms[i])
    ensures AllComeFrom(ms, OriginsOf(ms, i), Segment(ms, LastConversationIndex(ms), i))
  {
    hide Spliced, Prepend, Repair.Kept, LastConversationIndex, Due, NonResults, Vanishes, OriginsOf, AllComeFrom,
      TextBlocks, TextAfterResults, Inserts, NextIsUser;
    var last, bs := LastConversationIndex(ms), UserBlocks(ms[i]);
    var content := Spliced(Repair.Kept(ms, last, i), Prepend(ms, last, i));
    UserOrigins(ms, i);
    NoneComesFrom(ms);
    ArrayKeepsTheRest(ms, last, i);
    if bs != [] {
      EmptiedIffVanishes(ms, i);
    } else {
      NeverVanishes(ms, i);
    }
    if !Vanishes(ms, i) {
      OneComesFrom(ms, Kept(i), if content == bs then ms[i] else ms[i].(content := Blocks(content)));
    }
  }

  lemma NeverVanishes(ms: seq<Message>, i: nat)
    requires i < |ms| && UserBlocks(ms[i]) == []
    ensures !Vanishes(ms, i)
  {
  }

  /** What is inserted is inserted as results. */
  lemma PrependAllResults(ms: seq<Message>, last: int, i: nat)
    requires i < |ms| && last < |ms|
    ensures AllResults(Prepend(ms, last, i))
  {
    hide Inserts;
    if i > 0 && i - 1 < last {
      InsertsResults(ms, last, i - 1, "");
    } else if i > 0 {
      NothingInserted(ms, last, i - 1);
    }
  }

  lemma BareInserts(ms: seq<Message>, i: nat)
    requires i < |ms| && UserBlocks(ms[i]) == []
    ensures Prepend(ms, LastConversationIndex(ms), i) == [] <==> !Due(ms, i)
  {
    hide Prepend, LastConversationIndex, Due, CallCount, InPlaceCount;
    if 0 < i {
      forall x | CallCount(CallsBefore(ms, i), x) > 0
        ensures InPlaceCount(ms, x, i - 1) == 0
      {
        NoneInPlace(ms, i - 1, x);
      }
    }
    PrependIffCalls(ms, i);
  }

  lemma TextInserted(s: string, pre: seq<Block>)
    requires AllResults(pre) && pre != []
    ensures TextAfterResults(s, pre + TextBlocks(s))
  {
    hide IsBlank;
    var bs := pre + TextBlocks(s);
    assert bs[..|pre|] == pre && bs[|pre|..] == TextBlocks(s);
  }

  lemma TextBecomes(ms: seq<Message>, i: nat)
    requires i < |ms| && IsUser(ms[i]) && ms[i].content.Str?
    ensures AllComeFrom(ms, OriginsOf(ms, i), Segment(ms, LastConversationIndex(ms), i))
  {
    hide Prepend, LastConversationIndex, Due, Vanishes, TextBlocks, TextAfterResults, OriginsOf, AllComeFrom,
      AllResults, Spliced, Repair.Kept, NonResults, Inserts, NextIsUser;
    var last, s := LastConversationIndex(ms), ms[i].content.text;
    UserOrigins(ms, i);
    NeverVanishes(ms, i);
    BareInserts(ms, i);
    PrependAllResults(ms, last, i);
    var pre := Prepend(ms, last, i);
    if pre == [] {
      OneComesFrom(ms, Kept(i), ms[i]);
    } else {
      TextInserted(s, pre);
      OneComesFrom(ms, Kept(i), ms[i].(content := Blocks(pre + TextBlocks(s))));
    }
  }

  lemma OtherBecomes(ms: seq<Message>, i: nat)
    requires i < |ms| && IsUser(ms[i]) && ms[i].content.OtherContent?
    ensures AllComeFrom(ms, OriginsOf(ms, i), Segment(ms, LastConversationIndex(ms), i))
  {
    hide LastConversationIndex, Vanishes, OriginsOf, AllComeFrom, Prepend, Due;
    UserOrigins(ms, i);
    NeverVanishes(ms, i);
    OneComesFrom(ms, Kept(i), ms[i]);
  }

  lemma AddedInserts(ms: seq<Message>, i: nat)
    requires i < |ms| && !NextIsUser(ms, i)
    ensures var ins := Inserts(ms, LastConversationIndex(ms), i);
            AllResults(ins) && (ins != [] <==> Adds(ms, i))
  {
    hide Inserts, LastConversationIndex, HasCall;
    var last := LastConversationIndex(ms);
    if i < last {
      BareInserts(ms, i + 1);
      PrependAllResults(ms, last, i + 1);
      assert Prepend(ms, last, i + 1) == Inserts(ms, last, i);
    } else {
      NothingInserted(ms, last, i);
    }
  }

  lemma OthersBecome(ms: seq<Message>, i: nat)
    requires i < |ms| && !IsUser(ms[i])
    ensures AllComeFrom(ms, OriginsOf(ms, i), Segment(ms, LastConversationIndex(ms), i))
  {
    hide Inserts, LastConversationIndex, HasCall, Vanishes, Adds, NextIsUser;
    NeverVanishes(ms, i);
    if !NextIsUser(ms, i) {
      AddedInserts(ms, i);
    } else {
      NothingAdded(ms, i);
    }
  }

  lemma NothingAdded(ms: seq<Message>, i: nat)
    requires i < |ms| && NextIsUser(ms, i)
    ensures !Adds(ms, i)
  {
  }

  lemma SegmentComesFrom(ms: seq<Message>, i: nat)
    requires i < |ms|
    ensures AllComeFrom(ms, OriginsOf(ms, i), Segment(ms, LastConversationIndex(ms), i))
  {
    hide Segment, OriginsOf, AllComeFrom, LastConversationIndex;
    if !IsUser(ms[i]) {
      OthersBecome(ms, i);
    } else {
      match ms[i].content {
        case Blocks(_) => ArrayBecomes(ms, i);
        case Str(_) => TextBecomes(ms, i);
        case OtherContent(_) => OtherBecomes(ms, i);
      }
    }
  }

  lemma AllComeFromConcat(ms: seq<Message>, a: seq<Origin>, x: seq<Message>, b: seq<Origin>, y: seq<Message>)
    requires AllComeFrom(ms, a, x) && AllComeFrom(ms, b, y)
    ensures AllComeFrom(ms, a + b, x + y)
  {
    hide ComesFrom;
  }

  lemma {:induction false} RebuiltComesFrom(ms: seq<Message>, n: nat)
    requires n <= |ms|
    ensures AllComeFrom(ms, Origins(ms, n), Rebuilt(ms, LastConversationIndex(ms), n))
    decreases n
  {
    hide Segment, OriginsOf, ComesFrom, LastConversationIndex;
    if n > 0 {
      RebuiltComesFrom(ms, n - 1);
      SegmentComesFrom(ms, n - 1);
      AllComeFromConcat(ms, Origins(ms, n - 1), Rebuilt(ms, LastConversationIndex(ms), n - 1),
                        OriginsOf(ms, n - 1), Segment(ms, LastConversationIndex(ms), n - 1));
    }
  }

  /**
   For every history, the repaired one has exactly these messages, in order: each message of the
   original unless it disappears, and behind a message with calls that no user message follows,
   one for the answers.
   */
  lemma RepairOutlined(ms: seq<Message>)
    ensures AllComeFrom(ms, Origins(ms, |ms|), Repaired(ms))
  {
    hide Repaired, Rebuilt, AllComeFrom, Origins;
    RepairedIsRebuilt(ms);
    RebuiltComesFrom(ms, |ms|);
  }

  /** In particular, no user message is left with an empty array that had none. */
  lemma NothingIsEmptied(ms: seq<Message>, k: nat)
    requires k < |Repaired(ms)| && IsUserBlocks(Repaired(ms)[k]) && UserBlocks(Repaired(ms)[k]) == []
    ensures Repaired(ms)[k] in ms
  {
    hide Repaired, Origins;
    RepairOutlined(ms);
    var o := Origins(ms, |ms|)[k];
    assert ComesFrom(ms, o, Repaired(ms)[k]);
    assert o.Kept? && Becomes(ms, o.i, Repaired(ms)[k]);
    assert Repaired(ms)[k] == ms[o.i];
  }
}
