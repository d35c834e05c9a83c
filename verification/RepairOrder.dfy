/** Concrete histories: why adjacency is repaired before ids, and what cannot be repaired. */
module RepairOrder {
  import opened Messages
  import opened Repair
  import opened RepairLemmas
  import opened RepairTheorems
  import opened RepairGuarantees
  import opened Ownership
  import opened Dedupe
  import opened DedupeLemmas
  import opened DedupeTheorems
  import opened StructureRepair

  const PROMPT := Msg(User, Str("go"), "")

  function CallMessage(input: string): Message {
    Msg(Assistant, Blocks([ToolUse("X", input)]), "")
  }

  function AnswerMessage(id: Id, output: string): Message {
    Msg(User, Blocks([ToolResult(id, output)]), "")
  }

  /** A result in front of its call, then two calls of one id with their results. */
  function Crossed(second: Id): seq<Message> {
    [AnswerMessage("X", "stray"), CallMessage("1"), AnswerMessage(second, "one"),
     Msg(Assistant, Blocks([ToolUse(second, "2")]), ""), AnswerMessage("X", "two"), PROMPT]
  }

  lemma OneBlock(b: Block, x: Id)
    ensures CallCount([b], x) == if IsCallOf(b, x) then 1 else 0
    ensures Results([b], x) == if IsResultOf(b, x) then [b] else []
    ensures CallIds([b]) == if IsToolUse(b) then [b.id] else []
  {
    ResultsOfOne(b, x);
    assert [b][..0] == [];
  }

  lemma CrossedNext(second: Id)
    requires |second| > 0
    ensures NextExchange(Crossed(second), "X", 1) == if second == "X" then 3 else 6
  {
    hide CallCount;
    var h := Crossed(second);
    NoBlocks("X");
    OneBlock(ToolUse(second, "2"), "X");
    assert CallCount(AssistantBlocks(h[3]), "X") == if second == "X" then 1 else 0;
    assert forall k :: k in {2, 4, 5} ==> AssistantBlocks(h[k]) == [];
    var n := NextExchange(h, "X", 1);
    assert n != 2 && n != 4 && n != 5;
  }

  lemma CrossedOwned(second: Id)
    requires |second| > 0
    ensures Payload(Crossed(second), "X", 1, 0) == ToolResult("X", if second == "X" then "one" else "two")
  {
    hide Results, NextExchange;
    var h := Crossed(second);
    CrossedNext(second);
    CrossedAnswers(second);
    hide ResultsIn;
  }

  lemma CrossedAnswers(second: Id)
    requires |second| > 0
    ensures ResultsIn(Crossed(second), "X", 2, 3) == if second == "X" then [ToolResult("X", "one")] else []
    ensures ResultsIn(Crossed(second), "X", 2, 6)
         == (if second == "X" then [ToolResult("X", "one")] else []) + [ToolResult("X", "two")]
  {
    hide Results;
    var h := Crossed(second);
    NoBlocks("X");
    OneBlock(ToolResult(second, "one"), "X");
    OneBlock(ToolResult("X", "two"), "X");
    assert UserBlocks(h[2]) == [ToolResult(second, "one")];
    assert UserBlocks(h[4]) == [ToolResult("X", "two")];
    assert UserBlocks(h[3]) == [] && UserBlocks(h[5]) == [];
    assert ResultsIn(h, "X", 2, 2) == [];
    assert ResultsIn(h, "X", 2, 3) == if second == "X" then [ToolResult("X", "one")] else [];
    assert ResultsIn(h, "X", 2, 4) == ResultsIn(h, "X", 2, 3);
    assert ResultsIn(h, "X", 2, 5) == ResultsIn(h, "X", 2, 4) + [ToolResult("X", "two")];
    assert ResultsIn(h, "X", 2, 6) == ResultsIn(h, "X", 2, 5);
  }

  lemma CrossedCalls()
    ensures CallSeq(Crossed("X"), 6) == ["X", "X"]
  {
    var h := Crossed("X");
    OneBlock(ToolUse("X", "1"), "X");
    OneBlock(ToolUse("X", "2"), "X");
    assert CallIds([]) == [];
    assert CallSeq(h, 1) == [];
    assert CallSeq(h, 2) == ["X"];
    assert CallSeq(h, 3) == ["X"];
    assert CallSeq(h, 4) == ["X", "X"];
    assert CallSeq(h, 5) == ["X", "X"];
  }

  lemma CrossedRenames()
    ensures var t := RenamesOf(Crossed("X"));
            && ("X", 1) !in t && ("X", 3) !in t && ("X", 2) in t && t[("X", 2)] != "X" && |t[("X", 2)]| > 0
  {
    hide Renaming;
    CrossedCalls();
    var calls := CallSeq(Crossed("X"), 6);
    RenamingGood(calls, AllIds(calls));
    RenamedNonEmpty(calls, AllIds(calls));
    assert Occ(["X", "X"], "X") == 2;
    assert "X" in AllIds(calls);
  }

  /** With ids made unique first, the second call and the first result get a new id. */
  lemma CrossedDeduped() returns (renamed: Id)
    ensures renamed != "X" && |renamed| > 0 && Deduped(Crossed("X")) == Crossed(renamed)
  {
    hide RenamesOf, Results, CallCount, CallSeq, ResultsIn, DedupedMessage;
    var h := Crossed("X");
    var t := RenamesOf(h);
    CrossedRenames();
    CrossedCalls();
    renamed := t[("X", 2)];
    assert Occ(["X", "X"], "X") == 2;
    assert HasDuplicate(CallSeq(h, |h|));
    CrossedNumbers();
    DedupedSingle(h, t, 0);
    DedupedSingle(h, t, 1);
    DedupedSingle(h, t, 2);
    DedupedSingle(h, t, 3);
    DedupedSingle(h, t, 4);
    DedupedText(h, t, 5);
    assert AllDeduped(h, t) == Crossed(renamed);
  }

  lemma DedupedText(ms: seq<Message>, t: Renames, i: nat)
    requires i < |ms| && ms[i].Msg? && ms[i].content.Str?
    ensures DedupedMessage(ms, t, i) == ms[i]
  {
  }

  /** What renaming makes of a message with a single block. */
  lemma DedupedSingle(ms: seq<Message>, t: Renames, i: nat)
    requires i < |ms| && ms[i].Msg? && ms[i].content.Blocks? && |ms[i].content.blocks| == 1
    ensures DedupedMessage(ms, t, i) == ms[i].(content := Blocks([DedupedBlock(ms, t, i, 0)]))
  {
    hide DedupedBlock;
    assert DedupedMessage(ms, t, i).content.blocks == [DedupedBlock(ms, t, i, 0)];
  }

  /** How many results and calls come before each message. */
  lemma CrossedResults()
    ensures var h := Crossed("X");
            && |ResultsIn(h, "X", 0, 1)| == 1 && |ResultsIn(h, "X", 0, 2)| == 1
            && |ResultsIn(h, "X", 0, 3)| == 2 && |ResultsIn(h, "X", 0, 4)| == 2
  {
    hide Results;
    var h := Crossed("X");
    NoBlocks("X");
    OneBlock(ToolResult("X", "stray"), "X");
    OneBlock(ToolResult("X", "one"), "X");
    assert ResultsIn(h, "X", 0, 1) == [] + Results(UserBlocks(h[0]), "X");
    assert ResultsIn(h, "X", 0, 2) == ResultsIn(h, "X", 0, 1) + Results(UserBlocks(h[1]), "X");
    assert ResultsIn(h, "X", 0, 3) == ResultsIn(h, "X", 0, 2) + Results(UserBlocks(h[2]), "X");
    assert ResultsIn(h, "X", 0, 4) == ResultsIn(h, "X", 0, 3) + Results(UserBlocks(h[3]), "X");
  }

  lemma CrossedSequences()
    ensures var h := Crossed("X");
            CallSeq(h, 1) == [] && CallSeq(h, 2) == ["X"] && CallSeq(h, 3) == ["X"]
  {
    OneBlock(ToolUse("X", "1"), "X");
    assert CallIds([]) == [];
  }

  lemma CrossedNumbers()
    ensures var h := Crossed("X");
            && ResultsSoFar(h, "X", 0, 0) == 0 && CallsSoFar(h, "X", 1, 0) == 0
            && ResultsSoFar(h, "X", 2, 0) == 1 && CallsSoFar(h, "X", 3, 0) == 1
            && ResultsSoFar(h, "X", 4, 0) == 2
  {
    var h := Crossed("X");
    NoBlocks("X");
    CrossedResults();
    CrossedSequences();
    assert ResultsIn(h, "X", 0, 0) == [];
    hide Results, CallCount, ResultsIn, CallSeq;
    forall k | 0 <= k < 6
      ensures UserBlocks(h[k])[..0] == [] && AssistantBlocks(h[k])[..0] == []
    {
    }
  }

  /**
   The order of the two repairs matters: for this history, repair gives the first call its own
   result, but repair after making ids unique gives it the result of the second call.
   */
  lemma WrongOrderMisdelivers()
    ensures Payload(Crossed("X"), "X", 1, 0) == ToolResult("X", "one")
    ensures Payload(Deduped(Crossed("X")), "X", 1, 0) == ToolResult("X", "two")
  {
    hide Payload, Deduped;
    CrossedOwned("X");
    var renamed := CrossedDeduped();
    CrossedOwned(renamed);
  }

  // A user message whose content is neither text nor an array

  const NULL_MESSAGE := Msg(User, OtherContent("null"), "")

  /** A call, such a message, and what comes after it. */
  function Interrupted(rest: seq<Message>): seq<Message> {
    [CallMessage("1"), NULL_MESSAGE] + rest
  }

  lemma InterruptedLoses(rest: seq<Message>)
    ensures var ms := Interrupted(rest);
            Loses(ms, 0) && LastConversationIndex(ms) >= 1
  {
    var ms := Interrupted(rest);
    assert IsToolUse(AssistantBlocks(ms[0])[0]);
    assert IsConversationPoint(ms[1]);
  }

  /** A history that repair cannot make well formed: the results have nowhere to go. */
  lemma UnrepairableHistory()
    ensures !WellFormed(Repaired(Interrupted([])))
  {
    hide WellFormed, Repaired, Loses, Interrupted;
    InterruptedLoses([]);
    RepairedWellFormed(Interrupted([]));
  }

  /** The real result of a call is destroyed: it is taken from where it was and put nowhere. */
  lemma LostInsertionDestroys()
    ensures var ms := Interrupted([AnswerMessage("X", "one"), PROMPT]);
            && ResultsIn(ms, "X", 0, 4) == [ToolResult("X", "one")]
            && ResultsIn(Repaired(ms), "X", 0, |Repaired(ms)|) == []
  {
    hide Results, CallCount, Repaired, ResultsIn, Delivered;
    var rest := [AnswerMessage("X", "one"), PROMPT];
    var ms := Interrupted(rest);
    OneBlock(ToolResult("X", "one"), "X");
    NoBlocks("X");
    ResultsInEmpty(ms, "X", 0, 2);
    ResultsInSplit(ms, "X", 0, 2, 4);
    ResultsInSplit(ms, "X", 2, 3, 4);
    ResultsInSingle(ms, "X", 2);
    ResultsInSingle(ms, "X", 3);
    RepairDelivers(ms, "X");
    NothingDelivered(rest);
  }

  lemma NothingDelivered(rest: seq<Message>)
    requires |rest| == 2 && IsUserBlocks(rest[0]) && rest[1] == PROMPT
    ensures Delivered(Interrupted(rest), "X") == []
  {
    hide Results, CallCount, ResultsIn, Shares, Owned, Loses;
    var ms := Interrupted(rest);
    InterruptedLoses(rest);
    NoBlocks("X");
    assert LastConversationIndex(ms) == 3 by { assert IsConversationPoint(ms[3]); }
    assert Shares(ms, "X", 1) == [] by { FirstLost(ms, "X"); }
    SharesSkip(ms, "X", 1);
    SharesSkip(ms, "X", 2);
  }

  lemma FirstLost(ms: seq<Message>, x: Id)
    requires ms != [] && Loses(ms, 0)
    ensures Shares(ms, x, 1) == []
  {
    hide Share, Loses;
    assert Shares(ms, x, 0) == [];
  }

  function Overtaking(): seq<Message> {
    Interrupted([CallMessage("2"), AnswerMessage("X", "two"), PROMPT])
  }

  lemma OvertakingBlocks()
    ensures var ms := Overtaking();
            && LastConversationIndex(ms) == 4
            && (forall k :: 0 <= k < 5 ==> CallCount(AssistantBlocks(ms[k]), "X") == if k == 0 || k == 2 then 1 else 0)
            && (forall k :: 0 <= k < 5 ==>
                  Results(UserBlocks(ms[k]), "X") == if k == 3 then [ToolResult("X", "two")] else [])
            && Leading(UserBlocks(ms[3])) == 1
  {
    hide Results, CallCount;
    var ms := Overtaking();
    NoBlocks("X");
    OneBlock(ToolUse("X", "1"), "X");
    OneBlock(ToolUse("X", "2"), "X");
    OneBlock(ToolResult("X", "two"), "X");
    assert IsConversationPoint(ms[4]);
  }

  /** There is nothing that repair could change in this history. */
  lemma OvertakingRepaired()
    ensures Repaired(Overtaking()) == Overtaking()
  {
    hide Results, CallCount, Repaired, Rebuilt, Segment, Leading, LastConversationIndex;
    var ms := Overtaking();
    OvertakingBlocks();
    RepairedIsRebuilt(ms);
    OvertakingStart();
    OvertakingAnswer();
    OvertakingPrompt();
    RebuiltEmpty(ms, 4);
    RebuiltStep(ms, 4, 0);
    RebuiltStep(ms, 4, 1);
    RebuiltStep(ms, 4, 2);
    RebuiltStep(ms, 4, 3);
    RebuiltStep(ms, 4, 4);
  }

  lemma OvertakingStart()
    ensures var ms := Overtaking();
            Segment(ms, 4, 0) == [ms[0]] && Segment(ms, 4, 1) == [ms[1]] && Segment(ms, 4, 2) == [ms[2]]
  {
    hide Results, CallCount, Repaired, Segment, Leading, LastConversationIndex;
    var ms := Overtaking();
    KeptBare(ms, 4, 0);
    OtherBare(ms, 4, 1);
    KeptBare(ms, 4, 2);
  }

  lemma OvertakingPrompt()
    ensures Segment(Overtaking(), 4, 4) == [PROMPT]
  {
    assert InsertsUpTo(Overtaking(), 3, 0) == [];
  }

  lemma OvertakingAnswer()
    ensures Segment(Overtaking(), 4, 3) == [AnswerMessage("X", "two")]
  {
    hide Results, CallCount, Leading;
    var ms := Overtaking();
    OvertakingBlocks();
    NoBlocks("X");
    var bs := UserBlocks(ms[3]);
    assert bs[..0] == [] && bs[..1] == bs && AssistantBlocks(ms[2])[..0] == [];
    assert InPlace(ms, "X", 2, 0);
    assert InsertsUpTo(ms, 2, 0) == [] && InsertAt(ms, 2, 0) == [];
    assert InsertsUpTo(ms, 2, 1) == [];
    assert Prepend(ms, 4, 3) == [];
    assert Stays(ms, 4, 3, 0);
    assert KeptUpTo(ms, 4, 3, 0) == [] && KeptAt(ms, 4, 3, 0) == bs;
    assert KeptUpTo(ms, 4, 3, 1) == bs;
    assert Spliced(bs, []) == bs;
  }

  lemma OvertakingOwner()
    ensures Owns(Overtaking(), Spot(2, 0), Spot(3, 0))
  {
    hide Results, CallCount;
    var ms := Overtaking();
    OvertakingBlocks();
    NoBlocks("X");
    assert NextExchange(ms, "X", 2) == 5;
    assert AssistantBlocks(ms[2])[..0] == [] && UserBlocks(ms[3])[..0] == [];
    assert ResultsIn(ms, "X", 3, 3) == [];
  }

  lemma OvertakingNumbers()
    ensures var ms := Overtaking();
            && CallAt(ms, Spot(0, 0)) && ResultAt(ms, Spot(3, 0)) && CallAt(ms, Spot(2, 0))
            && CallBlock(ms, Spot(0, 0)).id == CallBlock(ms, Spot(2, 0)).id == ResultBlock(ms, Spot(3, 0)).id
            && CallNumber(ms, Spot(0, 0)) == ResultNumber(ms, Spot(3, 0)) == 1
  {
    hide Results, CallCount, ResultsIn, TotalCalls;
    var ms := Overtaking();
    OvertakingResults();
    NoBlocks("X");
    NoCallsInNothing(ms, "X");
    assert AssistantBlocks(ms[0])[..0] == [] && UserBlocks(ms[3])[..0] == [];
  }

  lemma OvertakingResults()
    ensures ResultsIn(Overtaking(), "X", 0, 3) == []
  {
    hide Results, CallCount, Overtaking;
    OvertakingBlocks();
    ResultsInEmpty(Overtaking(), "X", 0, 3);
  }

  /**
   Where an insertion is lost, making ids unique gives a call the result of a later one: repair
   leaves the history as it is, with the result owned by the second call, and then the second call
   gets a new id while the result keeps the old one.
   */
  lemma LostInsertionMisdelivers()
    ensures Owns(Repaired(Overtaking()), Spot(2, 0), Spot(3, 0))
    ensures Owns(Structured(Overtaking()), Spot(0, 0), Spot(3, 0))
    ensures !Owns(Structured(Overtaking()), Spot(2, 0), Spot(3, 0))
  {
    hide Repaired, Owns, Paired, WellFormed, UniqueCalls, UniqueResults, CallSeq, RenamesOf, AllDeduped, Overtaking,
      CallBlock, ResultBlock, CallAt, ResultAt, CallNumber, ResultNumber;
    var ms := Overtaking();
    OvertakingRepaired();
    OvertakingOwner();
    OvertakingNumbers();
    RepairedWellFormed(ms);
    NoDuplicateIffUnique(ms);
    if UniqueCalls(ms) {
      TwoCallsOnce(ms, Spot(0, 0), Spot(2, 0));
    }
    var ns := AllDeduped(ms, RenamesOf(ms));
    NewIds(ms, Spot(0, 0), Spot(3, 0));
    AllDedupedUnique(ms);
    AllDedupedUniqueResults(ms);
    UniqueOwns(ns, Spot(0, 0), Spot(3, 0));
    if Owns(ns, Spot(2, 0), Spot(3, 0)) {
      OneOwner(ns, Spot(0, 0), Spot(2, 0), Spot(3, 0));
    }
  }
}
