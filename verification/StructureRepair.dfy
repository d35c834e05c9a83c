/**
 The passes that make tool-call ids unique, and the repair that is applied to a request:
 first the adjacency of exchanges, then the uniqueness of ids.
 */
module StructureRepair {
  import opened Common
  import opened Messages
  import opened Repair
  import opened RepairLemmas
  import opened RepairTheorems
  import opened RepairGuarantees
  import opened Ownership
  import opened RepairPasses
  import opened Dedupe
  import opened FreshIds
  import opened DedupeLemmas
  import opened DedupeTheorems

  // Pass 1: how often each id is called

  function CountIn(counts: map<Id, nat>, x: Id): nat {
    if x in counts then counts[x] else 0
  }

  /** `counts` holds exactly how often each id occurs in `seen`. */
  ghost predicate Counts(counts: map<Id, nat>, seen: seq<Id>) {
    && (forall x :: CountIn(counts, x) == Occ(seen, x))
    && (forall x :: x in counts <==> x in seen)
  }

  lemma CountsStep(counts: map<Id, nat>, seen: seq<Id>, x: Id)
    requires Counts(counts, seen)
    ensures Counts(counts[x := CountIn(counts, x) + 1], seen + [x])
  {
    OccStep(seen, x);
  }

  lemma CallIdsStep(bs: seq<Block>, b: nat)
    requires b < |bs|
    ensures CallIds(bs[..b + 1]) == CallIds(bs[..b]) + if IsToolUse(bs[b]) then [bs[b].id] else []
  {
    assert bs[..b + 1][..b] == bs[..b];
  }

  /** The ids of all calls before block `b` of message `i`. */
  function CallSeqTo(ms: seq<Message>, i: nat, b: nat): seq<Id>
    requires i < |ms| && b <= |AssistantBlocks(ms[i])|
  {
    CallSeq(ms, i) + CallIds(AssistantBlocks(ms[i])[..b])
  }

  lemma CallSeqToStep(ms: seq<Message>, i: nat, b: nat)
    requires i < |ms| && b < |AssistantBlocks(ms[i])|
    ensures var block := AssistantBlocks(ms[i])[b];
            CallSeqTo(ms, i, b + 1)
            == if IsToolUse(block) then CallSeqTo(ms, i, b) + [block.id] else CallSeqTo(ms, i, b)
  {
    CallIdsStep(AssistantBlocks(ms[i]), b);
  }

  lemma CallSeqToEnds(ms: seq<Message>, i: nat)
    requires i < |ms|
    ensures CallSeqTo(ms, i, 0) == CallSeq(ms, i)
    ensures CallSeqTo(ms, i, |AssistantBlocks(ms[i])|) == CallSeq(ms, i + 1)
  {
    assert AssistantBlocks(ms[i])[..0] == [];
    assert AssistantBlocks(ms[i])[..|AssistantBlocks(ms[i])|] == AssistantBlocks(ms[i]);
  }

  lemma NothingSeen(ms: seq<Message>, ids: set<Id>)
    ensures Counts(map[], CallSeq(ms, 0)) && Renaming(CallSeq(ms, 0), ids) == (ids, map[])
  {
  }

  method CountCalls(ms: seq<Message>) returns (counts: map<Id, nat>)
    ensures Counts(counts, CallSeq(ms, |ms|))
  {
    hide Counts, CallSeq, CallSeqTo;
    counts := map[];
    NothingSeen(ms, {});
    for i := 0 to |ms|
      invariant Counts(counts, CallSeq(ms, i))
    {
      CallSeqToEnds(ms, i);
      var bs := AssistantBlocks(ms[i]);
      for b := 0 to |bs|
        invariant Counts(counts, CallSeqTo(ms, i, b))
      {
        CallSeqToStep(ms, i, b);
        if IsToolUse(bs[b]) {
          CountsStep(counts, CallSeqTo(ms, i, b), bs[b].id);
          counts := counts[bs[b].id := CountIn(counts, bs[b].id) + 1];
        }
      }
    }
  }

  method AnyAboveOne(counts: map<Id, nat>) returns (found: bool)
    ensures found <==> exists x :: x in counts && counts[x] > 1
  {
    var ids := counts.Keys;
    while ids != {}
      invariant ids <= counts.Keys
      invariant forall x :: x in counts && x !in ids ==> counts[x] <= 1
      decreases |ids|
    {
      var x :| x in ids;
      if counts[x] > 1 {
        return true;
      }
      ids := ids - {x};
    }
    return false;
  }

  // Pass 2a: a fresh id for every repeated call

  lemma RenamingStep(seen: seq<Id>, x: Id, used: set<Id>)
    ensures Renaming(seen + [x], used) ==
            var n := Occ(seen, x) + 1;
            var (u, t) := Renaming(seen, used);
            if n == 1 then (u, t) else (u + {Fresh(Stem(x), n, u)}, t[(x, n) := Fresh(Stem(x), n, u)])
  {
    assert (seen + [x])[..|seen|] == seen;
  }

  method AssignFreshIds(ms: seq<Message>, ids: set<Id>) returns (renames: Renames)
    ensures renames == Renaming(CallSeq(ms, |ms|), ids).1
  {
    hide Counts, CallSeq, Renaming, Fresh, CallSeqTo;
    var used := ids;
    renames := map[];
    var seen: map<Id, nat> := map[];
    NothingSeen(ms, ids);
    for i := 0 to |ms|
      invariant (used, renames) == Renaming(CallSeq(ms, i), ids)
      invariant Counts(seen, CallSeq(ms, i))
    {
      CallSeqToEnds(ms, i);
      var bs := AssistantBlocks(ms[i]);
      for b := 0 to |bs|
        invariant (used, renames) == Renaming(CallSeqTo(ms, i, b), ids)
        invariant Counts(seen, CallSeqTo(ms, i, b))
      {
        CallSeqToStep(ms, i, b);
        if IsToolUse(bs[b]) {
          var n := CountIn(seen, bs[b].id) + 1;
          CountOf(seen, CallSeqTo(ms, i, b), bs[b].id);
          RenamingStep(CallSeqTo(ms, i, b), bs[b].id, ids);
          CountsStep(seen, CallSeqTo(ms, i, b), bs[b].id);
          seen := seen[bs[b].id := n];
          if n != 1 {
            var candidate := FindFresh(Stem(bs[b].id), n, used);
            used := used + {candidate};
            renames := renames[(bs[b].id, n) := candidate];
          }
        }
      }
    }
  }

  lemma CountOf(counts: map<Id, nat>, seen: seq<Id>, x: Id)
    requires Counts(counts, seen)
    ensures CountIn(counts, x) == Occ(seen, x)
  {
  }

  // Pass 2b: rewriting

  /** `seen` counts the results in messages 0, ..., i-1 and in the first `b` blocks of message `i`. */
  ghost predicate ResultsCounted(ms: seq<Message>, seen: map<Id, nat>, i: nat, b: nat)
    requires i < |ms| && b <= |UserBlocks(ms[i])|
  {
    forall x :: CountIn(seen, x) == ResultsSoFar(ms, x, i, b)
  }

  ghost predicate CallsCounted(ms: seq<Message>, seen: map<Id, nat>, i: nat, b: nat)
    requires i < |ms| && b <= |AssistantBlocks(ms[i])|
  {
    forall x :: CountIn(seen, x) == CallsSoFar(ms, x, i, b)
  }

  lemma ResultsCountedStep(ms: seq<Message>, seen: map<Id, nat>, i: nat, b: nat)
    requires i < |ms| && b < |UserBlocks(ms[i])| && ResultsCounted(ms, seen, i, b)
    ensures var block := UserBlocks(ms[i])[b];
            if IsToolResult(block)
            then ResultsCounted(ms, seen[block.id := CountIn(seen, block.id) + 1], i, b + 1)
            else ResultsCounted(ms, seen, i, b + 1)
  {
    hide Results, ResultsIn;
    var block := UserBlocks(ms[i])[b];
    var next := if IsToolResult(block) then seen[block.id := CountIn(seen, block.id) + 1] else seen;
    forall x
      ensures CountIn(next, x) == ResultsSoFar(ms, x, i, b + 1)
    {
      assert CountIn(seen, x) == ResultsSoFar(ms, x, i, b);
      ResultsStep(UserBlocks(ms[i]), b, x);
    }
  }

  lemma CallsCountedStep(ms: seq<Message>, seen: map<Id, nat>, i: nat, b: nat)
    requires i < |ms| && b < |AssistantBlocks(ms[i])| && CallsCounted(ms, seen, i, b)
    ensures var block := AssistantBlocks(ms[i])[b];
            if IsToolUse(block)
            then CallsCounted(ms, seen[block.id := CountIn(seen, block.id) + 1], i, b + 1)
            else CallsCounted(ms, seen, i, b + 1)
  {
    hide CallCount, CallSeq;
    var block := AssistantBlocks(ms[i])[b];
    var next := if IsToolUse(block) then seen[block.id := CountIn(seen, block.id) + 1] else seen;
    forall x
      ensures CountIn(next, x) == CallsSoFar(ms, x, i, b + 1)
    {
      assert CountIn(seen, x) == CallsSoFar(ms, x, i, b);
      CallCountStep(AssistantBlocks(ms[i]), b, x);
    }
  }

  lemma CountedStart(ms: seq<Message>)
    requires ms != []
    ensures CallsCounted(ms, map[], 0, 0) && ResultsCounted(ms, map[], 0, 0)
  {
  }

  lemma CountedNext(ms: seq<Message>, calls: map<Id, nat>, results: map<Id, nat>, i: nat)
    requires i + 1 < |ms|
    requires CallsCounted(ms, calls, i, |AssistantBlocks(ms[i])|)
    requires ResultsCounted(ms, results, i, |UserBlocks(ms[i])|)
    ensures CallsCounted(ms, calls, i + 1, 0) && ResultsCounted(ms, results, i + 1, 0)
  {
    hide CallCount, CallSeq, Results;
    forall x
      ensures CallsSoFar(ms, x, i + 1, 0) == CallsSoFar(ms, x, i, |AssistantBlocks(ms[i])|)
      ensures ResultsSoFar(ms, x, i + 1, 0) == ResultsSoFar(ms, x, i, |UserBlocks(ms[i])|)
    {
      TotalCallsStep(ms, x, i);
      NoBlocks(x);
      assert AssistantBlocks(ms[i])[..|AssistantBlocks(ms[i])|] == AssistantBlocks(ms[i]);
      assert UserBlocks(ms[i])[..|UserBlocks(ms[i])|] == UserBlocks(ms[i]);
      assert AssistantBlocks(ms[i + 1])[..0] == [] && UserBlocks(ms[i + 1])[..0] == [];
    }
  }

  method RewriteIds(ms: seq<Message>, renames: Renames) returns (out: seq<Message>)
    ensures out == AllDeduped(ms, renames)
  {
    hide CallsCounted, ResultsCounted, DedupedMessage;
    var calls: map<Id, nat>, results: map<Id, nat> := map[], map[];
    out := [];
    if ms != [] {
      CountedStart(ms);
    }
    for i := 0 to |ms|
      invariant |out| == i && forall k :: 0 <= k < i ==> out[k] == DedupedMessage(ms, renames, k)
      invariant i < |ms| ==> CallsCounted(ms, calls, i, 0) && ResultsCounted(ms, results, i, 0)
    {
      var message;
      message, calls, results := RewriteMessage(ms, renames, i, calls, results);
      out := out + [message];
      if i + 1 < |ms| {
        CountedNext(ms, calls, results, i);
      }
    }
  }

  method RewriteMessage(ms: seq<Message>, renames: Renames, i: nat, calls0: map<Id, nat>, results0: map<Id, nat>)
    returns (message: Message, calls: map<Id, nat>, results: map<Id, nat>)
    requires i < |ms| && CallsCounted(ms, calls0, i, 0) && ResultsCounted(ms, results0, i, 0)
    ensures message == DedupedMessage(ms, renames, i)
    ensures CallsCounted(ms, calls, i, |AssistantBlocks(ms[i])|)
    ensures ResultsCounted(ms, results, i, |UserBlocks(ms[i])|)
  {
    hide CallsCounted, ResultsCounted, CallsSoFar, ResultsSoFar;
    calls, results, message := calls0, results0, ms[i];
    if message.Msg? && message.content.Blocks? {
      var bs := message.content.blocks;
      var next := [];
      for b := 0 to |bs|
        invariant |next| == b && forall k :: 0 <= k < b ==> next[k] == DedupedBlock(ms, renames, i, k)
        invariant CallsCounted(ms, calls, i, if message.role == Assistant then b else 0)
        invariant ResultsCounted(ms, results, i, if message.role == User then b else 0)
      {
        if message.role == Assistant {
          CallsCountedStep(ms, calls, i, b);
        } else if message.role == User {
          ResultsCountedStep(ms, results, i, b);
        }
        if message.role == Assistant && IsToolUse(bs[b]) {
          CallsCountedAt(ms, calls, i, b, bs[b].id);
          var n := CountIn(calls, bs[b].id) + 1;
          calls := calls[bs[b].id := n];
          next := next + [ToolUse(NewName(renames, bs[b].id, n), bs[b].input)];
        } else if message.role == User && IsToolResult(bs[b]) {
          ResultsCountedAt(ms, results, i, b, bs[b].id);
          var n := CountIn(results, bs[b].id) + 1;
          results := results[bs[b].id := n];
          next := next + [ToolResult(NewName(renames, bs[b].id, n), bs[b].output)];
        } else {
          next := next + [bs[b]];
        }
      }
      assert next == DedupedMessage(ms, renames, i).content.blocks;
      message := message.(content := Blocks(next));
    }
  }

  lemma CallsCountedAt(ms: seq<Message>, calls: map<Id, nat>, i: nat, b: nat, x: Id)
    requires i < |ms| && b <= |AssistantBlocks(ms[i])| && CallsCounted(ms, calls, i, b)
    ensures CountIn(calls, x) == CallsSoFar(ms, x, i, b)
  {
  }

  lemma ResultsCountedAt(ms: seq<Message>, results: map<Id, nat>, i: nat, b: nat, x: Id)
    requires i < |ms| && b <= |UserBlocks(ms[i])| && ResultsCounted(ms, results, i, b)
    ensures CountIn(results, x) == ResultsSoFar(ms, x, i, b)
  {
  }

  method DedupeToolUseIds(ms: seq<Message>) returns (out: Option<seq<Message>>)
    ensures out == DedupeIds(ms)
  {
    hide CallSeq, Renaming, AllDeduped;
    var counts := CountCalls(ms);
    var hasDuplicate := AnyAboveOne(counts);
    CountsDuplicate(counts, CallSeq(ms, |ms|));
    if !hasDuplicate {
      return None;
    }
    var renames := AssignFreshIds(ms, counts.Keys);
    var rewritten := RewriteIds(ms, renames);
    return Some(rewritten);
  }

  lemma CountsDuplicate(counts: map<Id, nat>, calls: seq<Id>)
    requires Counts(counts, calls)
    ensures HasDuplicate(calls) <==> exists x :: x in counts && counts[x] > 1
    ensures counts.Keys == AllIds(calls)
  {
    hide Occ;
    if x :| x in counts && counts[x] > 1 {
      assert CountIn(counts, x) == Occ(calls, x);
    }
    if x :| x in calls && Occ(calls, x) > 1 {
      assert CountIn(counts, x) == Occ(calls, x);
    }
  }

  // The composition

  /** What is sent after both repairs. */
  function Structured(ms: seq<Message>): seq<Message> {
    Deduped(Repaired(ms))
  }

  /** The history after both repairs, or None when neither changed anything. */
  function RepairStructure(ms: seq<Message>): Option<seq<Message>> {
    if RepairAdjacency(ms).None? && DedupeIds(ms).None? then None else Some(Structured(ms))
  }

  method RepairToolExchangeStructure(ms: seq<Message>) returns (out: Option<seq<Message>>)
    ensures out == RepairStructure(ms)
  {
    hide RepairAdjacency, DedupeIds;
    var afterRepair := RepairToolExchangeAdjacency(ms);
    var stage1 := if afterRepair.Some? then afterRepair.value else ms;
    var afterDedupe := DedupeToolUseIds(stage1);
    if afterRepair.None? && afterDedupe.None? {
      return None;
    }
    return if afterDedupe.Some? then afterDedupe else Some(stage1);
  }

  /** After both repairs no two calls share an id, and the history is well formed unless an insertion was lost. */
  lemma StructuredWellFormed(ms: seq<Message>)
    ensures UniqueCalls(Structured(ms))
    ensures WellFormed(Structured(ms)) <==> !LosesInserts(ms)
  {
    hide UniqueCalls, WellFormed, Paired, Repaired, Deduped, LosesInserts;
    DedupedUnique(Repaired(ms));
    RepairedWellFormed(ms);
    DedupedWellFormed(Repaired(ms));
  }

  /** Repairing what was already repaired changes nothing, in exactly the same cases. */
  lemma StructureIdempotent(ms: seq<Message>)
    ensures RepairStructure(Structured(ms)).None? <==> !LosesInserts(ms)
  {
    hide UniqueCalls, WellFormed, Structured, LosesInserts, RepairStructure;
    StructuredWellFormed(ms);
    NoStructureRepairIff(Structured(ms));
  }

  /** Both repairs do nothing exactly on well-formed histories with unique ids. */
  lemma NoStructureRepairIff(ms: seq<Message>)
    ensures RepairStructure(ms).None? <==> WellFormed(ms) && UniqueCalls(ms)
  {
    hide UniqueCalls, WellFormed, RepairAdjacency, HasDuplicate, Structured;
    NoRepairIffWellFormed(ms);
    NoDuplicateIffUnique(ms);
  }

  // When calls keep the results that repair gave them

  /** Some call of `x` from message `i` on is given a result. */
  predicate GivenFrom(ms: seq<Message>, x: Id, i: nat)
    requires LastConversationIndex(ms) >= 0
  {
    var last := LastConversationIndex(ms);
    || (exists k :: i <= k < last && !Loses(ms, k) && CallCount(AssistantBlocks(ms[k]), x) > 0)
    || (CallCount(AssistantBlocks(ms[last]), x) > 0 && ResultsIn(ms, x, last + 1, |ms|) != [])
  }

  /** Block `b` of message `i` is a call whose insertion is lost, and its id is given a result later. */
  predicate MisdeliversAt(ms: seq<Message>, i: nat, b: nat)
    requires i < LastConversationIndex(ms) && b < |AssistantBlocks(ms[i])|
  {
    Loses(ms, i) && IsToolUse(AssistantBlocks(ms[i])[b]) && GivenFrom(ms, AssistantBlocks(ms[i])[b].id, i + 1)
  }

  predicate Misdelivers(ms: seq<Message>) {
    exists i, b :: 0 <= i < LastConversationIndex(ms) && 0 <= b < |AssistantBlocks(ms[i])| && MisdeliversAt(ms, i, b)
  }

  lemma {:induction false} SharesGrow(ms: seq<Message>, x: Id, m: nat, n: nat)
    requires m <= n <= |ms|
    ensures |Shares(ms, x, m)| <= |Shares(ms, x, n)|
    ensures |Shares(ms, x, m)| < |Shares(ms, x, n)| <==>
            exists k :: m <= k < n && !Loses(ms, k) && CallCount(AssistantBlocks(ms[k]), x) > 0
    decreases n
  {
    hide CallCount, Loses, Given, AssistantBlocks;
    if m < n {
      SharesGrow(ms, x, m, n - 1);
      GivenCount(ms, x, n - 1);
      assert |Shares(ms, x, n)| == |Shares(ms, x, n - 1)| + |Given(ms, x, n - 1)|;
      hide Shares;
    }
  }

  lemma GivenCount(ms: seq<Message>, x: Id, i: nat)
    requires i < |ms|
    ensures |Given(ms, x, i)| == if Loses(ms, i) then 0 else CallCount(AssistantBlocks(ms[i]), x)
  {
    hide CallCount, Loses;
  }

  /** What is delivered after the first `i` exchanges. */
  lemma DeliveredFrom(ms: seq<Message>, x: Id, i: nat)
    requires i <= LastConversationIndex(ms)
    ensures |Shares(ms, x, i)| <= |Delivered(ms, x)|
    ensures |Shares(ms, x, i)| < |Delivered(ms, x)| <==> GivenFrom(ms, x, i)
  {
    hide Shares, CallCount, ResultsIn, Loses, Owned, TailShare;
    SharesGrow(ms, x, i, LastConversationIndex(ms));
    TailIsOwned(ms, x);
    TailNonEmpty(ms, x);
  }

  lemma TailNonEmpty(ms: seq<Message>, x: Id)
    requires LastConversationIndex(ms) >= 0
    ensures var last := LastConversationIndex(ms);
            TailShare(ms, x, last, |ms|) != [] <==>
            CallCount(AssistantBlocks(ms[last]), x) > 0 && ResultsIn(ms, x, last + 1, |ms|) != []
  {
    hide CallCount, ResultsIn;
  }

  /** The results that the repaired history holds up to the place of a user message. */
  lemma DeliveredUpTo(ms: seq<Message>, x: Id, i: nat)
    requires i < LastConversationIndex(ms) && IsUser(ms[i + 1])
    ensures var j := |Rebuilt(ms, LastConversationIndex(ms), i + 1)|;
            j <= |Repaired(ms)| && ResultsIn(Repaired(ms), x, 0, j) == Shares(ms, x, i)
  {
    hide Rebuilt, Repaired, ResultsIn, Shares, Chain, SameCalls;
    var last := LastConversationIndex(ms);
    RepairedIsRebuilt(ms);
    RebuiltBody(ms, last, i + 1);
    RebuiltPrefix(ms, last, i + 1, |ms|);
    var out := Rebuilt(ms, last, i + 1);
    ResultsInSame(out, Repaired(ms), x, 0, |out|, 0);
  }

  /** After a lost insertion, results of an id follow exactly if some are given later. */
  lemma FollowsIffGiven(ms: seq<Message>, x: Id, i: nat)
    requires i < LastConversationIndex(ms) && Loses(ms, i)
    ensures var j := |Rebuilt(ms, LastConversationIndex(ms), i + 1)|;
            && j <= |Repaired(ms)|
            && (ResultsIn(Repaired(ms), x, j, |Repaired(ms)|) != [] <==> GivenFrom(ms, x, i + 1))
  {
    hide Rebuilt, Repaired, ResultsIn, GivenFrom, Delivered, Share;
    DeliveredUpTo(ms, x, i);
    RepairDelivers(ms, x);
    DeliveredFrom(ms, x, i + 1);
    assert Shares(ms, x, i + 1) == Shares(ms, x, i) + Given(ms, x, i);
    ResultsInSplit(Repaired(ms), x, 0, |Rebuilt(ms, LastConversationIndex(ms), i + 1)|, |Repaired(ms)|);
  }

  lemma InStepUnlessMisdelivered(ms: seq<Message>)
    ensures InStep(Repaired(ms)) <==> !Misdelivers(ms)
  {
    hide Rebuilt, Repaired, ResultsIn, GivenFrom, CallCount, Loses, MisdeliversAt, Overtaken, AssistantBlocks,
      LastConversationIndex;
    if i, b :| 0 <= i < LastConversationIndex(ms) && 0 <= b < |AssistantBlocks(ms[i])| && MisdeliversAt(ms, i, b) {
      MisdeliveredIsOvertaken(ms, i, b);
    }
    if j: nat, x :| j <= LastConversationIndex(Repaired(ms)) && Overtaken(Repaired(ms), j, x) {
      OvertakenIsMisdelivered(ms, j, x);
    }
  }

  lemma MisdeliveredIsOvertaken(ms: seq<Message>, i: nat, b: nat)
    requires i < LastConversationIndex(ms) && b < |AssistantBlocks(ms[i])| && MisdeliversAt(ms, i, b)
    ensures !InStep(Repaired(ms))
  {
    hide Rebuilt, Repaired, ResultsIn, GivenFrom, CallCount, Loses;
    var x := AssistantBlocks(ms[i])[b].id;
    LostIsUnanswered(ms, i);
    FollowsIffGiven(ms, x, i);
    SomeCall(AssistantBlocks(ms[i]), b);
    assert Overtaken(Repaired(ms), |Rebuilt(ms, LastConversationIndex(ms), i)| + 1, x);
  }

  lemma OvertakenIsMisdelivered(ms: seq<Message>, j: nat, x: Id)
    requires j <= LastConversationIndex(Repaired(ms)) && Overtaken(Repaired(ms), j, x)
    ensures Misdelivers(ms)
  {
    hide Rebuilt, Repaired, ResultsIn, GivenFrom, CallCount, Loses;
    OvertakenCalls(Repaired(ms), j, x);
    var i := UnansweredIsLost(ms, j);
    LostIsUnanswered(ms, i);
    FollowsIffGiven(ms, x, i);
    var b := NthCall(AssistantBlocks(ms[i]), x, 0);
    assert MisdeliversAt(ms, i, b);
  }

  lemma OvertakenCalls(ms: seq<Message>, j: nat, x: Id)
    requires j < |ms| && Overtaken(ms, j, x)
    ensures j > 0 && Unanswered(ms, j)
  {
    hide CallCount, ResultsIn;
    NoBlocks(x);
    if !HasCall(CallsBefore(ms, j)) {
      NoCalls(CallsBefore(ms, j), x);
    }
  }

  /**
   Renaming leaves every call of the repaired history with the very result that repair gave it,
   exactly if no id that lost an insertion is given a result later.
   */
  lemma StructureKeepsAnswers(ms: seq<Message>)
    ensures (forall c, p :: Owns(Structured(ms), c, p) <==> Owns(Repaired(ms), c, p)) <==> !Misdelivers(ms)
  {
    hide Paired, InStep, Repaired, Deduped, Misdelivers, Owns;
    RepairedWellFormed(ms);
    DedupedKeepsOwners(Repaired(ms));
    InStepUnlessMisdelivered(ms);
  }

  /** Inputs and outputs stay where repair put them, for every history. */
  lemma StructureKeepsPayloads(ms: seq<Message>, c: Spot)
    ensures CallAt(Structured(ms), c) <==> CallAt(Repaired(ms), c)
    ensures ResultAt(Structured(ms), c) <==> ResultAt(Repaired(ms), c)
    ensures CallAt(Repaired(ms), c) ==> CallBlock(Structured(ms), c).input == CallBlock(Repaired(ms), c).input
    ensures ResultAt(Repaired(ms), c) ==> ResultBlock(Structured(ms), c).output == ResultBlock(Repaired(ms), c).output
  {
    hide Repaired, Deduped, CallAt, ResultAt, CallBlock, ResultBlock;
    DedupedKeepsPayloads(Repaired(ms), c);
  }
}
