/** When making ids unique keeps every call with its result. */
module DedupeTheorems {
  import opened Messages
  import opened Repair
  import opened RepairLemmas
  import opened RepairTheorems
  import opened RepairGuarantees
  import opened Ownership
  import opened Dedupe
  import opened DedupeLemmas

  // Numbers of calls and results

  /** How many calls of `x` in the exchanges before message `j` go without an answer. */
  function Missed(ms: seq<Message>, x: Id, j: nat): nat
    requires j < |ms|
  {
    if j == 0 then 0
    else Missed(ms, x, j - 1) + if IsUserBlocks(ms[j]) then 0 else CallCount(CallsBefore(ms, j), x)
  }

  /** Calls of `x` before message `j` go without an answer, and there is a result for `x` later. */
  predicate Overtaken(ms: seq<Message>, j: nat, x: Id)
    requires j < |ms|
  {
    !IsUserBlocks(ms[j]) && CallCount(CallsBefore(ms, j), x) > 0 && ResultsIn(ms, x, j, |ms|) != []
  }

  /** No result comes after a call of its id that goes without an answer. */
  ghost predicate InStep(ms: seq<Message>) {
    forall j: nat, x :: j <= LastConversationIndex(ms) ==> !Overtaken(ms, j, x)
  }

  lemma WellFormedInStep(ms: seq<Message>)
    requires WellFormed(ms)
    ensures Paired(ms) && InStep(ms)
  {
    hide WellFormed, Paired, HasCall, CallCount, ResultsIn, CallsBefore;
    WellFormedIff(ms);
    forall j: nat, x | j <= LastConversationIndex(ms)
      ensures !Overtaken(ms, j, x)
    {
      assert !Unanswered(ms, j);
      if !HasCall(CallsBefore(ms, j)) {
        NoCalls(CallsBefore(ms, j), x);
      }
    }
  }

  /** In the exchanges up to message `j`, every call of `x` has a result, except those that were missed. */
  lemma {:induction false} SumsAgree(ms: seq<Message>, x: Id, j: nat)
    requires Paired(ms) && j <= LastConversationIndex(ms)
    ensures |ResultsIn(ms, x, 0, j + 1)| + Missed(ms, x, j) == TotalCalls(ms, x, j)
  {
    hide Results, CallCount, TotalCalls, Paired;
    MatchesAt(ms, x, j);
    if j == 0 {
      NoBlocks(x);
      NoCallsInNothing(ms, x);
      ResultsInSingle(ms, x, 0);
    } else {
      SumsAgree(ms, x, j - 1);
      TotalCallsStep(ms, x, j - 1);
    }
  }

  lemma MatchesAt(ms: seq<Message>, x: Id, j: nat)
    requires Paired(ms) && j <= LastConversationIndex(ms)
    ensures |Results(UserBlocks(ms[j]), x)| == if IsUserBlocks(ms[j]) then CallCount(CallsBefore(ms, j), x) else 0
  {
    hide TailMatches, Results, CallCount, Leading;
    assert Matches(CallsBefore(ms, j), ms[j]);
    NoBlocks(x);
  }

  lemma TotalsFit(ms: seq<Message>, x: Id)
    requires Paired(ms)
    ensures |ResultsIn(ms, x, 0, |ms|)| <= TotalCalls(ms, x, |ms|)
  {
    hide Results, CallCount, TotalCalls, Matches, ResultsIn, Missed;
    var last := LastConversationIndex(ms);
    ResultsInSplit(ms, x, 0, last + 1, |ms|);
    if last >= 0 {
      SumsAgree(ms, x, last);
      TotalCallsStep(ms, x, last);
      TotalCallsMonotone(ms, x, last + 1, |ms|);
    } else {
      NoBlocks(x);
      ResultsInEmpty(ms, x, 0, 0);
    }
  }

  lemma ResultNumberValid(ms: seq<Message>, p: Spot)
    requires Paired(ms) && ResultAt(ms, p)
    ensures ValidName(CallSeq(ms, |ms|), ResultBlock(ms, p).id, ResultNumber(ms, p))
  {
    hide Paired, ResultsIn, Results;
    TotalsFit(ms, ResultBlock(ms, p).id);
    RankBelowTotal(ms, ResultBlock(ms, p).id, 0, |ms|, p.msg, p.blk);
  }

  /** Nothing was missed before a result of a history in step. */
  lemma {:induction false} NothingMissed(ms: seq<Message>, j: nat, p: Spot)
    requires InStep(ms) && ResultAt(ms, p) && j <= LastConversationIndex(ms) && j <= p.msg
    ensures Missed(ms, ResultBlock(ms, p).id, j) == 0
    decreases j
  {
    hide ResultsIn, CallCount, Results;
    var x := ResultBlock(ms, p).id;
    if j > 0 {
      NothingMissed(ms, j - 1, p);
      RankBelowTotal(ms, x, j, |ms|, p.msg, p.blk);
      assert !Overtaken(ms, j, x);
    }
  }

  /** The number of a call is that of its result, plus what was missed before. */
  lemma OwnedNumber(ms: seq<Message>, c: Spot, p: Spot)
    requires Paired(ms) && Owns(ms, c, p)
    ensures c.msg <= LastConversationIndex(ms)
    ensures CallNumber(ms, c) == ResultNumber(ms, p) + Missed(ms, ResultBlock(ms, p).id, c.msg)
  {
    hide Results, CallCount, TotalCalls, Paired, ResultsIn, Missed, NextExchange;
    var x := CallBlock(ms, c).id;
    CallsUpToLast(ms, c);
    SumsAgree(ms, x, c.msg);
    ResultsInSplit(ms, x, 0, c.msg + 1, p.msg);
  }

  /**
   In a history in step a call owns a result exactly when they have the same number among those
   of their id.
   */
  lemma OwnsIffSameNumber(ms: seq<Message>, c: Spot, p: Spot)
    requires Paired(ms) && InStep(ms) && CallAt(ms, c) && ResultAt(ms, p)
    requires ResultBlock(ms, p).id == CallBlock(ms, c).id
    ensures Owns(ms, c, p) <==> CallNumber(ms, c) == ResultNumber(ms, p)
  {
    hide Results, CallCount, TotalCalls, Paired, InStep, ResultsIn, Missed;
    var x := CallBlock(ms, c).id;
    CallsUpToLast(ms, c);
    SumsAgree(ms, x, c.msg);
    if c.msg < p.msg {
      NothingMissed(ms, c.msg, p);
      ResultsInSplit(ms, x, 0, c.msg + 1, p.msg);
      if NextExchange(ms, x, c.msg) <= p.msg {
        OutOfReach(ms, c, p);
      }
    } else {
      RankBelowTotal(ms, x, 0, c.msg + 1, p.msg, p.blk);
    }
  }

  /** A result past the next call of the id has too high a number. */
  lemma OutOfReach(ms: seq<Message>, c: Spot, p: Spot)
    requires Paired(ms) && InStep(ms) && CallAt(ms, c) && ResultAt(ms, p)
    requires ResultBlock(ms, p).id == CallBlock(ms, c).id
    requires NextExchange(ms, CallBlock(ms, c).id, c.msg) <= p.msg
    ensures CallNumber(ms, c) < |ResultsIn(ms, CallBlock(ms, c).id, 0, p.msg)| + 1
  {
    hide Results, CallCount, TotalCalls, Paired, InStep, ResultsIn, Missed;
    var x := CallBlock(ms, c).id;
    var n := NextExchange(ms, x, c.msg);
    var k := NthCall(AssistantBlocks(ms[n]), x, 0);
    CallsUpToLast(ms, Spot(n, k));
    SumsAgree(ms, x, n);
    NothingMissed(ms, n, p);
    TotalCallsStep(ms, x, c.msg);
    TotalCallsMonotone(ms, x, c.msg + 1, n);
    CallCountPrefix(AssistantBlocks(ms[c.msg]), c.blk, x);
    assert UserBlocks(ms[n]) == [];
    NoBlocks(x);
    ResultsInSplit(ms, x, 0, n, n + 1);
    ResultsInSingle(ms, x, n);
    ResultsInSplit(ms, x, 0, n, p.msg);
  }

  // New ids match exactly where ownership did

  lemma NewIdsMatch(ms: seq<Message>, c: Spot, p: Spot)
    requires Paired(ms) && InStep(ms) && CallAt(ms, c) && ResultAt(ms, p)
    ensures var ns := AllDeduped(ms, RenamesOf(ms));
            && CallAt(ns, c) && ResultAt(ns, p)
            && (CallBlock(ns, c).id == ResultBlock(ns, p).id <==> Owns(ms, c, p))
  {
    hide AllDeduped, RenamesOf, NewName, CallNumber, ResultNumber, CallAt, ResultAt, CallBlock, ResultBlock, Owns,
      Paired, InStep;
    NewIds(ms, c, p);
    if Owns(ms, c, p) {
      OwnedById(ms, c, p);
      OwnsIffSameNumber(ms, c, p);
    }
    var ns := AllDeduped(ms, RenamesOf(ms));
    if CallBlock(ns, c).id == ResultBlock(ns, p).id {
      OwnsIffSameNumber(ms, c, p);
    }
  }

  /** New ids match exactly when the old ones did and the numbers agree. */
  lemma NewIds(ms: seq<Message>, c: Spot, p: Spot)
    requires Paired(ms) && CallAt(ms, c) && ResultAt(ms, p)
    ensures var ns := AllDeduped(ms, RenamesOf(ms));
            && CallAt(ns, c) && ResultAt(ns, p)
            && (CallBlock(ns, c).id == ResultBlock(ns, p).id <==>
                CallBlock(ms, c).id == ResultBlock(ms, p).id && CallNumber(ms, c) == ResultNumber(ms, p))
  {
    hide AllDeduped, RenamesOf, NewName, CallNumber, ResultNumber, CallAt, ResultAt, CallBlock, ResultBlock, Paired;
    RenamedCall(ms, c);
    RenamedResult(ms, p);
    CallNumberValid(ms, c);
    ResultNumberValid(ms, p);
    var ns := AllDeduped(ms, RenamesOf(ms));
    if CallBlock(ns, c).id == ResultBlock(ns, p).id {
      SameNewName(ms, CallBlock(ms, c).id, CallNumber(ms, c), ResultBlock(ms, p).id, ResultNumber(ms, p));
    }
  }

  ghost predicate UniqueResults(ms: seq<Message>) {
    forall p, q :: ResultAt(ms, p) && ResultAt(ms, q) && ResultBlock(ms, p).id == ResultBlock(ms, q).id ==> p == q
  }

  lemma AllDedupedUniqueResults(ms: seq<Message>)
    requires Paired(ms)
    ensures UniqueResults(AllDeduped(ms, RenamesOf(ms)))
  {
    hide AllDeduped, RenamesOf, NewName, ResultRank, ResultAt, Paired;
    var ns := AllDeduped(ms, RenamesOf(ms));
    DedupedShape(ms);
    forall p, q | ResultAt(ns, p) && ResultAt(ns, q) && ResultBlock(ns, p).id == ResultBlock(ns, q).id
      ensures p == q
    {
      SameSpots(ms, ns, p);
      SameSpots(ms, ns, q);
      RenamedResult(ms, p);
      RenamedResult(ms, q);
      ResultNumberValid(ms, p);
      ResultNumberValid(ms, q);
      SameNewName(ms, ResultBlock(ms, p).id, ResultNumber(ms, p), ResultBlock(ms, q).id, ResultNumber(ms, q));
      SameRankSameResult(ms, 0, p, q);
    }
  }

  // Well-formed in terms of ownership

  /** In a paired history every result is owned, and where it should be. */
  lemma OwnerExists(ms: seq<Message>, p: Spot) returns (c: Spot)
    requires Paired(ms) && ResultAt(ms, p)
    ensures Owns(ms, c, p)
    ensures p.msg <= LastConversationIndex(ms) ==> InPosition(ms, c, p)
    ensures p.msg > LastConversationIndex(ms) ==> c.msg == LastConversationIndex(ms)
  {
    hide Stays, ResultRank, CallRank, NextExchange, Leading, Results, CallCount, ResultsIn;
    var last := LastConversationIndex(ms);
    if p.msg <= last {
      AnsweredStays(ms, last, p.msg, p.blk);
    } else {
      CleanTail(ms, last);
      assert AllStay(ms, last, p.msg);
    }
    StaysIffOwned(ms, last, p);
    c :| Owns(ms, c, p) && (c.msg == last || InPosition(ms, c, p));
    CallsUpToLast(ms, c);
  }

  /** In a well-formed history every call before the last conversation point has its result in place. */
  lemma ResultExists(ms: seq<Message>, c: Spot) returns (p: Spot)
    requires WellFormed(ms) && CallAt(ms, c) && c.msg < LastConversationIndex(ms)
    ensures Owns(ms, c, p) && InPosition(ms, c, p)
  {
    hide WellFormed, Stays, Inserts, CallCount, Results, Owns, InPosition;
    var last := LastConversationIndex(ms);
    NoRepairIffWellFormed(ms);
    assert Inserts(ms, last, c.msg) == [];
    InsertsEmpty(ms, last, c.msg);
    RankBelowCount(ms, c);
    InPlaceIffInPosition(ms, c);
    p :| Owns(ms, c, p) && InPosition(ms, c, p);
  }

  // Counting when ids are unique

  lemma AtMostOneResult(ns: seq<Message>, lo: nat, hi: nat, y: Id)
    requires UniqueResults(ns) && hi <= |ns|
    ensures |ResultsIn(ns, y, lo, hi)| <= 1
  {
    hide ResultsIn, Results;
    if |ResultsIn(ns, y, lo, hi)| > 1 {
      var j, b := NthResultIn(ns, y, lo, hi, 0);
      var k, d := NthResultIn(ns, y, lo, hi, 1);
      TwoResults(ns, Spot(j, b), Spot(k, d));
    }
  }

  lemma TwoResults(ns: seq<Message>, p: Spot, q: Spot)
    requires UniqueResults(ns) && ResultAt(ns, p) && ResultAt(ns, q) && ResultBlock(ns, p).id == ResultBlock(ns, q).id
    ensures p == q
  {
  }

  lemma AtMostOneCall(ns: seq<Message>, i: nat, y: Id)
    requires UniqueCalls(ns) && i < |ns|
    ensures CallCount(AssistantBlocks(ns[i]), y) <= 1
  {
    hide CallCount;
    if CallCount(AssistantBlocks(ns[i]), y) > 1 {
      var b := NthCall(AssistantBlocks(ns[i]), y, 0);
      var d := NthCall(AssistantBlocks(ns[i]), y, 1);
      TwoCallsOnce(ns, Spot(i, b), Spot(i, d));
    }
  }

  lemma TwoCallsOnce(ns: seq<Message>, c: Spot, d: Spot)
    requires UniqueCalls(ns) && CallAt(ns, c) && CallAt(ns, d) && CallBlock(ns, c).id == CallBlock(ns, d).id
    ensures c == d
  {
  }

  ghost predicate DedupedFrom(ms: seq<Message>, ns: seq<Message>) {
    && WellFormed(ms) && Paired(ms) && SameShape(ms, ns) && UniqueCalls(ns) && UniqueResults(ns)
    && LastConversationIndex(ns) == LastConversationIndex(ms)
    && forall c, p :: CallAt(ms, c) && ResultAt(ms, p) ==>
         && CallAt(ns, c) && ResultAt(ns, p)
         && (CallBlock(ns, c).id == ResultBlock(ns, p).id <==> Owns(ms, c, p))
  }

  lemma MatchAt(ms: seq<Message>, ns: seq<Message>, c: Spot, p: Spot)
    requires DedupedFrom(ms, ns) && Owns(ms, c, p)
    ensures CallAt(ns, c) && ResultAt(ns, p) && CallBlock(ns, c).id == ResultBlock(ns, p).id
  {
    OwnedById(ms, c, p);
  }

  /** After renaming, message `j` still answers the calls before it. */
  lemma AnswersKept(ms: seq<Message>, ns: seq<Message>, j: nat, y: Id)
    requires DedupedFrom(ms, ns) && 0 <= j <= LastConversationIndex(ms)
    ensures var bs := UserBlocks(ns[j]);
            |Results(LeadingRun(bs), y)| == |Results(bs, y)| == CallCount(CallsBefore(ns, j), y)
  {
    hide Results, CallCount, ResultsIn, Leading, WellFormed, UniqueCalls, UniqueResults, Owns, SameShape, DedupedFrom;
    NoBlocks(y);
    Shape(ms, ns);
    OneAnswer(ms, ns, j, y);
    if Results(UserBlocks(ns[j]), y) != [] {
      AnswerHasCall(ms, ns, j, y);
    }
    if j > 0 && CallCount(AssistantBlocks(ns[j - 1]), y) > 0 {
      CallHasAnswer(ms, ns, j, y);
    }
  }

  lemma OneAnswer(ms: seq<Message>, ns: seq<Message>, j: nat, y: Id)
    requires DedupedFrom(ms, ns) && 0 <= j < |ms|
    ensures var bs := UserBlocks(ns[j]);
            && |Results(LeadingRun(bs), y)| <= |Results(bs, y)| <= 1
            && (j > 0 ==> CallCount(AssistantBlocks(ns[j - 1]), y) <= 1)
  {
    hide Results, CallCount, ResultsIn, Leading, UniqueCalls, UniqueResults, DedupedFrom, SameShape, WellFormed, Paired,
      LastConversationIndex, UserBlocks, AssistantBlocks;
    Shape(ms, ns);
    DedupedIsUnique(ms, ns);
    AtMostOneResult(ns, j, j + 1, y);
    ResultsInSingle(ns, y, j);
    ResultsPrefix(UserBlocks(ns[j]), Leading(UserBlocks(ns[j])), y);
    if j > 0 {
      AtMostOneCall(ns, j - 1, y);
    }
  }

  lemma DedupedIsUnique(ms: seq<Message>, ns: seq<Message>)
    requires DedupedFrom(ms, ns)
    ensures UniqueCalls(ns) && UniqueResults(ns) && Paired(ms) && WellFormed(ms)
  {
    hide UniqueCalls, UniqueResults, Paired, WellFormed, SameShape;
  }

  lemma AnswerHasCall(ms: seq<Message>, ns: seq<Message>, j: nat, y: Id)
    requires DedupedFrom(ms, ns) && 0 <= j <= LastConversationIndex(ms) && Results(UserBlocks(ns[j]), y) != []
    ensures j > 0 && CallCount(AssistantBlocks(ns[j - 1]), y) > 0
  {
    hide Results, CallCount, Leading, WellFormed, Paired, UniqueCalls, UniqueResults, Owns, SameShape;
    var b := NthResult(UserBlocks(ns[j]), y, 0);
    var p := Spot(j, b);
    SameSpots(ms, ns, p);
    var c := OwnerExists(ms, p);
    MatchAt(ms, ns, c, p);
    hide DedupedFrom;
    SomeCall(AssistantBlocks(ns[c.msg]), c.blk);
  }

  lemma CallHasAnswer(ms: seq<Message>, ns: seq<Message>, j: nat, y: Id)
    requires DedupedFrom(ms, ns) && 0 < j <= LastConversationIndex(ms) && CallCount(AssistantBlocks(ns[j - 1]), y) > 0
    ensures Results(LeadingRun(UserBlocks(ns[j])), y) != []
  {
    hide Results, CallCount, Leading, WellFormed, Paired, UniqueCalls, UniqueResults, Owns, SameShape, DedupedFrom,
      HasCall;
    Shape(ms, ns);
    DedupedIsUnique(ms, ns);
    var b := NthCall(AssistantBlocks(ns[j - 1]), y, 0);
    var c := Spot(j - 1, b);
    SameSpots(ms, ns, c);
    var p := ResultExists(ms, c);
    MatchAt(ms, ns, c, p);
    SamePoints(ms, ns);
    ResultsPrefix(LeadingRun(UserBlocks(ns[j])), p.blk, y);
  }

  lemma TailKept(ms: seq<Message>, ns: seq<Message>, y: Id)
    requires DedupedFrom(ms, ns)
    ensures var n := LastConversationIndex(ms) + 1;
            |ResultsIn(ns, y, n, |ns|)| <= CallCount(CallsBefore(ns, n), y)
  {
    hide Results, ResultsIn, CallCount, Leading, WellFormed, Paired, UniqueCalls, UniqueResults, Owns, SameShape,
      DedupedFrom, HasCall;
    Shape(ms, ns);
    DedupedIsUnique(ms, ns);
    var n := LastConversationIndex(ms) + 1;
    AtMostOneResult(ns, n, |ns|, y);
    if ResultsIn(ns, y, n, |ns|) != [] {
      var j, b := NthResultIn(ns, y, n, |ns|, 0);
      var p := Spot(j, b);
      SameSpots(ms, ns, p);
      var c := OwnerExists(ms, p);
      MatchAt(ms, ns, c, p);
      SomeCall(AssistantBlocks(ns[c.msg]), c.blk);
    }
  }

  lemma DedupedFromHolds(ms: seq<Message>)
    requires WellFormed(ms)
    ensures DedupedFrom(ms, AllDeduped(ms, RenamesOf(ms)))
  {
    hide WellFormed, Paired, InStep, AllDeduped, RenamesOf, SameShape, UniqueCalls, UniqueResults, Owns, CallAt,
      ResultAt;
    var ns := AllDeduped(ms, RenamesOf(ms));
    WellFormedInStep(ms);
    DedupedShape(ms);
    SamePoints(ms, ns);
    AllDedupedUnique(ms);
    AllDedupedUniqueResults(ms);
    forall c, p | CallAt(ms, c) && ResultAt(ms, p)
      ensures CallAt(ns, c) && ResultAt(ns, p)
      ensures CallBlock(ns, c).id == ResultBlock(ns, p).id <==> Owns(ms, c, p)
    {
      NewIdsMatch(ms, c, p);
    }
  }

  lemma AnswersStill(ms: seq<Message>, ns: seq<Message>, j: nat)
    requires DedupedFrom(ms, ns) && j <= LastConversationIndex(ms)
    ensures j < |ns| && Answers(CallsBefore(ns, j), ns[j])
  {
    hide Results, ResultsIn, CallCount, Leading, SameShape, CallAt, ResultAt, HasCall, DedupedFrom;
    Shape(ms, ns);
    forall y
      ensures |Results(LeadingRun(UserBlocks(ns[j])), y)| == |Results(UserBlocks(ns[j]), y)|
              == CallCount(CallsBefore(ns, j), y)
    {
      AnswersKept(ms, ns, j, y);
    }
    StillFollowed(ms, ns, j);
  }

  lemma TailStill(ms: seq<Message>, ns: seq<Message>)
    requires DedupedFrom(ms, ns)
    ensures LastConversationIndex(ms) < |ns| && TailMatches(ns, LastConversationIndex(ms) + 1)
  {
    hide Results, ResultsIn, CallCount, SameShape, DedupedFrom;
    Shape(ms, ns);
    var n := LastConversationIndex(ms) + 1;
    forall y
      ensures |ResultsIn(ns, y, n, |ns|)| <= CallCount(CallsBefore(ns, n), y)
    {
      TailKept(ms, ns, y);
    }
  }

  lemma DedupedFromWellFormed(ms: seq<Message>, ns: seq<Message>)
    requires DedupedFrom(ms, ns)
    ensures WellFormed(ns)
  {
    hide Answers, TailMatches, DedupedFrom, SameShape;
    Shape(ms, ns);
    forall j: nat | j <= LastConversationIndex(ns)
      ensures Answers(CallsBefore(ns, j), ns[j])
    {
      AnswersStill(ms, ns, j);
    }
    TailStill(ms, ns);
  }

  lemma Shape(ms: seq<Message>, ns: seq<Message>)
    requires DedupedFrom(ms, ns)
    ensures SameShape(ms, ns) && LastConversationIndex(ns) == LastConversationIndex(ms) && |ns| == |ms|
  {
  }

  lemma StillFollowed(ms: seq<Message>, ns: seq<Message>, j: nat)
    requires DedupedFrom(ms, ns) && j <= LastConversationIndex(ms)
    ensures HasCall(CallsBefore(ns, j)) ==> IsUserBlocks(ns[j])
  {
    hide UniqueCalls, UniqueResults, Owns, CallAt, ResultAt, HasCall, TailMatches, SameShape;
    SamePoints(ms, ns);
    assert Answers(CallsBefore(ms, j), ms[j]);
    assert !HasCall([]) by { NoCallInNothing(); }
  }

  /** On paired histories, making ids unique keeps a history well formed or not. */
  lemma DedupedWellFormed(ms: seq<Message>)
    requires Paired(ms)
    ensures WellFormed(Deduped(ms)) <==> WellFormed(ms)
  {
    hide WellFormed, Paired, AllDeduped, RenamesOf, Unanswered, SameShape;
    if HasDuplicate(CallSeq(ms, |ms|)) {
      var ns := AllDeduped(ms, RenamesOf(ms));
      if WellFormed(ms) {
        DedupedFromHolds(ms);
        DedupedFromWellFormed(ms, ns);
      } else {
        WellFormedIff(ms);
        var j: nat :| j <= LastConversationIndex(ms) && Unanswered(ms, j);
        DedupedShape(ms);
        StaysUnanswered(ms, ns, j);
        WellFormedIff(ns);
      }
    }
  }

  lemma StaysUnanswered(ms: seq<Message>, ns: seq<Message>, j: nat)
    requires SameShape(ms, ns) && j <= LastConversationIndex(ms) && Unanswered(ms, j)
    ensures j <= LastConversationIndex(ns) && Unanswered(ns, j)
  {
    hide SameShape, HasCall;
    SamePoints(ms, ns);
    NoCallInNothing();
  }

  // Who owns what afterwards

  /** With unique ids, a call owns the result that has its id, if it comes later. */
  lemma UniqueOwns(ns: seq<Message>, c: Spot, p: Spot)
    requires UniqueCalls(ns) && UniqueResults(ns) && CallAt(ns, c) && ResultAt(ns, p)
    requires CallBlock(ns, c).id == ResultBlock(ns, p).id && c.msg < p.msg
    ensures Owns(ns, c, p)
  {
    hide CallCount, Results, ResultsIn, UniqueCalls, UniqueResults;
    var y := CallBlock(ns, c).id;
    var n := NextExchange(ns, y, c.msg);
    if n < |ns| {
      var b := NthCall(AssistantBlocks(ns[n]), y, 0);
      TwoCallsOnce(ns, c, Spot(n, b));
    }
    AtMostOneCall(ns, c.msg, y);
    RankBelowCount(ns, c);
    AtMostOneResult(ns, c.msg + 1, |ns|, y);
    RankBelowTotal(ns, y, c.msg + 1, |ns|, p.msg, p.blk);
  }

  lemma KeepsOwner(ms: seq<Message>, c: Spot, p: Spot)
    requires Paired(ms) && InStep(ms)
    ensures Owns(Deduped(ms), c, p) <==> Owns(ms, c, p)
  {
    hide Paired, InStep, AllDeduped, RenamesOf, Owns, CallAt, ResultAt, CallBlock, ResultBlock, UniqueCalls,
      UniqueResults, SameShape;
    if HasDuplicate(CallSeq(ms, |ms|)) {
      var ns := AllDeduped(ms, RenamesOf(ms));
      DedupedShape(ms);
      SameSpots(ms, ns, c);
      SameSpots(ms, ns, p);
      if Owns(ms, c, p) {
        OwnedById(ms, c, p);
        NewIdsMatch(ms, c, p);
        AllDedupedUnique(ms);
        AllDedupedUniqueResults(ms);
        OwnedLater(ms, c, p);
        UniqueOwns(ns, c, p);
      }
      if Owns(ns, c, p) {
        OwnedById(ns, c, p);
        NewIdsMatch(ms, c, p);
      }
    }
  }

  lemma OwnedLater(ms: seq<Message>, c: Spot, p: Spot)
    requires Owns(ms, c, p)
    ensures c.msg < p.msg
  {
    hide NextExchange, ResultRank, CallRank;
  }

  /** Where a result comes after an unanswered call of its id, renaming parts some call from its result. */
  lemma LosesOwner(ms: seq<Message>, j: nat, x: Id) returns (c: Spot, p: Spot)
    requires Paired(ms) && j <= LastConversationIndex(ms) && Overtaken(ms, j, x)
    ensures Owns(ms, c, p) && !Owns(Deduped(ms), c, p)
  {
    hide Paired, Owns, CallCount, Results, ResultsIn, CallNumber, ResultNumber, UniqueCalls, CallAt, AllDeduped,
      RenamesOf, CallSeq, SameShape;
    var k, b := NthResultIn(ms, x, j, |ms|, 0);
    p := Spot(k, b);
    c := OwnerExists(ms, p);
    OwnedById(ms, c, p);
    OwnedNumber(ms, c, p);
    NoBlocks(x);
    OvertakenMissed(ms, x, j, c.msg);
    OtherCall(ms, j, x, c);
    NoDuplicateIffUnique(ms);
    NewIds(ms, c, p);
    if Owns(AllDeduped(ms, RenamesOf(ms)), c, p) {
      OwnedById(AllDeduped(ms, RenamesOf(ms)), c, p);
    }
  }

  lemma {:induction false} OvertakenMissed(ms: seq<Message>, x: Id, j: nat, n: nat)
    requires 0 < j <= n < |ms| && !IsUserBlocks(ms[j]) && CallCount(CallsBefore(ms, j), x) > 0
    ensures Missed(ms, x, n) > 0
    decreases n
  {
    hide CallCount;
    if j < n {
      OvertakenMissed(ms, x, j, n - 1);
    }
  }

  lemma OtherCall(ms: seq<Message>, j: nat, x: Id, c: Spot)
    requires 0 < j < |ms| && CallCount(CallsBefore(ms, j), x) > 0
    requires CallAt(ms, c) && CallBlock(ms, c).id == x && j <= c.msg
    ensures !UniqueCalls(ms)
  {
    var b := NthCall(AssistantBlocks(ms[j - 1]), x, 0);
    var d := Spot(j - 1, b);
    assert CallAt(ms, d) && CallBlock(ms, d).id == x;
  }

  /**
   Making ids unique leaves every call of a paired history with the very result it owned, exactly
   if no result comes after an unanswered call of its id.
   */
  lemma DedupedKeepsOwners(ms: seq<Message>)
    requires Paired(ms)
    ensures (forall c, p :: Owns(Deduped(ms), c, p) <==> Owns(ms, c, p)) <==> InStep(ms)
  {
    hide Paired, Deduped, Owns, Overtaken;
    if InStep(ms) {
      forall c, p
        ensures Owns(Deduped(ms), c, p) <==> Owns(ms, c, p)
      {
        hide InStep;
        KeepsOwner(ms, c, p);
      }
    } else {
      var j: nat, x :| j <= LastConversationIndex(ms) && Overtaken(ms, j, x);
      var c, p := LosesOwner(ms, j, x);
    }
  }

  /** Inputs and outputs stay where they are, for every history. */
  lemma DedupedKeepsPayloads(ms: seq<Message>, c: Spot)
    ensures CallAt(Deduped(ms), c) <==> CallAt(ms, c)
    ensures ResultAt(Deduped(ms), c) <==> ResultAt(ms, c)
    ensures CallAt(ms, c) ==> CallBlock(Deduped(ms), c).input == CallBlock(ms, c).input
    ensures ResultAt(ms, c) ==> ResultBlock(Deduped(ms), c).output == ResultBlock(ms, c).output
  {
    hide AllDeduped, RenamesOf, SameShape;
    if HasDuplicate(CallSeq(ms, |ms|)) {
      DedupedShape(ms);
      SameSpots(ms, AllDeduped(ms, RenamesOf(ms)), c);
    }
  }
}
