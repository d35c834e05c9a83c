/** What repair guarantees about a whole history. */
module RepairTheorems {
  import opened Common
  import opened Messages
  import opened Repair
  import opened RepairLemmas

  // Nothing to repair means well formed, and conversely

  /** Where the r-th result for `x` in messages lo, ..., hi-1 sits. */
  lemma {:induction false} NthResultIn(ms: seq<Message>, x: Id, lo: nat, hi: nat, r: nat) returns (j: nat, b: nat)
    requires hi <= |ms| && r < |ResultsIn(ms, x, lo, hi)|
    ensures lo <= j < hi && b < |UserBlocks(ms[j])| && IsResultOf(UserBlocks(ms[j])[b], x)
    ensures |ResultsIn(ms, x, lo, j)| + |Results(UserBlocks(ms[j])[..b], x)| == r
    decreases hi
  {
    if r < |ResultsIn(ms, x, lo, hi - 1)| {
      j, b := NthResultIn(ms, x, lo, hi - 1, r);
    } else {
      j := hi - 1;
      b := NthResult(UserBlocks(ms[j]), x, r - |ResultsIn(ms, x, lo, j)|);
    }
  }

  lemma RankBelowTotal(ms: seq<Message>, x: Id, lo: nat, hi: nat, j: nat, b: nat)
    requires lo <= j < hi <= |ms| && b < |UserBlocks(ms[j])| && IsResultOf(UserBlocks(ms[j])[b], x)
    ensures |ResultsIn(ms, x, lo, j)| + |Results(UserBlocks(ms[j])[..b], x)| < |ResultsIn(ms, x, lo, hi)|
  {
    ResultsInSplit(ms, x, lo, j, hi);
    ResultsInSplit(ms, x, j, j + 1, hi);
    ResultsPrefix(UserBlocks(ms[j]), b, x);
  }

  ghost predicate AllStay(ms: seq<Message>, last: int, j: nat)
    requires j < |ms| && last < |ms|
  {
    forall b :: 0 <= b < |UserBlocks(ms[j])| && IsToolResult(UserBlocks(ms[j])[b]) ==> Stays(ms, last, j, b)
  }

  lemma StaysMeans(ms: seq<Message>, last: int, j: nat, b: nat)
    requires 0 <= j <= last < |ms| && AllStay(ms, last, j)
    requires b < |UserBlocks(ms[j])| && IsToolResult(UserBlocks(ms[j])[b])
    ensures var bs := UserBlocks(ms[j]);
            b < Leading(bs) && |Results(bs[..b], bs[b].id)| < CallCount(CallsBefore(ms, j), bs[b].id)
  {
    hide Results, CallCount, Leading, ResultsIn;
    assert Stays(ms, last, j, b);
  }

  lemma StayingAnswers(ms: seq<Message>, last: int, j: nat, x: Id)
    requires 0 <= j <= last < |ms| && AllStay(ms, last, j) && Prepend(ms, last, j) == []
    ensures var bs := UserBlocks(ms[j]);
            |Results(LeadingRun(bs), x)| == |Results(bs, x)| == CallCount(CallsBefore(ms, j), x)
  {
    hide Results, CallCount, Leading, AllStay, Inserts;
    var bs := UserBlocks(ms[j]);
    ResultsPrefix(bs, Leading(bs), x);
    if Results(bs, x) != [] {
      var b := NthResult(bs, x, |Results(bs, x)| - 1);
      StaysMeans(ms, last, j, b);
      ResultsPrefix(LeadingRun(bs), b, x);
      assert LeadingRun(bs)[..b] == bs[..b];
    }
    if j > 0 {
      InsertsEmpty(ms, last, j - 1);
    } else {
      NoBlocks(x);
    }
  }

  lemma CleanBody(ms: seq<Message>, last: int, j: nat)
    requires 0 <= j <= last < |ms|
    ensures AllStay(ms, last, j) && Prepend(ms, last, j) == [] <==> Answers(CallsBefore(ms, j), ms[j])
  {
    hide Results, CallCount, Leading, Inserts;
    var bs := UserBlocks(ms[j]);
    var calls := CallsBefore(ms, j);
    if AllStay(ms, last, j) && Prepend(ms, last, j) == [] {
      forall x
        ensures |Results(LeadingRun(bs), x)| == |Results(bs, x)| == CallCount(calls, x)
      {
        StayingAnswers(ms, last, j, x);
      }
      if b :| 0 <= b < |calls| && IsToolUse(calls[b]) {
        SomeCall(calls, b);
        NoBlocks(calls[b].id);
      }
    }
    if Answers(calls, ms[j]) {
      forall b | 0 <= b < |bs| && IsToolResult(bs[b])
        ensures Stays(ms, last, j, b)
      {
        AnsweredStays(ms, last, j, b);
      }
      if j > 0 {
        forall x
          ensures CallCount(calls, x) <= InPlaceCount(ms, x, j - 1)
        {
          if !IsUserBlocks(ms[j]) {
            NoCalls(calls, x);
          }
        }
        InsertsEmpty(ms, last, j - 1);
      }
    }
  }

  lemma AnsweredStays(ms: seq<Message>, last: int, j: nat, b: nat)
    requires 0 <= j <= last < |ms| && Matches(CallsBefore(ms, j), ms[j])
    requires b < |UserBlocks(ms[j])| && IsToolResult(UserBlocks(ms[j])[b])
    ensures Stays(ms, last, j, b)
  {
    hide Results, CallCount;
    var bs := UserBlocks(ms[j]);
    var x := bs[b].id;
    var n := Leading(bs);
    ResultsPrefix(bs, b, x);
    var k := Min(n, b);
    ResultsPrefix(bs[..b], k, x);
    assert bs[..b][..k] == bs[..k];
  }

  lemma CleanTail(ms: seq<Message>, last: int)
    requires -1 <= last < |ms|
    ensures (forall j :: last < j < |ms| ==> AllStay(ms, last, j)) <==> TailMatches(ms, last + 1)
  {
    hide Results, CallCount, ResultsIn;
    var n := last + 1;
    if forall j :: last < j < |ms| ==> AllStay(ms, last, j) {
      forall x
        ensures |ResultsIn(ms, x, n, |ms|)| <= CallCount(CallsBefore(ms, n), x)
      {
        if ResultsIn(ms, x, n, |ms|) != [] {
          var j, b := NthResultIn(ms, x, n, |ms|, |ResultsIn(ms, x, n, |ms|)| - 1);
          assert AllStay(ms, last, j);
          assert Stays(ms, last, j, b);
        }
      }
    }
    if TailMatches(ms, n) {
      forall j, b | last < j < |ms| && 0 <= b < |UserBlocks(ms[j])| && IsToolResult(UserBlocks(ms[j])[b])
        ensures Stays(ms, last, j, b)
      {
        RankBelowTotal(ms, UserBlocks(ms[j])[b].id, n, |ms|, j, b);
      }
    }
  }

  /** Repair changes nothing exactly when the history is well formed. */
  lemma NoRepairIffWellFormed(ms: seq<Message>)
    ensures RepairAdjacency(ms).None? <==> WellFormed(ms)
  {
    hide Answers, TailMatches, Stays, Inserts;
    var last := LastConversationIndex(ms);
    forall j: nat | j <= last
      ensures AllStay(ms, last, j) && Prepend(ms, last, j) == [] <==> Answers(CallsBefore(ms, j), ms[j])
    {
      CleanBody(ms, last, j);
    }
    CleanTail(ms, last);
    hide Prepend;
    if WellFormed(ms) {
      WellFormedIsClean(ms, last);
    }
    if Clean(ms, last) {
      forall j: nat | j < |ms|
        ensures AllStay(ms, last, j) && Prepend(ms, last, j) == []
      {
        CleanStays(ms, last, j);
      }
      assert WellFormed(ms);
    }
  }

  lemma WellFormedIsClean(ms: seq<Message>, last: int)
    requires last < |ms|
    requires forall j: nat :: j < |ms| ==> AllStay(ms, last, j) && (j <= last ==> Prepend(ms, last, j) == [])
    ensures Clean(ms, last)
  {
    hide Stays, Inserts, Prepend;
    forall i: nat | i < |ms|
      ensures Inserts(ms, last, i) == []
    {
      InsertsPrepend(ms, last, i);
    }
    forall j, b | 0 <= j < |ms| && 0 <= b < |UserBlocks(ms[j])| && IsToolResult(UserBlocks(ms[j])[b])
      ensures Stays(ms, last, j, b)
    {
      assert AllStay(ms, last, j);
    }
  }

  lemma CleanStays(ms: seq<Message>, last: int, j: nat)
    requires last < |ms| && Clean(ms, last) && j < |ms|
    ensures AllStay(ms, last, j) && Prepend(ms, last, j) == []
  {
    hide Stays, Inserts;
  }

  lemma InsertsPrepend(ms: seq<Message>, last: int, i: nat)
    requires i < |ms| && last < |ms|
    ensures i < last ==> Prepend(ms, last, i + 1) == Inserts(ms, last, i)
    ensures last <= i ==> Inserts(ms, last, i) == []
  {
  }

  // What each message contributes

  /** The answers that the calls of `x` in message `i` get: those they are owed, unless they are lost. */
  function Given(ms: seq<Message>, x: Id, i: nat): seq<Block>
    requires i < |ms|
  {
    if Loses(ms, i) then [] else Share(ms, x, i)
  }

  /** The answers still to come for the exchange before message `i`, when a user message follows it. */
  function Due(ms: seq<Message>, x: Id, i: nat): seq<Block>
    requires i <= |ms|
  {
    if 0 < i < |ms| && IsUser(ms[i]) then Given(ms, x, i - 1) else []
  }

  /** The calls that the message rebuilt from `i` has to answer. */
  function Pending(ms: seq<Message>, i: nat): seq<Block>
    requires i <= |ms|
  {
    if 0 < i < |ms| && IsUser(ms[i]) then AssistantBlocks(ms[i - 1]) else []
  }

  /** What is meant for message `j` is lost. */
  predicate LostAt(ms: seq<Message>, j: nat) {
    0 < j && Loses(ms, j - 1)
  }

  lemma DueCount(ms: seq<Message>, x: Id, i: nat)
    requires i <= |ms| && !LostAt(ms, i)
    ensures |Due(ms, x, i)| == CallCount(Pending(ms, i), x)
  {
  }

  lemma ResultsInOne(m: Message, x: Id)
    ensures ResultsIn([m], x, 0, 1) == Results(UserBlocks(m), x)
  {
    assert ResultsIn([m], x, 0, 0) == [];
  }

  /** A message whose array is a run of the due results and then no results answers the calls. */
  lemma RunAnswers(ms: seq<Message>, j: nat, m: Message, run: seq<Block>, rest: seq<Block>)
    requires j < |ms| && !LostAt(ms, j)
    requires IsUserBlocks(m) && UserBlocks(m) == run + rest && Leading(run + rest) == |run|
    requires forall b :: 0 <= b < |rest| ==> !IsToolResult(rest[b])
    requires forall x :: Results(run, x) == Due(ms, x, j)
    ensures Answers(Pending(ms, j), m)
    ensures forall x :: Results(UserBlocks(m), x) == Due(ms, x, j)
  {
    hide Results, CallCount, Leading, Due;
    forall x
      ensures Results(UserBlocks(m), x) == Due(ms, x, j)
      ensures |Results(LeadingRun(UserBlocks(m)), x)| == |Results(UserBlocks(m), x)| == CallCount(Pending(ms, j), x)
    {
      ResultsConcat(run, rest, x);
      NoResults(rest, x);
      DueCount(ms, x, j);
      assert Results(run, x) == Due(ms, x, j);
      assert (run + rest)[..|run|] == run;
    }
  }

  lemma KeptRunIsDue(ms: seq<Message>, last: int, j: nat, x: Id)
    requires 0 <= j <= last < |ms| && IsUserBlocks(ms[j])
    ensures Results(KeptUpTo(ms, last, j, Leading(UserBlocks(ms[j]))) + Prepend(ms, last, j), x) == Due(ms, x, j)
  {
    hide Results, CallCount, Leading, KeptUpTo, Inserts, Share;
    if j > 0 {
      SpliceDelivers(ms, last, j, x);
    } else {
      KeptLeading(ms, last, j, Leading(UserBlocks(ms[j])), x);
      NoBlocks(x);
      assert KeptUpTo(ms, last, j, Leading(UserBlocks(ms[j]))) + []
          == KeptUpTo(ms, last, j, Leading(UserBlocks(ms[j])));
    }
  }

  ghost predicate SegmentOk(ms: seq<Message>, i: nat, seg: seq<Message>)
    requires i < |ms|
  {
    && (seg == [] ==> forall x :: Due(ms, x, i) == [])
    && (seg != [] ==> if LostAt(ms, i) then !IsUserBlocks(seg[0]) else Answers(Pending(ms, i), seg[0]))
    && (forall x :: ResultsIn(seg, x, 0, |seg|) == Due(ms, x, i))
  }

  lemma SingleOk(ms: seq<Message>, i: nat, m: Message)
    requires i < |ms| && if LostAt(ms, i) then !IsUserBlocks(m) else Answers(Pending(ms, i), m)
    requires forall x :: Results(UserBlocks(m), x) == Due(ms, x, i)
    ensures SegmentOk(ms, i, [m])
  {
    hide Results, Answers, Due, ResultsIn, LostAt;
    forall x
      ensures ResultsIn([m], x, 0, 1) == Due(ms, x, i)
    {
      ResultsInOne(m, x);
      assert Results(UserBlocks(m), x) == Due(ms, x, i);
    }
  }

  lemma ArraySegmentOk(ms: seq<Message>, last: int, j: nat)
    requires 0 <= j <= last < |ms| && IsUserBlocks(ms[j])
    ensures SegmentOk(ms, j, RewriteUser(ms, last, j))
    ensures (exists b :: 0 <= b < |UserBlocks(ms[j])| && !IsToolResult(UserBlocks(ms[j])[b])) ==>
              |RewriteUser(ms, last, j)| == 1 && IsConversationPoint(RewriteUser(ms, last, j)[0])
  {
    hide Results, CallCount, Leading, KeptUpTo, Due, NonResults, ResultsIn, Spliced;
    var bs := UserBlocks(ms[j]);
    SplicedBody(ms, last, j);
    var run := KeptUpTo(ms, last, j, Leading(bs)) + Prepend(ms, last, j);
    var rest := NonResults(bs[Leading(bs)..]);
    forall x
      ensures Results(run, x) == Due(ms, x, j)
    {
      KeptRunIsDue(ms, last, j, x);
    }
    var m := ms[j].(content := Blocks(run + rest));
    RunAnswers(ms, j, m, run, rest);
    SingleOk(ms, j, m);
    if rest != [] {
      assert UserBlocks(m)[|run|] == rest[0];
    }
    if run + rest == [] {
      forall x
        ensures Due(ms, x, j) == [] && ResultsIn([], x, 0, 0) == []
      {
        NoBlocks(x);
        assert Results(UserBlocks(m), x) == Due(ms, x, j);
        ResultsInEmpty([], x, 0, 0);
      }
    }
  }

  lemma StringSegmentOk(ms: seq<Message>, last: int, j: nat)
    requires 0 <= j <= last < |ms| && IsUser(ms[j]) && ms[j].content.Str?
    ensures SegmentOk(ms, j, RewriteUser(ms, last, j)) && |RewriteUser(ms, last, j)| == 1
  {
    hide Results, CallCount, Leading, Inserts, Due, ResultsIn, Share;
    var pre := Prepend(ms, last, j);
    var rest := TextBlocks(ms[j].content.text);
    var m := RewriteUser(ms, last, j)[0];
    forall x
      ensures Results(pre, x) == Due(ms, x, j)
    {
      PrependIsDue(ms, last, j, x);
    }
    if pre == [] {
      forall x
        ensures Due(ms, x, j) == [] && Results(UserBlocks(m), x) == Due(ms, x, j)
      {
        NoBlocks(x);
      }
      NothingDue(ms, j);
      SingleOk(ms, j, m);
    } else {
      PrependIsRun(ms, last, j);
      LeadingOf(pre, rest);
      RunAnswers(ms, j, m, pre, rest);
      SingleOk(ms, j, m);
    }
  }

  lemma NothingDue(ms: seq<Message>, j: nat)
    requires j < |ms| && !LostAt(ms, j) && forall x :: Due(ms, x, j) == []
    ensures !HasCall(Pending(ms, j))
  {
    if b :| 0 <= b < |Pending(ms, j)| && IsToolUse(Pending(ms, j)[b]) {
      var x := Pending(ms, j)[b].id;
      assert Due(ms, x, j) == [];
      DueCount(ms, x, j);
      SomeCall(Pending(ms, j), b);
    }
  }

  lemma PrependIsRun(ms: seq<Message>, last: int, j: nat)
    requires 0 <= j <= last < |ms|
    ensures forall b :: 0 <= b < |Prepend(ms, last, j)| ==> IsToolResult(Prepend(ms, last, j)[b])
  {
    hide Inserts, Results, CallCount, InPlaceCount;
    if j > 0 {
      InsertsResults(ms, last, j - 1, "");
    }
  }

  lemma PrependIsDue(ms: seq<Message>, last: int, j: nat, x: Id)
    requires 0 <= j <= last < |ms| && IsUser(ms[j]) && ms[j].content.Str?
    ensures Results(Prepend(ms, last, j), x) == Due(ms, x, j)
  {
    hide Results, CallCount, Inserts, Share;
    if j > 0 {
      InsertsAreShare(ms, last, j - 1, x);
    } else {
      NoBlocks(x);
    }
  }

  lemma OtherSegmentOk(ms: seq<Message>, last: int, j: nat)
    requires 0 <= j <= last < |ms| && IsUser(ms[j]) && ms[j].content.OtherContent?
    ensures SegmentOk(ms, j, [ms[j]])
  {
    hide Results, ResultsIn, CallCount, Share;
    forall x
      ensures Results(UserBlocks(ms[j]), x) == Due(ms, x, j)
    {
      NoBlocks(x);
      if !LostAt(ms, j) {
        NoCalls(Pending(ms, j), x);
        DueCount(ms, x, j);
      }
    }
    SingleOk(ms, j, ms[j]);
  }

  // The history rebuilt so far

  ghost predicate Chain(ms: seq<Message>) {
    forall j :: 0 <= j < |ms| ==> Matches(CallsBefore(ms, j), ms[j])
  }

  ghost predicate SameCalls(a: seq<Block>, b: seq<Block>) {
    forall x :: CallCount(a, x) == CallCount(b, x)
  }

  lemma SameCallsMatch(a: seq<Block>, b: seq<Block>, m: Message)
    requires SameCalls(a, b) && Matches(a, m)
    ensures Matches(b, m)
  {
    hide Results, CallCount, Leading;
    forall x
      ensures CallCount(a, x) == CallCount(b, x)
    {
    }
  }

  lemma ChainAppend(ms: seq<Message>, m: Message)
    requires Chain(ms) && Matches(CallsBefore(ms, |ms|), m)
    ensures Chain(ms + [m]) && CallsBefore(ms + [m], |ms| + 1) == AssistantBlocks(m)
  {
    hide Matches, AssistantBlocks;
    var ns := ms + [m];
    forall j: nat | j < |ns|
      ensures Matches(CallsBefore(ns, j), ns[j])
    {
      assert j > 0 ==> ns[j - 1] == ms[j - 1];
      assert j < |ms| ==> Matches(CallsBefore(ms, j), ms[j]);
    }
  }

  /** The answers that exchanges 0, ..., n-1 get, in order. */
  function Shares(ms: seq<Message>, x: Id, n: nat): seq<Block>
    requires n <= |ms|
  {
    if n == 0 then [] else Shares(ms, x, n - 1) + Given(ms, x, n - 1)
  }

  /** How many exchanges the history rebuilt from the first `i` messages has settled. */
  function Settled(ms: seq<Message>, i: nat): (n: nat)
    requires i <= |ms|
    ensures n <= i
  {
    if 0 < i < |ms| && IsUser(ms[i]) then i - 1 else i
  }

  ghost predicate Built(ms: seq<Message>, i: nat, out: seq<Message>)
    requires i <= |ms|
  {
    && Chain(out)
    && SameCalls(CallsBefore(out, |out|), Pending(ms, i))
    && (forall x :: ResultsIn(out, x, 0, |out|) == Shares(ms, x, Settled(ms, i)))
  }

  lemma ShareOfUser(ms: seq<Message>, x: Id, i: nat)
    requires i < |ms| && !IsAssistantBlocks(ms[i])
    ensures Given(ms, x, i) == []
  {
    NoBlocks(x);
  }

  lemma SharesDue(ms: seq<Message>, x: Id, i: nat)
    requires i < |ms|
    ensures Shares(ms, x, Settled(ms, i)) + Due(ms, x, i) == Shares(ms, x, i)
  {
  }

  lemma UserSegmentOk(ms: seq<Message>, last: int, j: nat)
    requires 0 <= j <= last < |ms| && IsUser(ms[j])
    ensures SegmentOk(ms, j, Segment(ms, last, j)) && |Segment(ms, last, j)| <= 1
    ensures forall m :: m in Segment(ms, last, j) ==> IsUser(m)
  {
    match ms[j].content
    case Blocks(_) => ArraySegmentOk(ms, last, j);
    case Str(_) => StringSegmentOk(ms, last, j);
    case OtherContent(_) => OtherSegmentOk(ms, last, j);
  }

  lemma BuildUser(ms: seq<Message>, last: int, i: nat, out: seq<Message>)
    requires 0 <= i <= last < |ms| && IsUser(ms[i]) && Built(ms, i, out)
    ensures Built(ms, i + 1, out + Segment(ms, last, i))
  {
    hide Results, CallCount, Leading, Segment, Matches, ResultsIn, Due, Share, Shares, LostAt, SegmentOk;
    var seg := Segment(ms, last, i);
    UserSegmentOk(ms, last, i);
    assert AssistantBlocks(ms[i]) == [];
    if seg != [] {
      assert seg == [seg[0]] && seg[0] in seg;
      SegmentMatches(ms, i, seg, CallsBefore(out, |out|));
      ChainAppend(out, seg[0]);
    } else {
      assert out + seg == out;
      EmptySegment(ms, last, i);
    }
    forall x
      ensures ResultsIn(out + seg, x, 0, |out + seg|) == Shares(ms, x, Settled(ms, i + 1))
    {
      ResultsInConcat(out, seg, x);
      SegmentResults(ms, i, seg, x);
      SharesDue(ms, x, i);
      SharesSkip(ms, x, i);
    }
  }

  lemma SegmentResults(ms: seq<Message>, i: nat, seg: seq<Message>, x: Id)
    requires i < |ms| && SegmentOk(ms, i, seg)
    ensures ResultsIn(seg, x, 0, |seg|) == Due(ms, x, i)
  {
  }

  lemma SegmentMatches(ms: seq<Message>, i: nat, seg: seq<Message>, calls: seq<Block>)
    requires i < |ms| && SegmentOk(ms, i, seg) && seg != [] && SameCalls(calls, Pending(ms, i))
    ensures Matches(calls, seg[0])
  {
    hide LostAt, Results, ResultsIn, CallCount, Leading;
    if IsUserBlocks(seg[0]) {
      SameCallsMatch(Pending(ms, i), calls, seg[0]);
    }
  }

  /** A message of which nothing is left was owed nothing. */
  lemma EmptySegment(ms: seq<Message>, last: int, i: nat)
    requires 0 <= i <= last < |ms| && IsUser(ms[i]) && Segment(ms, last, i) == [] && SegmentOk(ms, i, [])
    ensures SameCalls([], Pending(ms, i))
  {
    hide CallCount, Results, ResultsIn, Due, Leading, KeptUpTo, Inserts;
    forall x
      ensures CallCount(Pending(ms, i), x) == CallCount([], x)
    {
      DueCount(ms, x, i);
      NoBlocks(x);
    }
  }

  lemma SharesSkip(ms: seq<Message>, x: Id, i: nat)
    requires i < |ms| && !IsAssistantBlocks(ms[i])
    ensures Shares(ms, x, i + 1) == Shares(ms, x, i)
  {
    ShareOfUser(ms, x, i);
  }

  lemma SharesStep(ms: seq<Message>, x: Id, i: nat)
    requires i < |ms|
    requires !Loses(ms, i)
    ensures Shares(ms, x, i + 1) == Shares(ms, x, i) + Share(ms, x, i)
  {
  }

  /** The inserted message answers every call of the message it follows. */
  lemma ResultMessageOk(ms: seq<Message>, last: int, i: nat)
    requires 0 <= i < last < |ms| && !IsUserBlocks(ms[i + 1])
    ensures Matches(AssistantBlocks(ms[i]), ResultMessage(Inserts(ms, last, i)))
    ensures Inserts(ms, last, i) == [] ==> SameCalls(AssistantBlocks(ms[i]), [])
    ensures forall x :: Results(Inserts(ms, last, i), x) == Share(ms, x, i)
  {
    hide Results, CallCount, Inserts;
    var ins := Inserts(ms, last, i);
    forall x
      ensures Results(ins, x) == Share(ms, x, i) && |Share(ms, x, i)| == CallCount(AssistantBlocks(ms[i]), x)
      ensures LeadingRun(ins) == ins
      ensures ins == [] ==> CallCount(AssistantBlocks(ms[i]), x) == CallCount([], x)
    {
      InsertsAreShare(ms, last, i, x);
      NoBlocks(x);
    }
  }

  lemma BuildNonUser(ms: seq<Message>, last: int, i: nat, out: seq<Message>)
    requires 0 <= i < last < |ms| && !IsUser(ms[i]) && Built(ms, i, out)
    ensures Built(ms, i + 1, out + Segment(ms, last, i))
  {
    hide Results, CallCount, Leading, Matches, ResultsIn, Share, Shares, Inserts;
    var ins := Inserts(ms, last, i);
    var out1 := out + [ms[i]];
    BuildKeep(ms, i, out);
    if NextIsUser(ms, i) {
      assert Segment(ms, last, i) == [ms[i]];
    } else {
      var m := ResultMessage(ins);
      ResultMessageOk(ms, last, i);
      if ins == [] {
        assert Segment(ms, last, i) == [ms[i]];
        assert SameCalls(CallsBefore(out1, |out1|), Pending(ms, i + 1));
      } else {
        ChainAppend(out1, m);
        assert out + Segment(ms, last, i) == out1 + [m];
      }
      forall x
        ensures ResultsIn(out + Segment(ms, last, i), x, 0, |out + Segment(ms, last, i)|) == Shares(ms, x, i + 1)
      {
        SharesStep(ms, x, i);
        NoBlocks(x);
        ResultsInConcat(out1, [m], x);
        ResultsInOne(m, x);
        assert ResultsIn(out1, x, 0, |out1|) == Shares(ms, x, i);
        assert Results(ins, x) == Share(ms, x, i);
      }
    }
  }

  lemma NotMatched(calls: seq<Block>, m: Message)
    requires !IsUser(m)
    ensures Matches(calls, m)
  {
  }

  /** A message that is not from the user joins as it is. */
  lemma BuildKeep(ms: seq<Message>, i: nat, out: seq<Message>)
    requires i < |ms| && !IsUser(ms[i]) && Built(ms, i, out)
    ensures Chain(out + [ms[i]])
    ensures CallsBefore(out + [ms[i]], |out| + 1) == AssistantBlocks(ms[i])
    ensures forall x :: ResultsIn(out + [ms[i]], x, 0, |out| + 1) == Shares(ms, x, i)
  {
    hide Results, CallCount, Leading, ResultsIn, Shares, Matches, Chain, SameCalls;
    NotMatched(CallsBefore(out, |out|), ms[i]);
    ChainAppend(out, ms[i]);
    forall x
      ensures ResultsIn(out + [ms[i]], x, 0, |out| + 1) == Shares(ms, x, i)
    {
      ResultsInConcat(out, [ms[i]], x);
      ResultsInOne(ms[i], x);
      NoBlocks(x);
    }
  }

  lemma BuiltNothing(ms: seq<Message>)
    ensures Built(ms, 0, [])
  {
  }

  lemma {:induction false} RebuiltBody(ms: seq<Message>, last: int, i: nat)
    requires 0 <= i <= last < |ms|
    ensures Built(ms, i, Rebuilt(ms, last, i))
    decreases i
  {
    hide Segment, Built;
    if i == 0 {
      BuiltNothing(ms);
    } else {
      RebuiltBody(ms, last, i - 1);
      if IsUser(ms[i - 1]) {
        BuildUser(ms, last, i - 1, Rebuilt(ms, last, i - 1));
      } else {
        BuildNonUser(ms, last, i - 1, Rebuilt(ms, last, i - 1));
      }
    }
  }

  // After the last conversation point

  /** The results for `x` after the last conversation point that match a call at that point. */
  function TailShare(ms: seq<Message>, x: Id, last: int, n: nat): seq<Block>
    requires -1 <= last < n <= |ms|
  {
    var rs := ResultsIn(ms, x, last + 1, n);
    rs[..Min(|rs|, CallCount(CallsBefore(ms, last + 1), x))]
  }

  /** What is kept of block `k` of a message after the last conversation point. */
  lemma KeptAtTail(ms: seq<Message>, last: int, j: nat, k: nat, x: Id)
    requires -1 <= last < j < |ms| && k < |UserBlocks(ms[j])|
    ensures var b := UserBlocks(ms[j])[k];
            var before := |ResultsIn(ms, x, last + 1, j)| + |Results(UserBlocks(ms[j])[..k], x)|;
            Results(KeptAt(ms, last, j, k), x)
            == if IsResultOf(b, x) && before < CallCount(CallsBefore(ms, last + 1), x) then [b] else []
  {
    hide Results, CallCount, ResultsIn;
    NoBlocks(x);
    ResultsOfOne(UserBlocks(ms[j])[k], x);
  }

  lemma {:induction false} KeptTail(ms: seq<Message>, last: int, j: nat, k: nat, x: Id)
    requires -1 <= last < j < |ms| && k <= |UserBlocks(ms[j])|
    ensures var rs := Results(UserBlocks(ms[j])[..k], x);
            var before := |ResultsIn(ms, x, last + 1, j)|;
            var n := CallCount(CallsBefore(ms, last + 1), x);
            Results(KeptUpTo(ms, last, j, k), x)
            == rs[..if before + |rs| <= n then |rs| else if before <= n then n - before else 0]
    decreases k
  {
    hide Results, CallCount, ResultsIn, KeptAt, UserBlocks, CallsBefore;
    NoBlocks(x);
    var bs := UserBlocks(ms[j]);
    if k == 0 {
      assert bs[..0] == [];
    } else {
      KeptTail(ms, last, j, k - 1, x);
      ResultsStep(bs, k - 1, x);
      ResultsConcat(KeptUpTo(ms, last, j, k - 1), KeptAt(ms, last, j, k - 1), x);
      KeptAtTail(ms, last, j, k - 1, x);
    }
  }

  lemma {:induction false} KeptOnlyResults(ms: seq<Message>, last: int, j: nat, k: nat)
    requires j < |ms| && last < |ms| && k <= |UserBlocks(ms[j])|
    requires forall b :: 0 <= b < |UserBlocks(ms[j])| ==> IsToolResult(UserBlocks(ms[j])[b])
    ensures forall b :: 0 <= b < |KeptUpTo(ms, last, j, k)| ==> IsToolResult(KeptUpTo(ms, last, j, k)[b])
    decreases k
  {
    hide Stays;
    if k > 0 {
      KeptOnlyResults(ms, last, j, k - 1);
    }
  }

  /** A message after the last conversation point contributes the results that still match calls. */
  lemma TailSegment(ms: seq<Message>, last: int, j: nat, x: Id)
    requires -1 <= last < j < |ms| && !IsConversationPoint(ms[j])
    ensures var seg := Segment(ms, last, j);
            && (forall k :: 0 <= k < |seg| ==> !IsConversationPoint(seg[k]))
            && ResultsIn(seg, x, 0, |seg|) == Results(Kept(ms, last, j), x)
  {
    hide Results, CallCount, ResultsIn, KeptUpTo, Leading;
    NoBlocks(x);
    ResultsInEmpty([], x, 0, 0);
    if IsUser(ms[j]) {
      var kept := Kept(ms, last, j);
      assert Spliced(kept, []) == kept;
      KeptOnlyResults(ms, last, j, |UserBlocks(ms[j])|);
      ResultsInOne(ms[j].(content := Blocks(kept)), x);
      ResultsInOne(ms[j], x);
    } else {
      assert Segment(ms, last, j) == [ms[j]];
      ResultsInOne(ms[j], x);
      KeptNothing(ms, last, j);
    }
  }

  lemma KeptNothing(ms: seq<Message>, last: int, j: nat)
    requires j < |ms| && last < |ms| && !IsUserBlocks(ms[j])
    ensures Kept(ms, last, j) == []
  {
  }

  lemma TailStep(ms: seq<Message>, last: int, j: nat, x: Id)
    requires -1 <= last < j < |ms|
    ensures TailShare(ms, x, last, j + 1) == TailShare(ms, x, last, j) + Results(Kept(ms, last, j), x)
  {
    hide Results, CallCount, KeptUpTo;
    var bs := UserBlocks(ms[j]);
    KeptTail(ms, last, j, |bs|, x);
    assert bs[..|bs|] == bs;
    var rs := ResultsIn(ms, x, last + 1, j);
    assert ResultsIn(ms, x, last + 1, j + 1) == rs + Results(bs, x);
  }

  lemma NoTail(ms: seq<Message>, x: Id, last: int)
    requires -1 <= last < |ms|
    ensures TailShare(ms, x, last, last + 1) == [] && ResultsIn([], x, 0, 0) == []
  {
  }

  lemma {:induction false} RebuiltTail(ms: seq<Message>, last: int, n: nat) returns (tail: seq<Message>)
    requires -1 <= last < n <= |ms|
    requires forall k :: last < k < |ms| ==> !IsConversationPoint(ms[k])
    ensures Rebuilt(ms, last, n) == Rebuilt(ms, last, last + 1) + tail
    ensures forall k :: 0 <= k < |tail| ==> !IsConversationPoint(tail[k])
    ensures forall x :: ResultsIn(tail, x, 0, |tail|) == TailShare(ms, x, last, n)
    decreases n
  {
    hide Results, Segment, KeptUpTo, Leading, Kept, IsConversationPoint, ResultsIn, TailShare, Rebuilt;
    if n == last + 1 {
      tail := [];
      forall x
        ensures ResultsIn(tail, x, 0, 0) == TailShare(ms, x, last, n)
      {
        NoTail(ms, x, last);
      }
    } else {
      var front := RebuiltTail(ms, last, n - 1);
      var seg := Segment(ms, last, n - 1);
      tail := front + seg;
      RebuiltStep(ms, last, n - 1);
      TailSegment(ms, last, n - 1, "");
      forall x
        ensures ResultsIn(tail, x, 0, |tail|) == TailShare(ms, x, last, n)
      {
        TailSegment(ms, last, n - 1, x);
        TailStep(ms, last, n - 1, x);
        ResultsInConcat(front, seg, x);
      }
    }
  }

  // The whole history

  lemma LastOf(a: seq<Message>, b: seq<Message>)
    requires a != [] && IsConversationPoint(a[|a| - 1])
    requires forall k :: 0 <= k < |b| ==> !IsConversationPoint(b[k])
    ensures LastConversationIndex(a + b) == |a| - 1
  {
    hide IsConversationPoint;
    var i := LastConversationIndex(a + b);
    assert (a + b)[|a| - 1] == a[|a| - 1];
    assert forall k :: |a| <= k < |a + b| ==> !IsConversationPoint((a + b)[k]) by {
      assert forall k :: |a| <= k < |a + b| ==> (a + b)[k] == b[k - |a|];
    }
  }

  lemma LastOfNone(b: seq<Message>)
    requires forall k :: 0 <= k < |b| ==> !IsConversationPoint(b[k])
    ensures LastConversationIndex(b) == -1
  {
  }

  lemma ChainPrefix(a: seq<Message>, b: seq<Message>, j: nat)
    requires Chain(a) && j < |a|
    ensures Matches(CallsBefore(a + b, j), (a + b)[j])
  {
    hide Matches;
    assert j > 0 ==> (a + b)[j - 1] == a[j - 1];
  }

  lemma ResultsAfter(a: seq<Message>, b: seq<Message>, x: Id)
    ensures ResultsIn(a + b, x, |a|, |a + b|) == ResultsIn(b, x, 0, |b|)
  {
    ResultsInSame(a + b, b, x, |a|, |a + b|, -|a|);
  }

  lemma TailMatchesAfter(a: seq<Message>, b: seq<Message>)
    requires a != []
    requires forall x :: |ResultsIn(b, x, 0, |b|)| <= CallCount(AssistantBlocks(a[|a| - 1]), x)
    ensures TailMatches(a + b, |a|)
  {
    hide CallCount, ResultsIn;
    forall x
      ensures |ResultsIn(a + b, x, |a|, |a + b|)| <= CallCount(CallsBefore(a + b, |a|), x)
    {
      ResultsAfter(a, b, x);
      assert |ResultsIn(b, x, 0, |b|)| <= CallCount(AssistantBlocks(a[|a| - 1]), x);
    }
  }

  /** A chain that ends in a conversation point, followed by results that match its calls. */
  lemma ChainThenTail(a: seq<Message>, b: seq<Message>)
    requires a != [] && Chain(a) && IsConversationPoint(a[|a| - 1])
    requires forall k :: 0 <= k < |b| ==> !IsConversationPoint(b[k])
    requires forall x :: |ResultsIn(b, x, 0, |b|)| <= CallCount(AssistantBlocks(a[|a| - 1]), x)
    ensures Paired(a + b)
  {
    hide Matches, CallCount, IsConversationPoint, ResultsIn, TailMatches, Chain, CallsBefore;
    LastOf(a, b);
    TailMatchesAfter(a, b);
    forall j: nat | j <= |a| - 1
      ensures Matches(CallsBefore(a + b, j), (a + b)[j])
    {
      ChainPrefix(a, b, j);
    }
  }

  lemma PlainTail(ms: seq<Message>, last: int, x: Id)
    requires 0 <= last < |ms| && !IsAssistantBlocks(ms[last])
    ensures TailShare(ms, x, last, |ms|) == []
  {
    NoBlocks(x);
  }

  lemma RebuiltWithPoint(ms: seq<Message>, last: int)
    requires 0 <= last < |ms| && IsConversationPoint(ms[last])
    requires forall k :: last < k < |ms| ==> !IsConversationPoint(ms[k])
    ensures Paired(Rebuilt(ms, last, |ms|))
  {
    hide *;
    var tail := RebuiltTail(ms, last, |ms|);
    TailOf(ms, last, tail);
    RebuiltBody(ms, last, last);
    if IsUser(ms[last]) {
      UserEnd(ms, last, tail);
    } else {
      AssistantEnd(ms, last, tail);
    }
  }

  lemma TailOf(ms: seq<Message>, last: int, tail: seq<Message>)
    requires 0 <= last < |ms|
    requires Rebuilt(ms, last, |ms|) == Rebuilt(ms, last, last + 1) + tail
    requires forall k :: 0 <= k < |tail| ==> !IsConversationPoint(tail[k])
    requires forall x :: ResultsIn(tail, x, 0, |tail|) == TailShare(ms, x, last, |ms|)
    ensures IsTail(ms, last, tail)
  {
  }

  lemma RebuiltWithoutPoint(ms: seq<Message>)
    requires forall k :: 0 <= k < |ms| ==> !IsConversationPoint(ms[k])
    ensures Paired(Rebuilt(ms, -1, |ms|))
  {
    hide *;
    if ms == [] {
      EmptyPaired();
      RebuiltEmpty(ms, -1);
    } else {
      var tail := RebuiltTail(ms, -1, |ms|);
      LastOfNone(tail);
      NoCallsAtAll(ms, -1, tail);
    }
  }

  /** However the history looks, no array of the rebuilt one holds any but the results of its calls. */
  lemma RebuiltPaired(ms: seq<Message>)
    ensures Paired(Rebuilt(ms, LastConversationIndex(ms), |ms|))
  {
    hide *;
    if LastConversationIndex(ms) < 0 {
      RebuiltWithoutPoint(ms);
    } else {
      RebuiltWithPoint(ms, LastConversationIndex(ms));
    }
  }

  lemma EmptyPaired()
    ensures Paired([])
  {
  }

  lemma NoCallsBefore(ms: seq<Message>, x: Id, last: int)
    requires ms != [] && last == -1
    ensures TailShare(ms, x, last, |ms|) == []
  {
    NoBlocks(x);
  }

  lemma OnlyTail(tail: seq<Message>)
    requires LastConversationIndex(tail) == -1
    requires forall x :: ResultsIn(tail, x, 0, |tail|) == []
    ensures Paired(tail)
  {
    hide ResultsIn, Matches, CallCount;
  }

  lemma NoCallsAtAll(ms: seq<Message>, last: int, tail: seq<Message>)
    requires ms != [] && last == -1 && LastConversationIndex(tail) == -1
    requires forall x :: ResultsIn(tail, x, 0, |tail|) == TailShare(ms, x, last, |ms|)
    requires Rebuilt(ms, last, |ms|) == Rebuilt(ms, last, 0) + tail
    ensures Paired(Rebuilt(ms, last, |ms|))
  {
    hide ResultsIn, Rebuilt, Paired, TailShare;
    RebuiltEmpty(ms, last);
    assert [] + tail == tail;
    forall x
      ensures ResultsIn(tail, x, 0, |tail|) == []
    {
      assert ResultsIn(tail, x, 0, |tail|) == TailShare(ms, x, last, |ms|);
      NoCallsBefore(ms, x, last);
    }
    OnlyTail(tail);
  }

  lemma RebuiltEmpty(ms: seq<Message>, last: int)
    requires last < |ms|
    ensures Rebuilt(ms, last, 0) == []
  {
  }

  ghost predicate IsTail(ms: seq<Message>, last: int, tail: seq<Message>)
    requires 0 <= last < |ms|
  {
    && Rebuilt(ms, last, |ms|) == Rebuilt(ms, last, last + 1) + tail
    && (forall k :: 0 <= k < |tail| ==> !IsConversationPoint(tail[k]))
    && (forall x :: ResultsIn(tail, x, 0, |tail|) == TailShare(ms, x, last, |ms|))
  }

  lemma LastSegment(ms: seq<Message>, last: int)
    requires 0 <= last < |ms| && !IsUser(ms[last])
    ensures Rebuilt(ms, last, last + 1) == Rebuilt(ms, last, last) + [ms[last]]
  {
    assert Segment(ms, last, last) == [ms[last]];
  }

  lemma AssistantEnd(ms: seq<Message>, last: int, tail: seq<Message>)
    requires 0 <= last < |ms| && IsTail(ms, last, tail)
    requires Built(ms, last, Rebuilt(ms, last, last)) && !IsUser(ms[last]) && IsConversationPoint(ms[last])
    ensures Paired(Rebuilt(ms, last, |ms|))
  {
    hide Matches, CallCount, ResultsIn, IsConversationPoint, Rebuilt, Built, Paired, Chain;
    var out := Rebuilt(ms, last, last);
    BuildKeep(ms, last, out);
    LastSegment(ms, last);
    forall x
      ensures |ResultsIn(tail, x, 0, |tail|)| <= CallCount(AssistantBlocks(ms[last]), x)
    {
      assert ResultsIn(tail, x, 0, |tail|) == TailShare(ms, x, last, |ms|);
    }
    ChainThenTail(out + [ms[last]], tail);
  }

  lemma UserEnd(ms: seq<Message>, last: int, tail: seq<Message>)
    requires 0 <= last < |ms| && IsTail(ms, last, tail)
    requires Built(ms, last, Rebuilt(ms, last, last)) && IsUser(ms[last]) && IsConversationPoint(ms[last])
    ensures Paired(Rebuilt(ms, last, |ms|))
  {
    hide CallCount, Results, Rebuilt, Paired, Chain, SegmentOk, LostAt, Prepend, ResultsIn, Segment, TailShare,
      IsConversationPoint;
    var out := Rebuilt(ms, last, last);
    var m := Segment(ms, last, last)[0] by { UserEndSegment(ms, last); }
    UserEndSegment(ms, last);
    assert Segment(ms, last, last) == [m];
    BuildUser(ms, last, last, out);
    UserSegmentOk(ms, last, last);
    RebuiltStep(ms, last, last);
    forall x
      ensures ResultsIn(tail, x, 0, |tail|) == []
    {
      PlainTail(ms, last, x);
      assert ResultsIn(tail, x, 0, |tail|) == TailShare(ms, x, last, |ms|);
    }
    if IsConversationPoint(m) {
      ChainThenTail(out + [m], tail);
    } else {
      BlankEnd(ms, last, out, m, tail);
    }
  }

  lemma RebuiltStep(ms: seq<Message>, last: int, i: nat)
    requires i < |ms| && last < |ms|
    ensures Rebuilt(ms, last, i + 1) == Rebuilt(ms, last, i) + Segment(ms, last, i)
  {
  }

  /** Only a blank string that receives results can stop being a conversation point. */
  lemma UserEndSegment(ms: seq<Message>, last: int)
    requires 0 <= last < |ms| && IsUser(ms[last]) && IsConversationPoint(ms[last])
    ensures var seg := Segment(ms, last, last);
            && |seg| == 1 && IsUser(seg[0])
            && (IsConversationPoint(seg[0]) || (Prepend(ms, last, last) != [] && !LostAt(ms, last)))
  {
    hide Prepend, Kept, Spliced, SegmentOk;
    match ms[last].content
    case Blocks(bs) =>
      var b :| 0 <= b < |bs| && !IsToolResult(bs[b]);
      assert !IsToolResult(UserBlocks(ms[last])[b]);
      ArraySegmentOk(ms, last, last);
    case Str(_) => {}
    case OtherContent(_) => {}
  }

  lemma BlankEnd(ms: seq<Message>, last: int, out: seq<Message>, m: Message, tail: seq<Message>)
    requires 0 <= last < |ms| && IsUser(ms[last]) && Chain(out) && out == Rebuilt(ms, last, last)
    requires !IsConversationPoint(m) && Prepend(ms, last, last) != [] && !LostAt(ms, last) && SegmentOk(ms, last, [m])
    requires forall k :: 0 <= k < |tail| ==> !IsConversationPoint(tail[k])
    requires forall x :: ResultsIn(tail, x, 0, |tail|) == []
    ensures Paired(out + [m] + tail)
  {
    hide *;
    BeforeBlank(ms, last);
    var after := [m] + tail;
    forall k | 0 <= k < |after|
      ensures !IsConversationPoint(after[k])
    {
    }
    forall x
      ensures |ResultsIn(after, x, 0, |after|)| <= CallCount(AssistantBlocks(out[|out| - 1]), x)
    {
      BlankCount(ms, last, m, tail, x);
    }
    assert out + [m] + tail == out + after;
    ChainThenTail(out, after);
  }

  lemma BlankCount(ms: seq<Message>, last: int, m: Message, tail: seq<Message>, x: Id)
    requires 0 < last < |ms| && IsUser(ms[last]) && !LostAt(ms, last) && SegmentOk(ms, last, [m])
    requires ResultsIn(tail, x, 0, |tail|) == []
    ensures |ResultsIn([m] + tail, x, 0, |[m] + tail|)| <= CallCount(AssistantBlocks(ms[last - 1]), x)
  {
    hide CallCount, Results, ResultsIn, Due;
    ResultsInConcat([m], tail, x);
    DueCount(ms, x, last);
    assert ResultsIn([m], x, 0, |[m]|) == Due(ms, x, last);
  }

  lemma BeforeBlank(ms: seq<Message>, last: int)
    requires 0 <= last < |ms| && IsUser(ms[last]) && Prepend(ms, last, last) != []
    ensures last > 0 && IsAssistantBlocks(ms[last - 1])
    ensures Rebuilt(ms, last, last) != []
    ensures var out := Rebuilt(ms, last, last);
            out[|out| - 1] == ms[last - 1] && IsConversationPoint(out[|out| - 1])
  {
    hide InsertAt;
    RebuiltStep(ms, last, last - 1);
    assert Segment(ms, last, last - 1) == [ms[last - 1]];
  }
}
