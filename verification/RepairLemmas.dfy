/** Repaired histories are well formed, and repair does nothing exactly on well-formed ones. */
module RepairLemmas {
  import opened Common
  import opened Messages
  import opened Repair

  // What one exchange contributes

  lemma {:induction false} ResultsInAreResults(ms: seq<Message>, x: Id, lo: nat, hi: nat)
    requires hi <= |ms|
    ensures forall r :: 0 <= r < |ResultsIn(ms, x, lo, hi)| ==> IsResultOf(ResultsIn(ms, x, lo, hi)[r], x)
    decreases hi
  {
    if lo < hi {
      ResultsInAreResults(ms, x, lo, hi - 1);
      ResultIds(UserBlocks(ms[hi - 1]), x);
    }
  }

  lemma PayloadIsResult(ms: seq<Message>, x: Id, i: nat, r: nat)
    requires i < |ms| && |x| > 0
    ensures IsResultOf(Payload(ms, x, i, r), x)
  {
    ResultsInAreResults(ms, x, i + 1, NextExchange(ms, x, i));
  }

  /** What the calls of `x` in message `i` with ranks a, ..., b-1 are answered with. */
  function Answered(ms: seq<Message>, x: Id, i: nat, a: nat, b: nat): (s: seq<Block>)
    requires i < |ms|
    ensures |s| == if b <= a then 0 else b - a
    ensures forall r :: 0 <= r < |s| ==> s[r] == Payload(ms, x, i, a + r)
  {
    if b <= a then [] else Answered(ms, x, i, a, b - 1) + [Payload(ms, x, i, b - 1)]
  }

  function InPlaceCount(ms: seq<Message>, x: Id, i: nat): nat
    requires i + 1 < |ms|
  {
    |Results(LeadingRun(UserBlocks(ms[i + 1])), x)|
  }

  lemma ResultsOfOne(b: Block, x: Id)
    ensures Results([b], x) == if IsResultOf(b, x) then [b] else []
  {
    assert [b][..0] == [];
  }

  lemma InsertAtResults(ms: seq<Message>, i: nat, k: nat, x: Id)
    requires i + 1 < |ms| && k < |AssistantBlocks(ms[i])|
    ensures var bs := AssistantBlocks(ms[i]);
            var r := CallCount(bs[..k], x);
            Results(InsertAt(ms, i, k), x)
            == if IsCallOf(bs[k], x) && InPlaceCount(ms, x, i) <= r then [Payload(ms, x, i, r)] else []
    ensures forall b :: 0 <= b < |InsertAt(ms, i, k)| ==> IsToolResult(InsertAt(ms, i, k)[b])
  {
    hide Payload, CallCount, Results, AssistantBlocks, LeadingRun, UserBlocks;
    NoBlocks(x);
    var c := AssistantBlocks(ms[i])[k];
    if IsToolUse(c) {
      var r := CallCount(AssistantBlocks(ms[i])[..k], c.id);
      PayloadIsResult(ms, c.id, i, r);
      ResultsOfOne(Payload(ms, c.id, i, r), x);
    }
  }

  lemma {:induction false} InsertsUpToResults(ms: seq<Message>, i: nat, k: nat, x: Id)
    requires i + 1 < |ms| && k <= |AssistantBlocks(ms[i])|
    ensures Results(InsertsUpTo(ms, i, k), x)
         == Answered(ms, x, i, InPlaceCount(ms, x, i), CallCount(AssistantBlocks(ms[i])[..k], x))
    ensures forall b :: 0 <= b < |InsertsUpTo(ms, i, k)| ==> IsToolResult(InsertsUpTo(ms, i, k)[b])
    decreases k
  {
    hide Results, CallCount, Payload, InsertAt, InPlaceCount;
    if k > 0 {
      InsertsUpToResults(ms, i, k - 1, x);
      InsertAtResults(ms, i, k - 1, x);
      CallCountStep(AssistantBlocks(ms[i]), k - 1, x);
      ResultsConcat(InsertsUpTo(ms, i, k - 1), InsertAt(ms, i, k - 1), x);
    } else {
      NoBlocks(x);
      assert AssistantBlocks(ms[i])[..0] == [];
    }
  }

  lemma InsertsResults(ms: seq<Message>, last: int, i: nat, x: Id)
    requires i < last < |ms|
    ensures Results(Inserts(ms, last, i), x)
         == Answered(ms, x, i, InPlaceCount(ms, x, i), CallCount(AssistantBlocks(ms[i]), x))
    ensures forall b :: 0 <= b < |Inserts(ms, last, i)| ==> IsToolResult(Inserts(ms, last, i)[b])
  {
    var bs := AssistantBlocks(ms[i]);
    assert bs[..|bs|] == bs;
    InsertsUpToResults(ms, i, |bs|, x);
  }

  /** Nothing is inserted for a message exactly when all its calls have their results in place. */
  lemma InsertsEmpty(ms: seq<Message>, last: int, i: nat)
    requires i < last < |ms|
    ensures Inserts(ms, last, i) == [] <==>
            forall x :: CallCount(AssistantBlocks(ms[i]), x) <= InPlaceCount(ms, x, i)
  {
    var ins := Inserts(ms, last, i);
    forall x
      ensures |Results(ins, x)| == 0 <==> CallCount(AssistantBlocks(ms[i]), x) <= InPlaceCount(ms, x, i)
    {
      InsertsResults(ms, last, i, x);
    }
    InsertsResults(ms, last, i, "");
    if ins != [] {
      ResultsPrefix(ins, 0, ins[0].id);
    }
  }

  // What stays of a user message

  /** What is kept of block `k` of the leading run. */
  lemma KeptAtLeading(ms: seq<Message>, last: int, j: nat, k: nat, x: Id)
    requires 0 <= j <= last < |ms| && k < Leading(UserBlocks(ms[j]))
    ensures var b := UserBlocks(ms[j])[k];
            var before := |Results(UserBlocks(ms[j])[..k], x)|;
            Results(KeptAt(ms, last, j, k), x)
            == if IsResultOf(b, x) && before < CallCount(CallsBefore(ms, j), x) then [b] else []
    ensures forall b :: 0 <= b < |KeptAt(ms, last, j, k)| ==> IsToolResult(KeptAt(ms, last, j, k)[b])
  {
    hide Results, CallCount, Leading;
    NoBlocks(x);
    ResultsOfOne(UserBlocks(ms[j])[k], x);
  }

  lemma {:induction false} KeptLeading(ms: seq<Message>, last: int, j: nat, k: nat, x: Id)
    requires 0 <= j <= last < |ms| && k <= Leading(UserBlocks(ms[j]))
    ensures Results(KeptUpTo(ms, last, j, k), x)
         == var rs := Results(UserBlocks(ms[j])[..k], x);
            rs[..Min(|rs|, CallCount(CallsBefore(ms, j), x))]
    ensures forall b :: 0 <= b < |KeptUpTo(ms, last, j, k)| ==> IsToolResult(KeptUpTo(ms, last, j, k)[b])
    decreases k
  {
    hide Results, CallCount, Leading, KeptAt, UserBlocks, CallsBefore;
    var bs := UserBlocks(ms[j]);
    NoBlocks(x);
    if k == 0 {
      assert bs[..0] == [];
    } else {
      KeptLeading(ms, last, j, k - 1, x);
      ResultsStep(bs, k - 1, x);
      ResultsConcat(KeptUpTo(ms, last, j, k - 1), KeptAt(ms, last, j, k - 1), x);
      KeptAtLeading(ms, last, j, k - 1, x);
    }
  }

  function NonResults(bs: seq<Block>): seq<Block> {
    if bs == [] then []
    else NonResults(bs[..|bs| - 1]) + if IsToolResult(bs[|bs| - 1]) then [] else [bs[|bs| - 1]]
  }

  lemma {:induction false} NonResultsHold(bs: seq<Block>)
    ensures forall b :: 0 <= b < |NonResults(bs)| ==> !IsToolResult(NonResults(bs)[b])
    ensures (exists b :: 0 <= b < |bs| && !IsToolResult(bs[b])) <==> NonResults(bs) != []
  {
    if bs != [] {
      var n := |bs| - 1;
      NonResultsHold(bs[..n]);
      if b :| 0 <= b < |bs| && !IsToolResult(bs[b]) && b != n {
        assert !IsToolResult(bs[..n][b]);
      }
    }
  }

  lemma NonResultsOfNone()
    ensures NonResults([]) == []
  {
  }

  lemma NonResultsStep(bs: seq<Block>, n: nat, k: nat)
    requires n < k <= |bs|
    ensures NonResults(bs[n..k]) == NonResults(bs[n..k - 1]) + if IsToolResult(bs[k - 1]) then [] else [bs[k - 1]]
  {
    assert bs[n..k][..k - 1 - n] == bs[n..k - 1];
  }

  lemma KeptAtLate(ms: seq<Message>, last: int, j: nat, k: nat)
    requires 0 <= j <= last < |ms| && Leading(UserBlocks(ms[j])) <= k < |UserBlocks(ms[j])|
    ensures KeptAt(ms, last, j, k)
         == if IsToolResult(UserBlocks(ms[j])[k]) then [] else [UserBlocks(ms[j])[k]]
  {
  }

  /** Past the leading run, only what is not a result is kept. */
  lemma {:induction false} KeptSplit(ms: seq<Message>, last: int, j: nat, k: nat)
    requires 0 <= j <= last < |ms|
    requires Leading(UserBlocks(ms[j])) <= k <= |UserBlocks(ms[j])|
    ensures KeptUpTo(ms, last, j, k)
         == KeptUpTo(ms, last, j, Leading(UserBlocks(ms[j])))
          + NonResults(UserBlocks(ms[j])[Leading(UserBlocks(ms[j]))..k])
    decreases k
  {
    hide Leading, NonResults, KeptAt;
    var bs := UserBlocks(ms[j]);
    var n := Leading(bs);
    if k == n {
      NonResultsOfNone();
      assert bs[n..k] == [];
    } else {
      KeptSplit(ms, last, j, k - 1);
      NonResultsStep(bs, n, k);
      KeptAtLate(ms, last, j, k - 1);
    }
  }

  lemma LeadingOf(a: seq<Block>, b: seq<Block>)
    requires forall k :: 0 <= k < |a| ==> IsToolResult(a[k])
    requires b == [] || !IsToolResult(b[0])
    ensures Leading(a + b) == |a|
  {
    assert forall k :: 0 <= k < |a| ==> IsToolResult((a + b)[k]);
    assert b != [] ==> (a + b)[|a|] == b[0];
  }

  /**
   The array of a user message up to the last conversation point becomes: the results that
   stay, the inserted ones, then everything that is not a result.
   */
  lemma SplicedBody(ms: seq<Message>, last: int, j: nat)
    requires 0 <= j <= last < |ms| && IsUserBlocks(ms[j])
    ensures var bs := UserBlocks(ms[j]);
            var run := KeptUpTo(ms, last, j, Leading(bs)) + Prepend(ms, last, j);
            var rest := NonResults(bs[Leading(bs)..]);
            && Spliced(Kept(ms, last, j), Prepend(ms, last, j)) == run + rest
            && Leading(run + rest) == |run|
            && (forall b :: 0 <= b < |rest| ==> !IsToolResult(rest[b]))
            && (rest != [] <==> exists b :: 0 <= b < |bs| && !IsToolResult(bs[b]))
  {
    hide Leading, NonResults, KeptUpTo, Results, CallCount, Inserts;
    var bs := UserBlocks(ms[j]);
    var n := Leading(bs);
    var stay := KeptUpTo(ms, last, j, n);
    var pre := Prepend(ms, last, j);
    var rest := NonResults(bs[n..]);
    KeptSplit(ms, last, j, |bs|);
    assert bs[n..|bs|] == bs[n..];
    KeptLeading(ms, last, j, n, "");
    NonResultsHold(bs[n..]);
    assert forall b :: n <= b < |bs| ==> bs[b] == bs[n..][b - n];
    LeadingOf(stay, rest);
    assert (stay + rest)[..|stay|] == stay && (stay + rest)[|stay|..] == rest;
    if j > 0 {
      InsertsResults(ms, last, j - 1, "");
    }
    LeadingOf(stay + pre, rest);
  }

  /** The answers to the calls of `x` in message `i`, in call order. */
  function Share(ms: seq<Message>, x: Id, i: nat): seq<Block>
    requires i < |ms|
  {
    Answered(ms, x, i, 0, CallCount(AssistantBlocks(ms[i]), x))
  }

  lemma OwnedStartsNext(ms: seq<Message>, x: Id, i: nat)
    requires i + 1 < |ms|
    ensures Results(UserBlocks(ms[i + 1]), x) <= Owned(ms, x, i)
  {
    hide Results, CallCount;
    NoBlocks(x);
    var n := NextExchange(ms, x, i);
    if n == i + 1 {
      assert UserBlocks(ms[i + 1]) == [];
    } else {
      ResultsInSplit(ms, x, i + 1, i + 2, n);
      assert ResultsIn(ms, x, i + 1, i + 1) == [];
    }
  }

  /** Results in place are answers by rank, so with the inserted ones they make up the share. */
  lemma ShareSplit(ms: seq<Message>, x: Id, i: nat)
    requires i + 1 < |ms|
    ensures var rs := Results(LeadingRun(UserBlocks(ms[i + 1])), x);
            var n := CallCount(AssistantBlocks(ms[i]), x);
            rs[..Min(|rs|, n)] + Answered(ms, x, i, |rs|, n) == Share(ms, x, i)
  {
    hide Results, CallCount, Owned, Leading, Answered;
    var bs := UserBlocks(ms[i + 1]);
    OwnedStartsNext(ms, x, i);
    ResultsPrefix(bs, Leading(bs), x);
    var rs := Results(LeadingRun(bs), x);
    var n := CallCount(AssistantBlocks(ms[i]), x);
    var got := rs[..Min(|rs|, n)] + Answered(ms, x, i, |rs|, n);
    forall r | 0 <= r < |got|
      ensures got[r] == Share(ms, x, i)[r]
    {
    }
  }

  /** Together, the results that stay and the inserted ones are the share of the exchange before. */
  lemma SpliceDelivers(ms: seq<Message>, last: int, j: nat, x: Id)
    requires 0 < j <= last < |ms| && IsUserBlocks(ms[j])
    ensures var bs := UserBlocks(ms[j]);
            Results(KeptUpTo(ms, last, j, Leading(bs)) + Prepend(ms, last, j), x) == Share(ms, x, j - 1)
  {
    hide Results, CallCount, Leading, Answered, KeptUpTo, Inserts, Share;
    var bs := UserBlocks(ms[j]);
    KeptLeading(ms, last, j, Leading(bs), x);
    InsertsResults(ms, last, j - 1, x);
    ResultsConcat(KeptUpTo(ms, last, j, Leading(bs)), Prepend(ms, last, j), x);
    ShareSplit(ms, x, j - 1);
  }

  /** Where no array follows, everything is inserted. */
  lemma InsertsAreShare(ms: seq<Message>, last: int, i: nat, x: Id)
    requires i < last < |ms| && !IsUserBlocks(ms[i + 1])
    ensures Results(Inserts(ms, last, i), x) == Share(ms, x, i)
    ensures LeadingRun(Inserts(ms, last, i)) == Inserts(ms, last, i)
  {
    InsertsResults(ms, last, i, x);
    LeadingOf(Inserts(ms, last, i), []);
    assert Inserts(ms, last, i) + [] == Inserts(ms, last, i);
    NoBlocks(x);
    assert LeadingRun(UserBlocks(ms[i + 1])) == [];
  }
}
