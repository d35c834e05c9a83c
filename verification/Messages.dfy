/**
 Chat histories in the Anthropic Messages wire format, and what it means for the tool
 exchanges of a history to be well formed.
 */
module Messages {

  type Id = string

  /** A content block. The string that goes with a block stands for all its other fields. */
  datatype Block =
    | ToolUse(id: Id, input: string)
    | ToolResult(id: Id, output: string)
    | Text(text: string)
    | OtherBlock(data: string)

  datatype Role = User | Assistant | OtherRole(name: string)

  datatype Content =
    | Str(text: string)
    | Blocks(blocks: seq<Block>)
    | OtherContent(data: string)

  /** A message; `extra` stands for the fields other than role and content. */
  datatype Message =
    | Msg(role: Role, content: Content, extra: string)
    | NotObject(data: string)

  predicate IsToolUse(b: Block) {
    b.ToolUse? && |b.id| > 0
  }

  predicate IsToolResult(b: Block) {
    b.ToolResult? && |b.id| > 0
  }

  predicate IsCallOf(b: Block, x: Id) {
    IsToolUse(b) && b.id == x
  }

  predicate IsResultOf(b: Block, x: Id) {
    IsToolResult(b) && b.id == x
  }

  predicate IsUser(m: Message) {
    m.Msg? && m.role == User
  }

  predicate IsUserBlocks(m: Message) {
    IsUser(m) && m.content.Blocks?
  }

  predicate IsAssistantBlocks(m: Message) {
    m.Msg? && m.role == Assistant && m.content.Blocks?
  }

  /** The blocks that can hold tool results; none unless this is a user message with an array. */
  function UserBlocks(m: Message): seq<Block> {
    if IsUserBlocks(m) then m.content.blocks else []
  }

  /** The blocks that can hold tool calls; none unless this is an assistant message with an array. */
  function AssistantBlocks(m: Message): seq<Block> {
    if IsAssistantBlocks(m) then m.content.blocks else []
  }

  function CallCount(bs: seq<Block>, x: Id): nat {
    if bs == [] then 0
    else CallCount(bs[..|bs| - 1], x) + if IsCallOf(bs[|bs| - 1], x) then 1 else 0
  }

  /** The results for `x` among `bs`, in order. */
  function Results(bs: seq<Block>, x: Id): seq<Block> {
    if bs == [] then []
    else Results(bs[..|bs| - 1], x) + if IsResultOf(bs[|bs| - 1], x) then [bs[|bs| - 1]] else []
  }

  /** The results for `x` in messages lo, ..., hi-1, in order. */
  function ResultsIn(ms: seq<Message>, x: Id, lo: nat, hi: nat): seq<Block>
    requires hi <= |ms|
    decreases hi
  {
    if hi <= lo then []
    else ResultsIn(ms, x, lo, hi - 1) + Results(UserBlocks(ms[hi - 1]), x)
  }

  /** How many tool results a content array starts with. */
  function Leading(bs: seq<Block>): (k: nat)
    ensures k <= |bs|
    ensures forall b :: 0 <= b < k ==> IsToolResult(bs[b])
    ensures k < |bs| ==> !IsToolResult(bs[k])
  {
    if bs == [] || !IsToolResult(bs[0]) then 0 else 1 + Leading(bs[1..])
  }

  function LeadingRun(bs: seq<Block>): seq<Block> {
    bs[..Leading(bs)]
  }

  /** A message that moves the conversation forward, i.e. anything but an array of pure results. */
  predicate IsConversationPoint(m: Message) {
    || m.NotObject?
    || m.role == Assistant
    || !m.content.Blocks?
    || (m.role == User && exists b :: 0 <= b < |m.content.blocks| && !IsToolResult(m.content.blocks[b]))
  }

  function LastConversationIndex(ms: seq<Message>): (i: int)
    ensures -1 <= i < |ms|
    ensures i >= 0 ==> IsConversationPoint(ms[i])
    ensures forall k :: i < k < |ms| ==> !IsConversationPoint(ms[k])
  {
    if ms == [] then -1
    else if IsConversationPoint(ms[|ms| - 1]) then |ms| - 1
    else LastConversationIndex(ms[..|ms| - 1])
  }

  predicate HasCall(bs: seq<Block>) {
    exists b :: 0 <= b < |bs| && IsToolUse(bs[b])
  }

  /** If `m` is a user message with an array, it holds one result per call in `calls`, all in its leading run. */
  ghost predicate Matches(calls: seq<Block>, m: Message) {
    IsUserBlocks(m) ==>
      forall x :: |Results(LeadingRun(UserBlocks(m)), x)| == |Results(UserBlocks(m), x)| == CallCount(calls, x)
  }

  /** `m` answers the calls in `calls`: if there are any, it is a user message with an array. */
  ghost predicate Answers(calls: seq<Block>, m: Message) {
    (HasCall(calls) ==> IsUserBlocks(m)) && Matches(calls, m)
  }

  /** The calls that message `j` has to answer. */
  function CallsBefore(ms: seq<Message>, j: int): seq<Block>
    requires j <= |ms|
  {
    if j <= 0 then [] else AssistantBlocks(ms[j - 1])
  }

  /**
   Every exchange up to the last conversation point is complete and adjacent; the results
   after that point match calls of the message at that point one to one.
   */
  ghost predicate WellFormed(ms: seq<Message>) {
    && (forall j :: 0 <= j <= LastConversationIndex(ms) ==> Answers(CallsBefore(ms, j), ms[j]))
    && TailMatches(ms, LastConversationIndex(ms) + 1)
  }

  /** The same, except that the calls of some exchanges may go without any answer. */
  ghost predicate Paired(ms: seq<Message>) {
    && (forall j :: 0 <= j <= LastConversationIndex(ms) ==> Matches(CallsBefore(ms, j), ms[j]))
    && TailMatches(ms, LastConversationIndex(ms) + 1)
  }

  /** The calls before message `j` go without an answer. */
  predicate Unanswered(ms: seq<Message>, j: nat)
    requires j < |ms|
  {
    HasCall(CallsBefore(ms, j)) && !IsUserBlocks(ms[j])
  }

  lemma WellFormedIff(ms: seq<Message>)
    ensures WellFormed(ms) <==> Paired(ms) && forall j: nat :: j <= LastConversationIndex(ms) ==> !Unanswered(ms, j)
  {
    hide Matches, HasCall, TailMatches, CallsBefore;
    if Paired(ms) && forall j: nat :: j <= LastConversationIndex(ms) ==> !Unanswered(ms, j) {
      forall j: nat | j <= LastConversationIndex(ms)
        ensures Answers(CallsBefore(ms, j), ms[j])
      {
        assert !Unanswered(ms, j);
      }
    }
    if WellFormed(ms) {
      forall j: nat | j <= LastConversationIndex(ms)
        ensures Matches(CallsBefore(ms, j), ms[j]) && !Unanswered(ms, j)
      {
        assert Answers(CallsBefore(ms, j), ms[j]);
      }
    }
  }

  /** The results from message `n` on match calls of the message before it one to one. */
  ghost predicate TailMatches(ms: seq<Message>, n: nat)
    requires n <= |ms|
  {
    forall x :: |ResultsIn(ms, x, n, |ms|)| <= CallCount(CallsBefore(ms, n), x)
  }

  // Counting lemmas

  lemma NoBlocks(x: Id)
    ensures Results([], x) == [] && CallCount([], x) == 0
  {
  }

  lemma {:induction false} CallCountConcat(a: seq<Block>, b: seq<Block>, x: Id)
    ensures CallCount(a + b, x) == CallCount(a, x) + CallCount(b, x)
  {
    if b == [] {
      assert a + b == a;
    } else {
      assert (a + b)[..|a + b| - 1] == a + b[..|b| - 1];
      CallCountConcat(a, b[..|b| - 1], x);
    }
  }

  lemma {:induction false} ResultsConcat(a: seq<Block>, b: seq<Block>, x: Id)
    ensures Results(a + b, x) == Results(a, x) + Results(b, x)
  {
    if b == [] {
      assert a + b == a;
    } else {
      assert (a + b)[..|a + b| - 1] == a + b[..|b| - 1];
      ResultsConcat(a, b[..|b| - 1], x);
    }
  }

  lemma ResultsStep(bs: seq<Block>, k: nat, x: Id)
    requires k < |bs|
    ensures Results(bs[..k + 1], x) == Results(bs[..k], x) + if IsResultOf(bs[k], x) then [bs[k]] else []
  {
    assert bs[..k + 1][..k] == bs[..k];
  }

  lemma CallCountStep(bs: seq<Block>, k: nat, x: Id)
    requires k < |bs|
    ensures CallCount(bs[..k + 1], x) == CallCount(bs[..k], x) + if IsCallOf(bs[k], x) then 1 else 0
  {
    assert bs[..k + 1][..k] == bs[..k];
  }

  lemma ResultsPrefix(bs: seq<Block>, k: nat, x: Id)
    requires k <= |bs|
    ensures |Results(bs[..k], x)| <= |Results(bs, x)|
    ensures Results(bs[..k], x) == Results(bs, x)[..|Results(bs[..k], x)|]
    ensures k < |bs| && IsResultOf(bs[k], x) ==>
              |Results(bs[..k], x)| < |Results(bs, x)| && Results(bs, x)[|Results(bs[..k], x)|] == bs[k]
  {
    assert bs == bs[..k] + bs[k..];
    ResultsConcat(bs[..k], bs[k..], x);
    if k < |bs| && IsResultOf(bs[k], x) {
      assert bs == bs[..k + 1] + bs[k + 1..];
      ResultsConcat(bs[..k + 1], bs[k + 1..], x);
      ResultsStep(bs, k, x);
    }
  }

  lemma CallCountPrefix(bs: seq<Block>, k: nat, x: Id)
    requires k <= |bs|
    ensures CallCount(bs[..k], x) <= CallCount(bs, x)
    ensures k < |bs| && IsCallOf(bs[k], x) ==> CallCount(bs[..k], x) < CallCount(bs, x)
  {
    assert bs == bs[..k] + bs[k..];
    CallCountConcat(bs[..k], bs[k..], x);
    if k < |bs| && IsCallOf(bs[k], x) {
      assert bs == bs[..k + 1] + bs[k + 1..];
      CallCountConcat(bs[..k + 1], bs[k + 1..], x);
      CallCountStep(bs, k, x);
    }
  }

  /** Where the r-th result for `x` sits. */
  lemma {:induction false} NthResult(bs: seq<Block>, x: Id, r: nat) returns (b: nat)
    requires r < |Results(bs, x)|
    ensures b < |bs| && IsResultOf(bs[b], x)
    ensures |Results(bs[..b], x)| == r && Results(bs, x)[r] == bs[b]
  {
    var n := |bs| - 1;
    if r < |Results(bs[..n], x)| {
      b := NthResult(bs[..n], x, r);
      assert bs[..n][..b] == bs[..b];
    } else {
      b := n;
    }
  }

  /** Where the r-th call of `x` sits. */
  lemma {:induction false} NthCall(bs: seq<Block>, x: Id, r: nat) returns (b: nat)
    requires r < CallCount(bs, x)
    ensures b < |bs| && IsCallOf(bs[b], x)
    ensures CallCount(bs[..b], x) == r
  {
    var n := |bs| - 1;
    if r < CallCount(bs[..n], x) {
      b := NthCall(bs[..n], x, r);
      assert bs[..n][..b] == bs[..b];
    } else {
      b := n;
    }
  }

  lemma NoResults(bs: seq<Block>, x: Id)
    requires forall b :: 0 <= b < |bs| ==> !IsToolResult(bs[b])
    ensures Results(bs, x) == []
  {
    if Results(bs, x) != [] {
      var b := NthResult(bs, x, 0);
    }
  }

  lemma NoCalls(bs: seq<Block>, x: Id)
    requires !HasCall(bs)
    ensures CallCount(bs, x) == 0
  {
    if CallCount(bs, x) != 0 {
      var b := NthCall(bs, x, 0);
    }
  }

  lemma SomeCall(bs: seq<Block>, b: nat)
    requires b < |bs| && IsToolUse(bs[b])
    ensures HasCall(bs) && CallCount(bs, bs[b].id) > 0
  {
    CallCountPrefix(bs, b, bs[b].id);
  }

  lemma ResultIds(bs: seq<Block>, x: Id)
    ensures forall r :: 0 <= r < |Results(bs, x)| ==> IsResultOf(Results(bs, x)[r], x)
  {
    forall r | 0 <= r < |Results(bs, x)|
      ensures IsResultOf(Results(bs, x)[r], x)
    {
      var b := NthResult(bs, x, r);
    }
  }

  lemma {:induction false} ResultsInSplit(ms: seq<Message>, x: Id, lo: nat, mid: nat, hi: nat)
    requires lo <= mid <= hi <= |ms|
    ensures ResultsIn(ms, x, lo, hi) == ResultsIn(ms, x, lo, mid) + ResultsIn(ms, x, mid, hi)
    decreases hi
  {
    if mid < hi {
      ResultsInSplit(ms, x, lo, mid, hi - 1);
    }
  }

  lemma {:induction false} ResultsInEmpty(ms: seq<Message>, x: Id, lo: nat, hi: nat)
    requires hi <= |ms|
    requires forall j :: lo <= j < hi ==> Results(UserBlocks(ms[j]), x) == []
    ensures ResultsIn(ms, x, lo, hi) == []
  {
    if lo < hi {
      ResultsInEmpty(ms, x, lo, hi - 1);
    }
  }

  lemma {:induction false} ResultsInConcat(a: seq<Message>, b: seq<Message>, x: Id)
    ensures ResultsIn(a + b, x, 0, |a + b|) == ResultsIn(a, x, 0, |a|) + ResultsIn(b, x, 0, |b|)
  {
    ResultsInSplit(a + b, x, 0, |a|, |a + b|);
    ResultsInSame(a + b, a, x, 0, |a|, 0);
    ResultsInSame(a + b, b, x, |a|, |a + b|, -|a|);
  }

  /** A run of messages holds the same results wherever it sits. */
  lemma {:induction false} ResultsInSame(ms: seq<Message>, ns: seq<Message>, x: Id, lo: nat, hi: nat, shift: int)
    requires lo <= hi <= |ms| && 0 <= lo + shift && hi + shift <= |ns|
    requires forall j :: lo <= j < hi ==> ms[j] == ns[j + shift]
    ensures ResultsIn(ms, x, lo, hi) == ResultsIn(ns, x, lo + shift, hi + shift)
    decreases hi
  {
    if lo < hi {
      ResultsInSame(ms, ns, x, lo, hi - 1, shift);
      assert ms[hi - 1] == ns[hi - 1 + shift];
    }
  }
}
