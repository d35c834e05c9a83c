/**
 What repairing the tool exchanges of a history produces, stated without the passes that
 compute it: the r-th call of an id in an assistant message owns the r-th result for that id
 among the messages up to the next assistant message that calls the same id.
 */
module Repair {
  import opened Common
  import opened Messages

  const SYNTHETIC_TOOL_RESULT_TEXT :=
    "Tool result is not available in the current context. Do not assume the tool completed successfully."

  /** The first message after `i` that is an assistant message calling `x`; |ms| if there is none. */
  function NextExchange(ms: seq<Message>, x: Id, i: nat): (n: nat)
    requires i < |ms|
    ensures i < n <= |ms|
    ensures n < |ms| ==> CallCount(AssistantBlocks(ms[n]), x) > 0
    ensures forall k :: i < k < n ==> CallCount(AssistantBlocks(ms[k]), x) == 0
    decreases |ms| - i
  {
    if i + 1 == |ms| || CallCount(AssistantBlocks(ms[i + 1]), x) > 0 then i + 1
    else NextExchange(ms, x, i + 1)
  }

  /** The results for `x` that can only belong to the calls in message `i`. */
  function Owned(ms: seq<Message>, x: Id, i: nat): seq<Block>
    requires i < |ms|
  {
    ResultsIn(ms, x, i + 1, NextExchange(ms, x, i))
  }

  /** What the r-th call of `x` in message `i` is answered with. */
  function Payload(ms: seq<Message>, x: Id, i: nat, r: nat): Block
    requires i < |ms|
  {
    if r < |Owned(ms, x, i)| then Owned(ms, x, i)[r] else ToolResult(x, SYNTHETIC_TOOL_RESULT_TEXT)
  }

  /** The r-th result for `x` already sits where the r-th call of `x` in message `i` needs it. */
  predicate InPlace(ms: seq<Message>, x: Id, i: nat, r: nat)
    requires i + 1 < |ms|
  {
    r < |Results(LeadingRun(UserBlocks(ms[i + 1])), x)|
  }

  /** What has to be inserted after message `i` for its block `k`. */
  function InsertAt(ms: seq<Message>, i: nat, k: nat): seq<Block>
    requires i + 1 < |ms| && k < |AssistantBlocks(ms[i])|
  {
    var bs := AssistantBlocks(ms[i]);
    if !IsToolUse(bs[k]) || InPlace(ms, bs[k].id, i, CallCount(bs[..k], bs[k].id)) then []
    else [Payload(ms, bs[k].id, i, CallCount(bs[..k], bs[k].id))]
  }

  /** The results to insert after message `i` for its first `k` blocks. */
  function InsertsUpTo(ms: seq<Message>, i: nat, k: nat): seq<Block>
    requires i + 1 < |ms| && k <= |AssistantBlocks(ms[i])|
  {
    if k == 0 then [] else InsertsUpTo(ms, i, k - 1) + InsertAt(ms, i, k - 1)
  }

  function Inserts(ms: seq<Message>, last: int, i: nat): seq<Block>
    requires i < |ms| && last < |ms|
  {
    if i < last then InsertsUpTo(ms, i, |AssistantBlocks(ms[i])|) else []
  }

  /** What joins message `j` from the exchange before it. */
  function Prepend(ms: seq<Message>, last: int, j: nat): seq<Block>
    requires j < |ms| && last < |ms|
  {
    if j == 0 then [] else Inserts(ms, last, j - 1)
  }

  /** Whether the result at block `b` of user message `j` stays where it is. */
  predicate Stays(ms: seq<Message>, last: int, j: nat, b: nat)
    requires j < |ms| && last < |ms| && b < |UserBlocks(ms[j])|
    requires IsToolResult(UserBlocks(ms[j])[b])
  {
    var bs := UserBlocks(ms[j]);
    var x := bs[b].id;
    if j <= last then
      b < Leading(bs) && |Results(bs[..b], x)| < CallCount(CallsBefore(ms, j), x)
    else
      var n: nat := if last < 0 then 0 else last + 1;
      |ResultsIn(ms, x, n, j)| + |Results(bs[..b], x)| < CallCount(CallsBefore(ms, n), x)
  }

  /** Block `k` of user message `j`, unless it is a result that does not stay. */
  function KeptAt(ms: seq<Message>, last: int, j: nat, k: nat): seq<Block>
    requires j < |ms| && last < |ms| && k < |UserBlocks(ms[j])|
  {
    var b := UserBlocks(ms[j])[k];
    if IsToolResult(b) && !Stays(ms, last, j, k) then [] else [b]
  }

  /** The first `k` blocks of user message `j` without the results that do not stay. */
  function KeptUpTo(ms: seq<Message>, last: int, j: nat, k: nat): seq<Block>
    requires j < |ms| && last < |ms| && k <= |UserBlocks(ms[j])|
  {
    if k == 0 then [] else KeptUpTo(ms, last, j, k - 1) + KeptAt(ms, last, j, k - 1)
  }

  function Kept(ms: seq<Message>, last: int, j: nat): seq<Block>
    requires j < |ms| && last < |ms|
  {
    KeptUpTo(ms, last, j, |UserBlocks(ms[j])|)
  }

  function Spliced(kept: seq<Block>, prepend: seq<Block>): seq<Block> {
    kept[..Leading(kept)] + prepend + kept[Leading(kept)..]
  }

  function TextBlocks(s: string): seq<Block> {
    if IsBlank(s) then [] else [Text(s)]
  }

  /** What a user message becomes: one message, or none when its array is emptied. */
  function RewriteUser(ms: seq<Message>, last: int, j: nat): seq<Message>
    requires j < |ms| && last < |ms| && IsUser(ms[j])
  {
    var m := ms[j];
    match m.content
    case Blocks(bs) =>
      var content := Spliced(Kept(ms, last, j), Prepend(ms, last, j));
      if content == bs then [m]
      else if content == [] then []
      else [m.(content := Blocks(content))]
    case Str(s) =>
      if Prepend(ms, last, j) == [] then [m]
      else [m.(content := Blocks(Prepend(ms, last, j) + TextBlocks(s)))]
    case OtherContent(_) => [m]
  }

  function ResultMessage(inserts: seq<Block>): Message {
    Msg(User, Blocks(inserts), "")
  }

  predicate NextIsUser(ms: seq<Message>, i: nat) {
    i + 1 < |ms| && IsUser(ms[i + 1])
  }

  /** What message `i` contributes to the repaired history. */
  function Segment(ms: seq<Message>, last: int, i: nat): seq<Message>
    requires i < |ms| && last < |ms|
  {
    if IsUser(ms[i]) then RewriteUser(ms, last, i)
    else
      [ms[i]] + if Inserts(ms, last, i) != [] && !NextIsUser(ms, i)
                then [ResultMessage(Inserts(ms, last, i))] else []
  }

  function Rebuilt(ms: seq<Message>, last: int, n: nat): seq<Message>
    requires n <= |ms| && last < |ms|
  {
    if n == 0 then [] else Rebuilt(ms, last, n - 1) + Segment(ms, last, n - 1)
  }

  /** Nothing has to be moved, dropped or added. */
  predicate Clean(ms: seq<Message>, last: int)
    requires last < |ms|
  {
    && (forall j, b :: 0 <= j < |ms| && 0 <= b < |UserBlocks(ms[j])| && IsToolResult(UserBlocks(ms[j])[b]) ==>
          Stays(ms, last, j, b))
    && (forall i :: 0 <= i < |ms| ==> Inserts(ms, last, i) == [])
  }

  /** The repaired history, or None when the history needs no repair. */
  function RepairAdjacency(ms: seq<Message>): Option<seq<Message>> {
    var last := LastConversationIndex(ms);
    if Clean(ms, last) then None else Some(Rebuilt(ms, last, |ms|))
  }

  /** The history that is sent: the repaired one, or the original when there was nothing to repair. */
  function Repaired(ms: seq<Message>): seq<Message> {
    match RepairAdjacency(ms)
    case None => ms
    case Some(out) => out
  }

  /**
   Message `i` has calls and is followed by a user message whose content is neither a string
   nor an array: what is inserted after it has nowhere to go.
   */
  predicate Loses(ms: seq<Message>, i: nat) {
    i + 1 < |ms| && HasCall(AssistantBlocks(ms[i])) && IsUser(ms[i + 1]) && ms[i + 1].content.OtherContent?
  }

  /** Some insertion before the last conversation point is lost. */
  predicate LosesInserts(ms: seq<Message>) {
    exists i :: 0 <= i < LastConversationIndex(ms) && Loses(ms, i)
  }
}
