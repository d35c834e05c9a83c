/**
 The streaming translator as a transition function: OpenAI Responses events in, Anthropic
 block events out, with one open block at a time and a queue of deferred events.
 */
module Translator {
  import opened Common

  // Upstream events

  datatype ItemKind = ReasoningItem | MessageItem | FunctionCallItem | OtherItem

  /** An output item; absent strings are empty, except where their absence matters. */
  datatype Item = Item(kind: ItemKind, id: Option<string>, callId: Option<string>, name: string,
                       encrypted: string, arguments: string)

  datatype Event =
    | Created
    | ItemAdded(index: Option<int>, item: Item)
    | TextDelta(index: Option<int>, delta: string)
    | SummaryDelta(index: Option<int>, delta: string)
    | ArgsDelta(index: Option<int>, delta: string)
    | ItemDone(index: Option<int>, item: Item)
    | Completed(truncated: bool)
    | Failed(message: string)
    | Ignored

  // Downstream events

  /** The id of a tool call; one that upstream left out is `call_` and the number of its block. */
  datatype CallId = Given(id: string) | Numbered(n: nat)

  datatype Block = TextBlock | ThinkingBlock | RedactedBlock(data: string) | ToolBlock(id: CallId, name: string)

  datatype Delta = TextPart(s: string) | ThinkingPart(s: string) | SignaturePart(s: string) | JsonPart(s: string)

  datatype Out =
    | MessageStart
    | BlockStart(index: int, block: Block)
    | BlockDelta(index: int, delta: Delta)
    | BlockStop(index: int)
    | MessageDelta(stopReason: string)
    | MessageStop
    | Failure(message: string)

  // State

  datatype Kind = Thinking | Message | FunctionCall

  datatype BlockState = BlockState(blockIndex: int, kind: Kind, isOpen: bool, argsSent: nat, pending: string)

  /** `order` lists the keys of `blocks` in insertion order. */
  datatype State = State(started: bool, finished: bool, nextIndex: nat, hasToolUse: bool,
                         blocks: map<int, BlockState>, order: seq<int>, open: Option<int>, deferred: seq<Event>)

  const INITIAL := State(false, false, 0, false, map[], [], None, [])

  /** An event that was processed, the item it was for, and what it made the translator emit. */
  datatype Handled = Handled(event: Event, key: int, out: seq<Out>)

  function Flatten(hs: seq<Handled>): seq<Out> {
    if hs == [] then [] else Flatten(hs[..|hs| - 1]) + hs[|hs| - 1].out
  }

  lemma FlattenSnoc(hs: seq<Handled>, h: Handled)
    ensures Flatten(hs + [h]) == Flatten(hs) + h.out
  {
    assert (hs + [h])[..|hs|] == hs;
  }

  lemma {:induction false} FlattenConcat(a: seq<Handled>, b: seq<Handled>)
    ensures Flatten(a + b) == Flatten(a) + Flatten(b)
    decreases |b|
  {
    if b == [] {
      assert a + b == a;
    } else {
      hide Flatten;
      var n := |b| - 1;
      FlattenConcat(a, b[..n]);
      assert b == b[..n] + [b[n]];
      ConcatAssoc(a, b[..n], [b[n]]);
      FlattenSnoc(a + b[..n], b[n]);
      FlattenSnoc(b[..n], b[n]);
      ConcatAssoc(Flatten(a), Flatten(b[..n]), b[n].out);
    }
  }

  lemma FlattenHead(hs: seq<Handled>)
    requires hs != []
    ensures Flatten(hs) == hs[0].out + Flatten(hs[1..])
  {
    FlattenConcat([hs[0]], hs[1..]);
    assert [hs[0]] + hs[1..] == hs && [] + [hs[0]] == [hs[0]];
    FlattenSnoc([], hs[0]);
  }

  predicate IsDeferrable(e: Event) {
    e.ItemAdded? || e.TextDelta? || e.SummaryDelta? || e.ArgsDelta? || e.ItemDone?
  }

  /** The open block is one that must not be interrupted. */
  predicate OpenIsUninterruptible(s: State) {
    && s.open.Some? && s.open.value in s.blocks
    && s.blocks[s.open.value].kind in {FunctionCall, Thinking}
  }

  predicate ShouldDefer(s: State, e: Event) {
    IsDeferrable(e) && OpenIsUninterruptible(s) && e.index != s.open
  }

  /** The item an event is for; `added` events without an index are numbered by count. */
  function KeyOf(s: State, e: Event): int {
    if !IsDeferrable(e) then -1
    else match e.index
         case Some(i) => i
         case None => if e.ItemAdded? then |s.blocks| else -1
  }

  function SetBlock(s: State, k: int, st: BlockState): State {
    s.(blocks := s.blocks[k := st], order := if k in s.blocks then s.order else s.order + [k])
  }

  // Handlers

  function EnsureStart(s: State): (r: (State, seq<Out>))
    ensures r.0.deferred == s.deferred
  {
    if s.started then (s, []) else (s.(started := true), [MessageStart])
  }

  /** Close the open block if it belongs to another item than `k`. */
  function CloseForOther(s: State, k: int): (r: (State, seq<Out>))
    ensures r.0.deferred == s.deferred
  {
    if s.open.None? || s.open == Some(k) then (s, [])
    else
      var j := s.open.value;
      if j in s.blocks && s.blocks[j].isOpen then
        (SetBlock(s, j, s.blocks[j].(isOpen := false)).(open := None), [BlockStop(s.blocks[j].blockIndex)])
      else (s.(open := None), [])
  }

  function ToolId(item: Item, blockIndex: nat): CallId {
    match item.callId
    case Some(id) => Given(id)
    case None => match item.id
                 case Some(id) => Given(id)
                 case None => Numbered(blockIndex)
  }

  function OnItemAdded(s0: State, k: int, item: Item): (r: (State, seq<Out>))
    ensures r.0.deferred == s0.deferred
  {
    var (s, start) := EnsureStart(s0);
    if k in s.blocks then (s, start)
    else match item.kind
         case ReasoningItem => (SetBlock(s, k, BlockState(-1, Thinking, false, 0, "")), start)
         case MessageItem => (SetBlock(s, k, BlockState(-1, Message, false, 0, "")), start)
         case FunctionCallItem =>
           var (s1, close) := CloseForOther(s, k);
           var i := s1.nextIndex;
           (SetBlock(s1, k, BlockState(i, FunctionCall, true, 0, ""))
              .(nextIndex := i + 1, open := Some(k), hasToolUse := true),
            start + close + [BlockStart(i, ToolBlock(ToolId(item, i), item.name))])
         case OtherItem => (s, start)
  }

  function OnTextDelta(s: State, k: int, delta: string): (r: (State, seq<Out>))
    ensures r.0.deferred == s.deferred
  {
    if k !in s.blocks || s.blocks[k].kind != Message || delta == "" then (s, [])
    else
      var st := s.blocks[k];
      if st.isOpen then (s, [BlockDelta(st.blockIndex, TextPart(delta))])
      else
        var pending := st.pending + delta;
        if IsBlank(pending) then (SetBlock(s, k, st.(pending := pending)), [])
        else
          var (s1, close) := CloseForOther(s, k);
          var i := s1.nextIndex;
          (SetBlock(s1, k, st.(pending := "", blockIndex := i, isOpen := true)).(nextIndex := i + 1, open := Some(k)),
           close + [BlockStart(i, TextBlock), BlockDelta(i, TextPart(pending))])
  }

  function OnSummaryDelta(s: State, k: int, delta: string): (r: (State, seq<Out>))
    ensures r.0.deferred == s.deferred
  {
    if k !in s.blocks || s.blocks[k].kind != Thinking then (s, [])
    else
      var st := s.blocks[k];
      if st.isOpen then (s, if delta == "" then [] else [BlockDelta(st.blockIndex, ThinkingPart(delta))])
      else
        var (s1, close) := CloseForOther(s, k);
        var s2 := s1.(open := Some(k));
        var pending := st.pending + delta;
        if IsBlank(pending) then (SetBlock(s2, k, st.(pending := pending)), close)
        else
          var i := s2.nextIndex;
          (SetBlock(s2, k, st.(pending := "", blockIndex := i, isOpen := true)).(nextIndex := i + 1),
           close + [BlockStart(i, ThinkingBlock), BlockDelta(i, ThinkingPart(pending))])
  }

  function OnArgsDelta(s: State, k: int, delta: string): (r: (State, seq<Out>))
    ensures r.0.deferred == s.deferred
  {
    if k !in s.blocks || s.blocks[k].kind != FunctionCall || !s.blocks[k].isOpen || delta == "" then (s, [])
    else
      var st := s.blocks[k];
      (SetBlock(s, k, st.(argsSent := st.argsSent + |delta|)), [BlockDelta(st.blockIndex, JsonPart(delta))])
  }

  /** The reasoning state of an item as it is sent out: provider prefix, item id, opaque content. */
  function ReasoningBlob(prefix: string, item: Item): string {
    if item.encrypted == "" then ""
    else
      prefix + (if item.id.Some? && item.id.value != "" then "#id=" + item.id.value + "#" else "") + item.encrypted
  }

  function Release(s: State, k: int): State {
    if s.open == Some(k) then s.(open := None) else s
  }

  function OnThinkingDone(prefix: string, s: State, k: int, item: Item): (r: (State, seq<Out>))
    requires k in s.blocks
    ensures r.0.deferred == s.deferred
  {
    var st := s.blocks[k];
    var blob := ReasoningBlob(prefix, item);
    if st.isOpen then
      (Release(SetBlock(s, k, st.(isOpen := false, pending := "")), k),
       (if blob == "" then [] else [BlockDelta(st.blockIndex, SignaturePart(blob))]) + [BlockStop(st.blockIndex)])
    else if blob != "" then
      var (s1, close) := CloseForOther(s, k);
      var i := s1.nextIndex;
      (Release(SetBlock(s1, k, st.(blockIndex := i, pending := "")).(nextIndex := i + 1), k),
       close + [BlockStart(i, RedactedBlock(blob)), BlockStop(i)])
    else (Release(SetBlock(s, k, st.(pending := "")), k), [])
  }

  /** The part of the full arguments that the deltas did not carry. */
  function ArgsTail(sent: nat, full: string): string {
    if |full| > sent then full[sent..] else ""
  }

  function OnItemDone(prefix: string, s: State, k: int, item: Item): (r: (State, seq<Out>))
    ensures r.0.deferred == s.deferred
  {
    if k !in s.blocks then (s, [])
    else
      var st := s.blocks[k];
      if st.kind == Thinking then OnThinkingDone(prefix, s, k, item)
      else if !st.isOpen then (s, [])
      else
        var tail := if st.kind == FunctionCall then ArgsTail(st.argsSent, item.arguments) else "";
        (Release(SetBlock(s, k, st.(isOpen := false, argsSent := st.argsSent + |tail|)), k),
         (if tail == "" then [] else [BlockDelta(st.blockIndex, JsonPart(tail))]) + [BlockStop(st.blockIndex)])
  }

  /** Everything but the end of the response. */
  function OnContent(prefix: string, s: State, e: Event): (r: (State, seq<Out>))
    ensures r.0.deferred == s.deferred
  {
    match e
    case Created => EnsureStart(s)
    case ItemAdded(_, item) => OnItemAdded(s, KeyOf(s, e), item)
    case TextDelta(_, delta) => OnTextDelta(s, KeyOf(s, e), delta)
    case SummaryDelta(_, delta) => OnSummaryDelta(s, KeyOf(s, e), delta)
    case ArgsDelta(_, delta) => OnArgsDelta(s, KeyOf(s, e), delta)
    case ItemDone(_, item) => OnItemDone(prefix, s, KeyOf(s, e), item)
    case Completed(_) => (s, [])
    case Failed(_) => (s, [])
    case Ignored => (s, [])
  }

  /** One processed event as a step of the run. */
  function StepOn(prefix: string, s: State, e: Event): (r: (State, Handled))
    ensures r.0.deferred == s.deferred
  {
    var (s1, out) := OnContent(prefix, s, e);
    (s1, Handled(e, KeyOf(s, e), out))
  }

  // The queue

  /** The position of the first queued event that need not wait; |q| if all must. */
  function FirstReady(s: State, q: seq<Event>): (i: nat)
    ensures i <= |q|
    ensures i < |q| ==> !ShouldDefer(s, q[i])
    ensures forall j :: 0 <= j < i ==> ShouldDefer(s, q[j])
  {
    if q == [] || !ShouldDefer(s, q[0]) then 0 else 1 + FirstReady(s, q[1..])
  }

  function Without(s: State, i: nat): State
    requires i < |s.deferred|
  {
    s.(deferred := s.deferred[..i] + s.deferred[i + 1..])
  }

  /** Replay queued events as long as one of them need not wait. */
  function Drain(prefix: string, s: State): (State, seq<Handled>)
    decreases |s.deferred|
  {
    var i := FirstReady(s, s.deferred);
    if i == |s.deferred| then (s, [])
    else
      var (s1, h) := StepOn(prefix, Without(s, i), s.deferred[i]);
      var (s2, hs) := Drain(prefix, s1);
      (s2, [h] + hs)
  }

  /** Replay all queued events, in order. */
  function ForceDrain(prefix: string, s: State): (r: (State, seq<Handled>))
    ensures r.0.deferred == []
    decreases |s.deferred|
  {
    if s.deferred == [] then (s, [])
    else
      var (s1, h) := StepOn(prefix, Without(s, 0), s.deferred[0]);
      var (s2, hs) := ForceDrain(prefix, s1);
      (s2, [h] + hs)
  }

  // The end of the response

  function CloseListed(s: State, keys: seq<int>): (r: (State, seq<Out>))
    ensures r.0.deferred == s.deferred
    decreases |keys|
  {
    if keys == [] then (s, [])
    else
      var k := keys[0];
      if k in s.blocks && s.blocks[k].isOpen && s.blocks[k].blockIndex >= 0 then
        var (s1, out) := CloseListed(SetBlock(s, k, s.blocks[k].(isOpen := false)), keys[1..]);
        (s1, [BlockStop(s.blocks[k].blockIndex)] + out)
      else CloseListed(s, keys[1..])
  }

  function CloseAll(s: State): (State, seq<Out>) {
    var (s1, out) := CloseListed(s, s.order);
    (s1.(open := None), out)
  }

  function StopReason(s: State, truncated: bool): string {
    if truncated then "max_tokens" else if s.hasToolUse then "tool_use" else "end_turn"
  }

  function OnCompleted(prefix: string, s: State, truncated: bool): (State, seq<Handled>) {
    if s.finished then (s, [])
    else
      var (s1, start) := EnsureStart(s);
      var (s2, drained) := ForceDrain(prefix, s1);
      var (s3, close) := CloseAll(s2);
      (s3.(finished := true),
       [Handled(Completed(truncated), -1, start)] + drained
       + [Handled(Completed(truncated), -1, close + [MessageDelta(StopReason(s3, truncated)), MessageStop])])
  }

  function EmitFailure(prefix: string, s: State, message: string): (State, seq<Handled>) {
    var (s1, drained) := ForceDrain(prefix, s);
    var (s2, close) := CloseAll(s1);
    (s2.(finished := true), drained + [Handled(Failed(message), -1, close + [Failure(message)])])
  }

  function HandleEvent(prefix: string, s: State, e: Event): (State, seq<Handled>) {
    match e
    case Completed(truncated) => OnCompleted(prefix, s, truncated)
    case Failed(message) => if s.finished then (s, []) else EmitFailure(prefix, s, message)
    case _ => var (s1, h) := StepOn(prefix, s, e); (s1, [h])
  }

  /** One upstream event. */
  function Push(prefix: string, s: State, e: Event): (State, seq<Handled>) {
    if ShouldDefer(s, e) then (s.(deferred := s.deferred + [e]), [])
    else
      var (s1, hs) := HandleEvent(prefix, s, e);
      var (s2, rest) := Drain(prefix, s1);
      (s2, hs + rest)
  }

  /** The upstream failed while being read. */
  function Fail(prefix: string, s: State, message: string): (State, seq<Handled>) {
    if s.finished then (s, []) else EmitFailure(prefix, s, message)
  }

  const TRUNCATED := "upstream stream ended before response.completed (stream_truncated)"

  /** The upstream ended. */
  function Finish(prefix: string, s: State): (State, seq<Handled>) {
    Fail(prefix, s, TRUNCATED)
  }

  /** What the owner of a translator may call, in any order. */
  datatype Call = Feed(event: Event) | Abort(message: string) | End

  function Invoke(prefix: string, s: State, call: Call): (State, seq<Handled>) {
    match call
    case Feed(event) => Push(prefix, s, event)
    case Abort(message) => Fail(prefix, s, message)
    case End => Finish(prefix, s)
  }

  /** A run: one call after the other. */
  function Run(prefix: string, calls: seq<Call>): (State, seq<Handled>) {
    if calls == [] then (INITIAL, [])
    else
      var (s, hs) := Run(prefix, calls[..|calls| - 1]);
      var (s1, more) := Invoke(prefix, s, calls[|calls| - 1]);
      (s1, hs + more)
  }

  /** Upstream events pushed one after the other. */
  function PushAll(prefix: string, s: State, es: seq<Event>): (State, seq<Handled>) {
    if es == [] then (s, [])
    else
      var (s1, hs) := PushAll(prefix, s, es[..|es| - 1]);
      var (s2, more) := Push(prefix, s1, es[|es| - 1]);
      (s2, hs + more)
  }

  // A whole response at once

  /** `texts`: the texts of a message or the summaries of a reasoning item. */
  datatype OutputItem = OutputItem(item: Item, texts: seq<string>)

  datatype Status = StatusCompleted | StatusIncomplete(truncated: bool) | StatusFailed | StatusOther

  datatype Response = EmptyResponse | Response(status: Status, error: Option<string>, output: seq<OutputItem>)

  function PartDelta(kind: ItemKind, k: int, part: string): Event {
    match kind
    case MessageItem => TextDelta(Some(k), part)
    case ReasoningItem => SummaryDelta(Some(k), part)
    case FunctionCallItem => ArgsDelta(Some(k), part)
    case OtherItem => Ignored
  }

  /** The content of an item. Absent arguments are empty, and an empty delta changes nothing. */
  function PartsOf(o: OutputItem): seq<string> {
    match o.item.kind
    case FunctionCallItem => [o.item.arguments]
    case OtherItem => []
    case _ => o.texts
  }

  /** The life of an item that arrives whole. */
  function ItemEvents(k: int, o: OutputItem): seq<Event> {
    [ItemAdded(Some(k), o.item)]
    + seq(|PartsOf(o)|, i requires 0 <= i < |PartsOf(o)| => PartDelta(o.item.kind, k, PartsOf(o)[i]))
    + [ItemDone(Some(k), o.item)]
  }

  function OutputEvents(output: seq<OutputItem>): seq<Event> {
    if output == [] then []
    else OutputEvents(output[..|output| - 1]) + ItemEvents(|output| - 1, output[|output| - 1])
  }

  const INVALID_JSON := "upstream returned an invalid Responses JSON object"
  const NON_TERMINAL := "upstream returned a non-terminal Responses JSON object"

  function ResponseEvents(r: Response): seq<Event>
    requires r.Response? && (r.status.StatusCompleted? || r.status.StatusIncomplete?)
  {
    [Created] + OutputEvents(r.output) + [Completed(r.status.StatusIncomplete? && r.status.truncated)]
  }

  function PushJson(prefix: string, s: State, r: Response): (State, seq<Handled>) {
    if r.EmptyResponse? then Fail(prefix, s, INVALID_JSON)
    else if r.status.StatusFailed? || r.error.Some? then
      Push(prefix, s, Event.Failed(if r.error.Some? then r.error.value else "upstream response failed"))
    else if r.status.StatusOther? then Fail(prefix, s, NON_TERMINAL)
    else PushAll(prefix, s, ResponseEvents(r))
  }

  /** One step of a drain. */
  lemma DrainUnfolds(prefix: string, s: State)
    ensures var i := FirstReady(s, s.deferred);
            if i == |s.deferred| then Drain(prefix, s) == (s, [])
            else
              var s0 := Without(s, i);
              var (s1, h) := StepOn(prefix, s0, s.deferred[i]);
              && Drain(prefix, s) == (Drain(prefix, s1).0, [h] + Drain(prefix, s1).1)
              && h.event == s.deferred[i] && s1.deferred == s0.deferred && |s0.deferred| == |s.deferred| - 1
              && !ShouldDefer(s0, s.deferred[i])
  {
    hide OnContent;
  }

  lemma ForceDrainUnfolds(prefix: string, s: State)
    ensures if s.deferred == [] then ForceDrain(prefix, s) == (s, [])
            else
              var (s1, h) := StepOn(prefix, Without(s, 0), s.deferred[0]);
              && ForceDrain(prefix, s) == (ForceDrain(prefix, s1).0, [h] + ForceDrain(prefix, s1).1)
              && h.event == s.deferred[0] && s1.deferred == s.deferred[1..]
  {
    hide OnContent;
  }
}
