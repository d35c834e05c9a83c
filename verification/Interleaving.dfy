/**
 Interleaving does not matter: as long as the response has not ended, what a reasoning or tool item
 contributes is what it would contribute if its own events were processed alone.
 */
module Interleaving {
  import opened Common
  import opened Translator
  import opened Grammar
  import opened GrammarRuns
  import opened Deferral
  import opened Completion
  import opened Content

  /** Content of an item, without the number of the block that carries it. */
  datatype Piece = Begin(block: Block) | Add(delta: Delta)

  /** The id made up for a tool call that has none depends on the number of its block. */
  function Unnumbered(b: Block): Block {
    match b
    case ToolBlock(Numbered(_), name) => ToolBlock(Numbered(0), name)
    case _ => b
  }

  function PieceOf(o: Out): seq<Piece> {
    match o
    case BlockStart(_, b) => [Begin(Unnumbered(b))]
    case BlockDelta(_, d) => [Add(d)]
    case _ => []
  }

  function PiecesIn(outs: seq<Out>): seq<Piece> {
    if outs == [] then [] else PieceOf(outs[0]) + PiecesIn(outs[1..])
  }

  /** The content emitted for item `k`. */
  function PiecesOf(hs: seq<Handled>, k: int): seq<Piece> {
    if hs == [] then []
    else
      var h := hs[|hs| - 1];
      PiecesOf(hs[..|hs| - 1], k) + (if h.key == k then PiecesIn(h.out) else [])
  }

  /** Events processed one after the other, from the beginning. */
  function Process(prefix: string, es: seq<Event>): (State, seq<Handled>) {
    if es == [] then (INITIAL, [])
    else
      var (s, hs) := Process(prefix, es[..|es| - 1]);
      var (s1, h) := StepOn(prefix, s, es[|es| - 1]);
      (s1, hs + [h])
  }

  /** The response goes on. */
  predicate Flowing(calls: seq<Call>) {
    forall i :: 0 <= i < |calls| ==> calls[i].Feed? && !calls[i].event.Completed? && !calls[i].event.Failed?
  }

  lemma {:induction false} PiecesInConcat(a: seq<Out>, b: seq<Out>)
    ensures PiecesIn(a + b) == PiecesIn(a) + PiecesIn(b)
    decreases |a|
  {
    if a == [] {
      assert a + b == b;
    } else {
      assert (a + b)[1..] == a[1..] + b;
      PiecesInConcat(a[1..], b);
      ConcatAssoc(PieceOf(a[0]), PiecesIn(a[1..]), PiecesIn(b));
    }
  }

  lemma PiecesInOne(o: Out)
    ensures PiecesIn([o]) == PieceOf(o)
  {
    assert [o][1..] == [];
  }

  lemma PiecesInTwo(o: Out, p: Out)
    ensures PiecesIn([o, p]) == PieceOf(o) + PieceOf(p)
  {
    assert [o, p][1..] == [p];
    PiecesInOne(p);
  }

  lemma PiecesOfSnoc(hs: seq<Handled>, h: Handled, k: int)
    ensures PiecesOf(hs + [h], k) == PiecesOf(hs, k) + (if h.key == k then PiecesIn(h.out) else [])
  {
    assert (hs + [h])[..|hs|] == hs;
  }

  // One item's state

  /** The state of item `k`'s block, without its number; blocks of messages may be closed by other items. */
  function Inner(s: State, k: int): Option<BlockState> {
    if k !in s.blocks then None
    else if s.blocks[k].kind == Message then Some(BlockState(0, Message, false, 0, ""))
    else Some(s.blocks[k].(blockIndex := 0))
  }

  predicate IsMessage(s: State, k: int) {
    k in s.blocks && s.blocks[k].kind == Message
  }

  lemma CloseForOtherQuiet(s: State, k: int)
    ensures PiecesIn(CloseForOther(s, k).1) == []
    ensures k in s.blocks ==> k in CloseForOther(s, k).0.blocks && CloseForOther(s, k).0.blocks[k] == s.blocks[k]
    ensures k !in s.blocks ==> k !in CloseForOther(s, k).0.blocks
  {
    var close := CloseForOther(s, k).1;
    if close != [] {
      PiecesInOne(close[0]);
    }
  }

  lemma OpeningPieces(start: seq<Out>, close: seq<Out>, rest: seq<Out>)
    requires PiecesIn(start) == [] && PiecesIn(close) == []
    ensures PiecesIn(start + close + rest) == PiecesIn(rest)
    ensures PiecesIn(close + rest) == PiecesIn(rest)
  {
    PiecesInConcat(start, close);
    PiecesInConcat(start + close, rest);
    PiecesInConcat(close, rest);
  }

  /** What the handlers do to the block of item `k`, seen from that item. */
  lemma OnItemAddedInner(s: State, k: int, item: Item)
    ensures var (s1, out) := OnItemAdded(s, k, item);
            && Inner(s1, k) == (if k in s.blocks then Inner(s, k)
                                else match item.kind
                                     case ReasoningItem => Some(BlockState(0, Thinking, false, 0, ""))
                                     case MessageItem => Some(BlockState(0, Message, false, 0, ""))
                                     case FunctionCallItem => Some(BlockState(0, FunctionCall, true, 0, ""))
                                     case OtherItem => None)
            && PiecesIn(out) == (if k !in s.blocks && item.kind == FunctionCallItem
                                 then [Begin(Unnumbered(ToolBlock(ToolId(item, 0), item.name)))]
                                 else [])
  {
    PiecesInOne(MessageStart);
    var (s0, start) := EnsureStart(s);
    if k !in s.blocks && item.kind == FunctionCallItem {
      CloseForOtherQuiet(s0, k);
      var (s1, close) := CloseForOther(s0, k);
      var b := BlockStart(s1.nextIndex, ToolBlock(ToolId(item, s1.nextIndex), item.name));
      OpeningPieces(start, close, [b]);
      PiecesInOne(b);
      hide CloseForOther, PiecesIn;
    }
  }

  lemma OnSummaryDeltaInner(s: State, k: int, delta: string)
    requires k in s.blocks && s.blocks[k].kind == Thinking
    ensures var (s1, out) := OnSummaryDelta(s, k, delta);
            var st := s.blocks[k];
            var pending := st.pending + delta;
            && Inner(s1, k) == Some(if st.isOpen then st.(blockIndex := 0)
                                    else if IsBlank(pending) then st.(blockIndex := 0, pending := pending)
                                    else st.(blockIndex := 0, pending := "", isOpen := true))
            && PiecesIn(out) == (if st.isOpen then (if delta == "" then [] else [Add(ThinkingPart(delta))])
                                 else if IsBlank(pending) then []
                                 else [Begin(ThinkingBlock), Add(ThinkingPart(pending))])
  {
    var st := s.blocks[k];
    if st.isOpen {
      PiecesInOne(BlockDelta(st.blockIndex, ThinkingPart(delta)));
    } else {
      var pending := st.pending + delta;
      CloseForOtherQuiet(s, k);
      var (s1, close) := CloseForOther(s, k);
      var o, p := BlockStart(s1.nextIndex, ThinkingBlock), BlockDelta(s1.nextIndex, ThinkingPart(pending));
      OpeningPieces([], close, [o, p]);
      PiecesInTwo(o, p);
      hide CloseForOther, PiecesIn;
    }
  }

  lemma OnArgsDeltaInner(s: State, k: int, delta: string)
    requires k in s.blocks && s.blocks[k].kind == FunctionCall
    ensures var (s1, out) := OnArgsDelta(s, k, delta);
            var st := s.blocks[k];
            && Inner(s1, k) == Some(if st.isOpen then st.(blockIndex := 0, argsSent := st.argsSent + |delta|)
                                    else st.(blockIndex := 0))
            && PiecesIn(out) == (if st.isOpen && delta != "" then [Add(JsonPart(delta))] else [])
  {
    PiecesInOne(BlockDelta(s.blocks[k].blockIndex, JsonPart(delta)));
  }

  lemma OnThinkingDoneInner(prefix: string, s: State, k: int, item: Item)
    requires k in s.blocks && s.blocks[k].kind == Thinking
    ensures var (s1, out) := OnThinkingDone(prefix, s, k, item);
            var blob := ReasoningBlob(prefix, item);
            && Inner(s1, k) == Some(s.blocks[k].(blockIndex := 0, isOpen := false, pending := ""))
            && PiecesIn(out) == (if blob == "" then []
                                 else if s.blocks[k].isOpen then [Add(SignaturePart(blob))]
                                 else [Begin(RedactedBlock(blob))])
  {
    var st, blob := s.blocks[k], ReasoningBlob(prefix, item);
    hide ReasoningBlob;
    if st.isOpen {
      StopPieces(st.blockIndex, if blob == "" then None else Some(SignaturePart(blob)));
      hide PiecesIn;
    } else if blob != "" {
      CloseForOtherQuiet(s, k);
      var (s1, close) := CloseForOther(s, k);
      hide CloseForOther;
      RedactedPieces(close, s1.nextIndex, blob);
      hide PiecesIn;
    }
  }

  lemma RedactedPieces(close: seq<Out>, i: int, blob: string)
    requires PiecesIn(close) == []
    ensures PiecesIn(close + [BlockStart(i, RedactedBlock(blob)), BlockStop(i)]) == [Begin(RedactedBlock(blob))]
  {
    var o, p := BlockStart(i, RedactedBlock(blob)), BlockStop(i);
    OpeningPieces([], close, [o, p]);
    PiecesInTwo(o, p);
    hide PiecesIn;
  }

  lemma StopPieces(i: int, d: Option<Delta>)
    ensures PiecesIn((if d.None? then [] else [BlockDelta(i, d.value)]) + [BlockStop(i)])
         == if d.None? then [] else [Add(d.value)]
  {
    if d.Some? {
      assert [BlockDelta(i, d.value)] + [BlockStop(i)] == [BlockDelta(i, d.value), BlockStop(i)];
      PiecesInTwo(BlockDelta(i, d.value), BlockStop(i));
    } else {
      assert [] + [BlockStop(i)] == [BlockStop(i)];
      PiecesInOne(BlockStop(i));
    }
  }

  lemma OnToolDoneInner(prefix: string, s: State, k: int, item: Item)
    requires k in s.blocks && s.blocks[k].kind == FunctionCall
    ensures var (s1, out) := OnItemDone(prefix, s, k, item);
            var st := s.blocks[k];
            var tail := ArgsTail(st.argsSent, item.arguments);
            && Inner(s1, k) == Some(if st.isOpen
                                    then st.(blockIndex := 0, isOpen := false, argsSent := st.argsSent + |tail|)
                                    else st.(blockIndex := 0))
            && PiecesIn(out) == (if st.isOpen && tail != "" then [Add(JsonPart(tail))] else [])
  {
    var st := s.blocks[k];
    var tail := ArgsTail(st.argsSent, item.arguments);
    hide ArgsTail, PiecesIn;
    NoPieces();
    StopPieces(st.blockIndex, if tail == "" then None else Some(JsonPart(tail)));
  }

  lemma NoPieces()
    ensures PiecesIn([]) == []
  {
  }

  lemma MessageText(s: State, k: int, delta: string)
    requires IsMessage(s, k)
    ensures Inner(OnTextDelta(s, k, delta).0, k) == Inner(s, k)
  {
    CloseForOtherQuiet(s, k);
    hide CloseForOther, IsBlank;
  }

  lemma MessageDone(prefix: string, s: State, k: int, item: Item)
    requires IsMessage(s, k)
    ensures Inner(OnItemDone(prefix, s, k, item).0, k) == Inner(s, k)
  {
    hide CloseForOther, ReasoningBlob, ArgsTail, OnThinkingDone;
  }

  /** A message stays a message. */
  lemma MessageInner(prefix: string, s: State, k: int, e: Event)
    requires IsMessage(s, k) && Has(e, Some(k))
    ensures Inner(StepOn(prefix, s, e).0, k) == Inner(s, k) && StepOn(prefix, s, e).1.key == k
  {
    match e {
      case TextDelta(_, delta) => MessageText(s, k, delta);
      case ItemDone(_, item) => MessageDone(prefix, s, k, item);
      case _ =>
    }
    hide CloseForOther, OnTextDelta, OnItemDone;
  }

  /** The item's own events have the same effect in states that agree on the item. */
  ghost predicate SameEffect(prefix: string, s: State, t: State, e: Event, k: int) {
    var (s1, h) := StepOn(prefix, s, e);
    var (t1, g) := StepOn(prefix, t, e);
    && Inner(s1, k) == Inner(t1, k)
    && h.key == k == g.key
    && (!IsMessage(s1, k) ==> PiecesIn(h.out) == PiecesIn(g.out))
  }

  lemma OwnAdded(prefix: string, s: State, t: State, item: Item, k: int)
    requires Inner(s, k) == Inner(t, k)
    ensures SameEffect(prefix, s, t, ItemAdded(Some(k), item), k)
  {
    OnItemAddedInner(s, k, item);
    OnItemAddedInner(t, k, item);
    hide OnItemAdded, PiecesIn;
  }

  lemma OwnMessage(prefix: string, s: State, t: State, e: Event, k: int)
    requires Has(e, Some(k)) && Inner(s, k) == Inner(t, k) && IsMessage(s, k)
    ensures SameEffect(prefix, s, t, e, k)
  {
    MessageInner(prefix, s, k, e);
    MessageInner(prefix, t, k, e);
    hide StepOn, PiecesIn;
  }

  lemma OwnSummary(prefix: string, s: State, t: State, delta: string, k: int)
    requires Inner(s, k) == Inner(t, k) && !IsMessage(s, k)
    ensures SameEffect(prefix, s, t, SummaryDelta(Some(k), delta), k)
  {
    if k in s.blocks && s.blocks[k].kind == Thinking {
      OnSummaryDeltaInner(s, k, delta);
      OnSummaryDeltaInner(t, k, delta);
      hide OnSummaryDelta, PiecesIn, IsBlank;
    } else {
      hide CloseForOther, IsBlank;
    }
  }

  lemma OwnArgs(prefix: string, s: State, t: State, delta: string, k: int)
    requires Inner(s, k) == Inner(t, k) && !IsMessage(s, k)
    ensures SameEffect(prefix, s, t, ArgsDelta(Some(k), delta), k)
  {
    if k in s.blocks && s.blocks[k].kind == FunctionCall {
      OnArgsDeltaInner(s, k, delta);
      OnArgsDeltaInner(t, k, delta);
      hide OnArgsDelta, PiecesIn;
    }
  }

  lemma OwnToolDone(prefix: string, s: State, t: State, item: Item, k: int)
    requires Inner(s, k) == Inner(t, k) && k in s.blocks && s.blocks[k].kind == FunctionCall
    ensures SameEffect(prefix, s, t, ItemDone(Some(k), item), k)
  {
    hide OnItemDone, PiecesIn, ArgsTail;
    OnToolDoneInner(prefix, s, k, item);
    OnToolDoneInner(prefix, t, k, item);
  }

  lemma OwnThinkingDone(prefix: string, s: State, t: State, item: Item, k: int)
    requires Inner(s, k) == Inner(t, k) && k in s.blocks && s.blocks[k].kind == Thinking
    ensures SameEffect(prefix, s, t, ItemDone(Some(k), item), k)
  {
    OnThinkingDoneInner(prefix, s, k, item);
    OnThinkingDoneInner(prefix, t, k, item);
    ThinkingDoneStep(prefix, s, item, k);
    ThinkingDoneStep(prefix, t, item, k);
    hide StepOn, OnThinkingDone, PiecesIn, ReasoningBlob;
  }

  lemma ThinkingDoneStep(prefix: string, s: State, item: Item, k: int)
    requires k in s.blocks && s.blocks[k].kind == Thinking
    ensures var (s1, h) := StepOn(prefix, s, ItemDone(Some(k), item));
            (s1, h.out) == OnThinkingDone(prefix, s, k, item) && h.key == k
  {
    hide OnThinkingDone;
  }

  lemma OwnText(prefix: string, s: State, t: State, delta: string, k: int)
    requires Inner(s, k) == Inner(t, k) && !IsMessage(s, k)
    ensures SameEffect(prefix, s, t, TextDelta(Some(k), delta), k)
  {
    hide CloseForOther, IsBlank;
  }

  lemma OwnDone(prefix: string, s: State, t: State, item: Item, k: int)
    requires Inner(s, k) == Inner(t, k) && !IsMessage(s, k)
    ensures SameEffect(prefix, s, t, ItemDone(Some(k), item), k)
  {
    if k in s.blocks {
      if s.blocks[k].kind == FunctionCall {
        OwnToolDone(prefix, s, t, item, k);
      } else {
        OwnThinkingDone(prefix, s, t, item, k);
      }
      hide SameEffect;
    }
  }

  lemma OwnStep(prefix: string, s: State, t: State, e: Event, k: int)
    requires Has(e, Some(k)) && Inner(s, k) == Inner(t, k)
    ensures SameEffect(prefix, s, t, e, k)
  {
    hide SameEffect;
    if e.ItemAdded? {
      OwnAdded(prefix, s, t, e.item, k);
    } else if IsMessage(s, k) {
      OwnMessage(prefix, s, t, e, k);
    } else {
      match e {
        case TextDelta(_, delta) => OwnText(prefix, s, t, delta, k);
        case SummaryDelta(_, delta) => OwnSummary(prefix, s, t, delta, k);
        case ArgsDelta(_, delta) => OwnArgs(prefix, s, t, delta, k);
        case ItemDone(_, item) => OwnDone(prefix, s, t, item, k);
      }
    }
  }

  lemma OtherAdded(s: State, j: int, item: Item, k: int)
    requires Inv(s) && j != k && (OpenIsUninterruptible(s) ==> s.open == Some(j))
    ensures Inner(OnItemAdded(s, j, item).0, k) == Inner(s, k)
  {
    var s0 := s.(started := true);
    StartedInv(s);
    CloseForOtherInner(s0, j, k);
    assert Inner(s0, k) == Inner(s, k);
    var t := CloseForOther(s0, j).0;
    hide CloseForOther, ToolId, Inv, OpenIsUninterruptible;
    if item.kind == FunctionCallItem {
      OtherBlock(t, j, BlockState(t.nextIndex, FunctionCall, true, 0, ""), k);
    } else if item.kind == ReasoningItem {
      OtherBlock(s0, j, BlockState(-1, Thinking, false, 0, ""), k);
    } else {
      OtherBlock(s0, j, BlockState(-1, Message, false, 0, ""), k);
    }
    hide Inner;
  }

  lemma OtherBlock(s: State, j: int, st: BlockState, k: int)
    requires j != k
    ensures Inner(SetBlock(s, j, st), k) == Inner(s, k)
  {
  }

  lemma StartedInv(s: State)
    requires Inv(s)
    ensures Inv(s.(started := true))
  {
  }

  lemma OtherText(s: State, j: int, delta: string, k: int)
    requires Inv(s) && j != k && (OpenIsUninterruptible(s) ==> s.open == Some(j))
    ensures Inner(OnTextDelta(s, j, delta).0, k) == Inner(s, k)
  {
    hide CloseForOther, IsBlank, SetBlock, Inv;
    CloseForOtherInner(s, j, k);
    if j in s.blocks {
      var s1, st := CloseForOther(s, j).0, s.blocks[j];
      OtherBlock(s, j, st.(pending := st.pending + delta), k);
      OtherBlock(s1, j, st.(pending := "", blockIndex := s1.nextIndex, isOpen := true), k);
    }
  }

  lemma OtherSummary(s: State, j: int, delta: string, k: int)
    requires Inv(s) && j != k && (OpenIsUninterruptible(s) ==> s.open == Some(j))
    ensures Inner(OnSummaryDelta(s, j, delta).0, k) == Inner(s, k)
  {
    hide CloseForOther, IsBlank, SetBlock, Inv;
    CloseForOtherInner(s, j, k);
    if j in s.blocks {
      var s1, st := CloseForOther(s, j).0.(open := Some(j)), s.blocks[j];
      OtherBlock(s1, j, st.(pending := st.pending + delta), k);
      OtherBlock(s1, j, st.(pending := "", blockIndex := s1.nextIndex, isOpen := true), k);
    }
  }

  lemma OtherDone(prefix: string, s: State, j: int, item: Item, k: int)
    requires Inv(s) && j != k && (OpenIsUninterruptible(s) ==> s.open == Some(j))
    ensures Inner(OnItemDone(prefix, s, j, item).0, k) == Inner(s, k)
  {
    hide OnThinkingDone, ArgsTail, Inv;
    if j in s.blocks && s.blocks[j].kind == Thinking {
      OtherThinkingDone(prefix, s, j, item, k);
    }
  }

  lemma OtherThinkingDone(prefix: string, s: State, j: int, item: Item, k: int)
    requires Inv(s) && j in s.blocks && j != k && (OpenIsUninterruptible(s) ==> s.open == Some(j))
    ensures Inner(OnThinkingDone(prefix, s, j, item).0, k) == Inner(s, k)
  {
    hide CloseForOther, ReasoningBlob, Inv;
    CloseForOtherInner(s, j, k);
  }

  /** The events of other items leave it alone, because they wait while its block must not be interrupted. */
  lemma OtherStep(prefix: string, s: State, e: Event, k: int)
    requires Inv(s) && IsNumbered(e) && !ShouldDefer(s, e) && !Has(e, Some(k))
    ensures var (s1, h) := StepOn(prefix, s, e);
            && Inner(s1, k) == Inner(s, k)
            && (h.key == k ==> PiecesIn(h.out) == [])
  {
    var j := KeyOf(s, e);
    PiecesInOne(MessageStart);
    hide Inv;
    match e {
      case ItemAdded(_, item) => OtherAdded(s, j, item, k);
      case TextDelta(_, delta) => OtherText(s, j, delta, k);
      case SummaryDelta(_, delta) => OtherSummary(s, j, delta, k);
      case ArgsDelta(_, delta) => hide PiecesIn;
      case ItemDone(_, item) => OtherDone(prefix, s, j, item, k);
      case _ =>
    }
    hide OnItemAdded, OnTextDelta, OnSummaryDelta, OnItemDone;
  }

  lemma CloseForOtherInner(s: State, j: int, k: int)
    requires Inv(s) || Inv(s.(started := false))
    requires j != k && (OpenIsUninterruptible(s) ==> s.open == Some(j))
    ensures Inner(CloseForOther(s, j).0, k) == Inner(s, k)
  {
  }

  // Runs

  /** What item `k` contributed to a run, and its state, are those of its own events alone. */
  ghost predicate Undisturbed(prefix: string, hs: seq<Handled>, s: State, k: int) {
    var (t, own) := Process(prefix, Select(Events(hs), Some(k)));
    && Inner(s, k) == Inner(t, k)
    && (!IsMessage(s, k) ==> PiecesOf(hs, k) == PiecesOf(own, k))
    && AnnouncedAs(hs, k) == AnnouncedAs(own, k) && Received(hs, k) == Received(own, k)
  }

  /** What was announced as a message does not become anything else. */
  lemma StaysMessage(prefix: string, s: State, e: Event, k: int)
    requires IsMessage(s, k) && Inv(s) && IsNumbered(e) && !ShouldDefer(s, e)
    ensures IsMessage(StepOn(prefix, s, e).0, k)
  {
    if Has(e, Some(k)) {
      MessageInner(prefix, s, k, e);
    } else {
      OtherStep(prefix, s, e, k);
    }
  }

  lemma ProcessSnoc(prefix: string, es: seq<Event>, e: Event)
    ensures var (t, own) := Process(prefix, es);
            var (t1, g) := StepOn(prefix, t, e);
            Process(prefix, es + [e]) == (t1, own + [g])
  {
    assert (es + [e])[..|es|] == es;
  }

  lemma SelectedSnoc(hs: seq<Handled>, h: Handled, x: Option<int>)
    ensures Select(Events(hs + [h]), x) == Select(Events(hs), x) + (if Has(h.event, x) then [h.event] else [])
  {
    EventsConcat(hs, [h]);
    assert Events([h]) == [h.event];
    hide Select;
    SelectSnoc(Events(hs), h.event, x);
  }

  lemma StepHandles(prefix: string, s: State, e: Event)
    ensures StepOn(prefix, s, e).1.event == e && StepOn(prefix, s, e).1.key == KeyOf(s, e)
  {
    hide OnContent;
  }

  lemma OwnUndisturbed(prefix: string, hs: seq<Handled>, s: State, e: Event, k: int)
    requires Inv(s) && IsNumbered(e) && !ShouldDefer(s, e) && Has(e, Some(k)) && Undisturbed(prefix, hs, s, k)
    ensures var (s1, h) := StepOn(prefix, s, e);
            Undisturbed(prefix, hs + [h], s1, k)
  {
    hide StepOn, Inv, Select, Events, PiecesIn, PiecesOf, Inner, IsMessage, Process, Received, AnnouncedAs;
    var es := Select(Events(hs), Some(k));
    var (t, own) := Process(prefix, es);
    var h, g := StepOn(prefix, s, e).1, StepOn(prefix, t, e).1;
    StepHandles(prefix, s, e);
    StepHandles(prefix, t, e);
    SelectedSnoc(hs, h, Some(k));
    if IsMessage(s, k) {
      StaysMessage(prefix, s, e, k);
    }
    OwnStep(prefix, s, t, e, k);
    ProcessSnoc(prefix, es, e);
    PiecesOfSnoc(hs, h, k);
    PiecesOfSnoc(own, g, k);
    HeardSnoc(hs, h, k);
    HeardSnoc(own, g, k);
  }

  lemma OtherUndisturbed(prefix: string, hs: seq<Handled>, s: State, e: Event, k: int)
    requires Inv(s) && IsNumbered(e) && !ShouldDefer(s, e) && !Has(e, Some(k)) && Undisturbed(prefix, hs, s, k)
    ensures var (s1, h) := StepOn(prefix, s, e);
            Undisturbed(prefix, hs + [h], s1, k)
  {
    hide StepOn, Inv, Select, Events, PiecesIn, PiecesOf, Inner, IsMessage, Process, Received, AnnouncedAs;
    var es := Select(Events(hs), Some(k));
    var h := StepOn(prefix, s, e).1;
    StepHandles(prefix, s, e);
    SelectedSnoc(hs, h, Some(k));
    assert es + [] == es;
    if IsMessage(s, k) {
      StaysMessage(prefix, s, e, k);
    }
    OtherStep(prefix, s, e, k);
    PiecesOfSnoc(hs, h, k);
    assert PiecesOf(hs, k) + [] == PiecesOf(hs, k);
    HeardSnoc(hs, h, k);
    assert Received(hs, k) + "" == Received(hs, k);
  }

  lemma StepUndisturbed(prefix: string, hs: seq<Handled>, s: State, e: Event, k: int)
    requires Inv(s) && IsNumbered(e) && !ShouldDefer(s, e) && Undisturbed(prefix, hs, s, k)
    ensures var (s1, h) := StepOn(prefix, s, e);
            Undisturbed(prefix, hs + [h], s1, k)
  {
    hide *;
    if Has(e, Some(k)) {
      OwnUndisturbed(prefix, hs, s, e, k);
    } else {
      OtherUndisturbed(prefix, hs, s, e, k);
    }
  }

  lemma RequeueUndisturbed(prefix: string, hs: seq<Handled>, s: State, q: seq<Event>, k: int)
    requires Undisturbed(prefix, hs, s, k)
    ensures Undisturbed(prefix, hs, s.(deferred := q), k)
  {
  }

  lemma {:induction false} DrainUndisturbed(prefix: string, hs: seq<Handled>, s: State, k: int)
    requires Inv(s) && AllNumbered(s.deferred) && Undisturbed(prefix, hs, s, k)
    ensures Undisturbed(prefix, hs + Drain(prefix, s).1, Drain(prefix, s).0, k)
    decreases |s.deferred|
  {
    hide Undisturbed, Inv, Drain, StepOn, FirstReady, ShouldDefer;
    DrainUnfolds(prefix, s);
    var i := FirstReady(s, s.deferred);
    if i < |s.deferred| {
      var e, s0 := s.deferred[i], Without(s, i);
      RequeueGoes(s, s0.deferred);
      RequeueUndisturbed(prefix, hs, s, s0.deferred, k);
      assert IsNumbered(e);
      StepUndisturbed(prefix, hs, s0, e, k);
      StepOnSteps(prefix, s0, e);
      StepsInv(prefix, s0, e);
      var (s1, h) := StepOn(prefix, s0, e);
      assert AllNumbered(s1.deferred);
      DrainUndisturbed(prefix, hs + [h], s1, k);
      ConcatAssoc(hs, [h], Drain(prefix, s1).1);
    } else {
      assert hs + [] == hs;
    }
  }

  lemma StepsInv(prefix: string, s: State, e: Event)
    requires Inv(s)
    ensures Inv(StepOn(prefix, s, e).0)
  {
    StepOnSteps(prefix, s, e);
    hide StepOn, Inv;
  }

  lemma PushUndisturbed(prefix: string, hs: seq<Handled>, s: State, e: Event, k: int)
    requires Inv(s) && AllNumbered(s.deferred) && IsNumbered(e) && Undisturbed(prefix, hs, s, k)
    requires !e.Completed? && !e.Failed?
    ensures Undisturbed(prefix, hs + Push(prefix, s, e).1, Push(prefix, s, e).0, k)
  {
    if ShouldDefer(s, e) {
      RequeueUndisturbed(prefix, hs, s, s.deferred + [e], k);
      assert hs + [] == hs;
    } else {
      StepUndisturbed(prefix, hs, s, e, k);
      StepOnSteps(prefix, s, e);
      var (s1, h) := StepOn(prefix, s, e);
      assert s1.deferred == s.deferred;
      assert Push(prefix, s, e) == (Drain(prefix, s1).0, [h] + Drain(prefix, s1).1);
      assert Inv(s1);
      hide *;
      DrainUndisturbed(prefix, hs + [h], s1, k);
      ConcatAssoc(hs, [h], Drain(prefix, s1).1);
    }
  }

  /** At every point of a response that has not ended, for every item. */
  lemma {:induction false} EveryItemIsUndisturbed(prefix: string, calls: seq<Call>, k: int)
    requires Flowing(calls) && AllNumbered(Fed(calls))
    ensures Undisturbed(prefix, Run(prefix, calls).1, Run(prefix, calls).0, k)
    decreases |calls|
  {
    if calls == [] {
      assert Events([]) == [];
    } else {
      var init, call := calls[..|calls| - 1], calls[|calls| - 1];
      assert Flowing(init);
      assert Fed(init) == Fed(calls)[..|Fed(init)|] && Fed(calls)[|Fed(init)|] == call.event;
      EveryItemIsUndisturbed(prefix, init, k);
      EveryRunIsGrammatical(prefix, init);
      RunWorks(prefix, init);
      var (s, hs) := Run(prefix, init);
      hide Undisturbed, FollowAll, Inv, Working;
      PushUndisturbed(prefix, hs, s, call.event, k);
    }
  }

  /** Once everything is done: the item's content is that of its own events alone. */
  lemma ItemsAreIndependent(prefix: string, calls: seq<Call>, k: int)
    requires Flowing(calls) && AllNumbered(Fed(calls)) && AllDone(Fed(calls))
    ensures var own := Process(prefix, Select(Fed(calls), Some(k)));
            && Inner(Run(prefix, calls).0, k) == Inner(own.0, k)
            && (!IsMessage(own.0, k) ==> PiecesOf(Run(prefix, calls).1, k) == PiecesOf(own.1, k))
            && TextOf(Run(prefix, calls).1, k) + Pending(Run(prefix, calls).0, k) == Received(own.1, k)
            && IsBlank(Pending(Run(prefix, calls).0, k))
  {
    var (s, hs) := Run(prefix, calls);
    EveryItemIsUndisturbed(prefix, calls, k);
    ItemsKeepTheirOrder(prefix, calls, Some(k));
    AllDoneLeavesNothing(prefix, calls);
    TextIsConserved(prefix, calls, k);
    assert Select(Fed(calls), Some(k)) == Select(Events(hs), Some(k));
  }

  /**
   So two interleavings of the same items give the same content of every reasoning and tool item,
   and the same text of every message, up to the whitespace at its end that was held back.
   */
  lemma InterleavingDoesNotMatter(prefix: string, a: seq<Call>, b: seq<Call>, k: int)
    requires Flowing(a) && AllNumbered(Fed(a)) && AllDone(Fed(a))
    requires Flowing(b) && AllNumbered(Fed(b)) && AllDone(Fed(b))
    requires Select(Fed(a), Some(k)) == Select(Fed(b), Some(k))
    ensures var (s, hs) := Run(prefix, a);
            var (t, js) := Run(prefix, b);
            && (!IsMessage(s, k) ==> PiecesOf(hs, k) == PiecesOf(js, k))
            && TextOf(hs, k) + Pending(s, k) == TextOf(js, k) + Pending(t, k)
            && IsBlank(Pending(s, k)) && IsBlank(Pending(t, k))
  {
    ItemsAreIndependent(prefix, a, k);
    ItemsAreIndependent(prefix, b, k);
  }
}
