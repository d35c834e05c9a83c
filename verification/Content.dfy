/**
 Message text is conserved: through forced closes, reopened blocks and forced drains, what was
 emitted for a message item, followed by what it holds back, is the text that was processed for it.
 */
module Content {
  import opened Common
  import opened Translator
  import opened Grammar
  import opened GrammarRuns

  /** The text carried by a sequence of events. */
  function TextIn(outs: seq<Out>): string {
    if outs == [] then ""
    else (if outs[0].BlockDelta? && outs[0].delta.TextPart? then outs[0].delta.s else "") + TextIn(outs[1..])
  }

  /** The text emitted for item `k`. */
  function TextOf(hs: seq<Handled>, k: int): string {
    if hs == [] then ""
    else
      var h := hs[|hs| - 1];
      TextOf(hs[..|hs| - 1], k) + (if h.key == k then TextIn(h.out) else "")
  }

  function KindFor(kind: ItemKind): Option<Kind> {
    match kind
    case ReasoningItem => Some(Thinking)
    case MessageItem => Some(Message)
    case FunctionCallItem => Some(FunctionCall)
    case OtherItem => None
  }

  /** What item `k` was first announced as. */
  function AnnouncedAs(hs: seq<Handled>, k: int): Option<Kind> {
    if hs == [] then None
    else
      var h, before := hs[|hs| - 1], AnnouncedAs(hs[..|hs| - 1], k);
      if before.None? && h.event.ItemAdded? && h.key == k then KindFor(h.event.item.kind) else before
  }

  /** The text that was processed for message item `k` since it was announced. */
  function Received(hs: seq<Handled>, k: int): string {
    if hs == [] then ""
    else
      var h, init := hs[|hs| - 1], hs[..|hs| - 1];
      Received(init, k)
      + (if h.event.TextDelta? && h.key == k && AnnouncedAs(init, k) == Some(Message) then h.event.delta else "")
  }

  /** What message item `k` holds back. */
  function Pending(s: State, k: int): string {
    if k in s.blocks && s.blocks[k].kind == Message then s.blocks[k].pending else ""
  }

  predicate Conserved(hs: seq<Handled>, s: State, k: int) {
    && AnnouncedAs(hs, k) == (if k in s.blocks then Some(s.blocks[k].kind) else None)
    && TextOf(hs, k) + Pending(s, k) == Received(hs, k)
  }

  lemma TextInCons(o: Out, rest: seq<Out>)
    ensures TextIn([o] + rest) == (if o.BlockDelta? && o.delta.TextPart? then o.delta.s else "") + TextIn(rest)
  {
    assert ([o] + rest)[1..] == rest;
  }

  lemma {:induction false} TextInConcat(a: seq<Out>, b: seq<Out>)
    ensures TextIn(a + b) == TextIn(a) + TextIn(b)
    decreases |a|
  {
    hide TextIn;
    if a == [] {
      NoText();
      assert a + b == b && "" + TextIn(b) == TextIn(b);
    } else {
      TextInConcat(a[1..], b);
      assert a == [a[0]] + a[1..] && a + b == [a[0]] + (a[1..] + b);
      TextInCons(a[0], a[1..]);
      TextInCons(a[0], a[1..] + b);
      var own := if a[0].BlockDelta? && a[0].delta.TextPart? then a[0].delta.s else "";
      ConcatAssoc(own, TextIn(a[1..]), TextIn(b));
    }
  }

  lemma TextInOne(o: Out)
    ensures TextIn([o]) == if o.BlockDelta? && o.delta.TextPart? then o.delta.s else ""
  {
    assert [o][1..] == [];
  }

  lemma TextInTwo(o: Out, p: Out)
    ensures TextIn([o, p]) == TextIn([o]) + TextIn([p])
  {
    assert [o, p] == [o] + [p];
    TextInConcat([o], [p]);
  }

  lemma HeardSnoc(hs: seq<Handled>, h: Handled, k: int)
    ensures AnnouncedAs(hs + [h], k)
         == if AnnouncedAs(hs, k).None? && h.event.ItemAdded? && h.key == k then KindFor(h.event.item.kind)
            else AnnouncedAs(hs, k)
    ensures Received(hs + [h], k)
         == Received(hs, k) + (if h.event.TextDelta? && h.key == k && AnnouncedAs(hs, k) == Some(Message)
                               then h.event.delta else "")
  {
    assert (hs + [h])[..|hs|] == hs;
  }

  lemma TextOfSnoc(hs: seq<Handled>, h: Handled, k: int)
    ensures TextOf(hs + [h], k) == TextOf(hs, k) + (if h.key == k then TextIn(h.out) else "")
  {
    assert (hs + [h])[..|hs|] == hs;
  }

  lemma ConservedSnoc(hs: seq<Handled>, s: State, h: Handled, s1: State, k: int)
    requires Conserved(hs, s, k)
    requires h.event.ItemAdded? && h.key == k && k !in s.blocks
             ==> (if k in s1.blocks then Some(s1.blocks[k].kind) else None) == KindFor(h.event.item.kind)
    requires !(h.event.ItemAdded? && h.key == k && k !in s.blocks)
             ==> (k in s1.blocks <==> k in s.blocks) && (k in s.blocks ==> s1.blocks[k].kind == s.blocks[k].kind)
    requires (if h.key == k then TextIn(h.out) else "") + Pending(s1, k)
          == Pending(s, k) + (if h.event.TextDelta? && h.key == k && k in s.blocks && s.blocks[k].kind == Message
                              then h.event.delta else "")
    ensures Conserved(hs + [h], s1, k)
  {
    HeardSnoc(hs, h, k);
    TextOfSnoc(hs, h, k);
    hide TextIn, TextOf, Received, AnnouncedAs;
    var mine := if h.key == k then TextIn(h.out) else "";
    var heard := if h.event.TextDelta? && h.key == k && k in s.blocks && s.blocks[k].kind == Message
                 then h.event.delta else "";
    ConcatAssoc(TextOf(hs, k), mine, Pending(s1, k));
    ConcatAssoc(TextOf(hs, k), Pending(s, k), heard);
  }

  // One event

  /** What one event does to the text of item `k`. */
  ghost predicate Carries(s: State, h: Handled, s1: State, k: int) {
    && (h.event.ItemAdded? && h.key == k && k !in s.blocks
        ==> (if k in s1.blocks then Some(s1.blocks[k].kind) else None) == KindFor(h.event.item.kind))
    && (!(h.event.ItemAdded? && h.key == k && k !in s.blocks)
        ==> (k in s1.blocks <==> k in s.blocks) && (k in s.blocks ==> s1.blocks[k].kind == s.blocks[k].kind))
    && (if h.key == k then TextIn(h.out) else "") + Pending(s1, k)
       == Pending(s, k) + (if h.event.TextDelta? && h.key == k && k in s.blocks && s.blocks[k].kind == Message
                           then h.event.delta else "")
  }

  lemma CloseForOtherText(s: State, j: int)
    ensures var (s1, close) := CloseForOther(s, j);
            && TextIn(close) == "" && s1.blocks.Keys == s.blocks.Keys && (j in s.blocks ==> s1.blocks[j] == s.blocks[j])
            && forall k :: k in s.blocks ==>
                 s1.blocks[k].kind == s.blocks[k].kind && s1.blocks[k].pending == s.blocks[k].pending
  {
    var (s1, close) := CloseForOther(s, j);
    if close != [] {
      TextInOne(close[0]);
    }
  }

  lemma EnsureStartText(s: State)
    ensures TextIn(EnsureStart(s).1) == ""
  {
    TextInOne(MessageStart);
  }

  lemma OnItemAddedCarries(s: State, e: Event, k: int)
    requires e.ItemAdded?
    ensures var (s1, out) := OnItemAdded(s, KeyOf(s, e), e.item);
            Carries(s, Handled(e, KeyOf(s, e), out), s1, k)
  {
    hide KeyOf, TextIn, CloseForOther, ToolId;
    var j := KeyOf(s, e);
    if j !in s.blocks && e.item.kind == FunctionCallItem {
      ToolAddedCarries(s, e.item, j, k);
      hide OnItemAdded;
    } else {
      EnsureStartText(s);
    }
  }

  /** A new tool call changes no other block's text, and emits none. */
  lemma ToolAddedCarries(s: State, item: Item, j: int, k: int)
    requires j !in s.blocks && item.kind == FunctionCallItem
    ensures var (s1, out) := OnItemAdded(s, j, item);
            && TextIn(out) == ""
            && j in s1.blocks && s1.blocks[j].kind == FunctionCall
            && (k != j ==> SamePending(s.blocks, s1.blocks, k))
  {
    EnsureStartText(s);
    var (s0, start) := EnsureStart(s);
    CloseForOtherText(s0, j);
    var (s1, close) := CloseForOther(s0, j);
    var b := BlockStart(s1.nextIndex, ToolBlock(ToolId(item, s1.nextIndex), item.name));
    hide CloseForOther, TextIn, ToolId;
    ToolText(start, close, b);
  }

  lemma ToolText(start: seq<Out>, close: seq<Out>, b: Out)
    requires TextIn(start) == "" && TextIn(close) == "" && b.BlockStart?
    ensures TextIn(start + close + [b]) == ""
  {
    TextInConcat(start, close);
    TextInConcat(start + close, [b]);
    TextInOne(b);
    hide TextIn;
  }

  lemma OnTextDeltaCarries(s: State, e: Event, k: int)
    requires e.TextDelta?
    requires forall j :: j in s.blocks && s.blocks[j].isOpen ==> s.blocks[j].pending == ""
    ensures var (s1, out) := OnTextDelta(s, KeyOf(s, e), e.delta);
            Carries(s, Handled(e, KeyOf(s, e), out), s1, k)
  {
    hide KeyOf, CloseForOther, TextIn, IsBlank;
    var j := KeyOf(s, e);
    NoText();
    if j in s.blocks && s.blocks[j].kind == Message && e.delta != "" {
      var st := s.blocks[j];
      var pending := st.pending + e.delta;
      if st.isOpen {
        TextInOne(BlockDelta(st.blockIndex, TextPart(e.delta)));
        assert e.delta + "" == "" + e.delta;
      } else if !IsBlank(pending) {
        CloseForOtherText(s, j);
        var (s1, close) := CloseForOther(s, j);
        BegunText(close, BlockStart(s1.nextIndex, TextBlock), BlockDelta(s1.nextIndex, TextPart(pending)));
        assert pending + "" == pending;
      }
    }
  }

  lemma NoText()
    ensures TextIn([]) == ""
  {
  }

  /** The text of a block that begins. */
  lemma BegunText(close: seq<Out>, o: Out, p: Out)
    requires TextIn(close) == "" && o.BlockStart? && p.BlockDelta?
    ensures TextIn(close + [o, p]) == if p.delta.TextPart? then p.delta.s else ""
  {
    hide TextIn;
    TextInConcat(close, [o, p]);
    TextInTwo(o, p);
    TextInOne(o);
    TextInOne(p);
  }

  lemma OnSummaryDeltaCarries(s: State, e: Event, k: int)
    requires e.SummaryDelta?
    ensures var (s1, out) := OnSummaryDelta(s, KeyOf(s, e), e.delta);
            Carries(s, Handled(e, KeyOf(s, e), out), s1, k)
  {
    hide KeyOf, CloseForOther, TextIn, IsBlank;
    var j := KeyOf(s, e);
    NoText();
    if j in s.blocks && s.blocks[j].kind == Thinking {
      var st := s.blocks[j];
      var pending := st.pending + e.delta;
      if st.isOpen {
        TextInOne(BlockDelta(st.blockIndex, ThinkingPart(e.delta)));
      } else {
        CloseForOtherText(s, j);
        var (s1, close) := CloseForOther(s, j);
        BegunText(close, BlockStart(s1.nextIndex, ThinkingBlock), BlockDelta(s1.nextIndex, ThinkingPart(pending)));
        assert close + [] == close;
      }
    }
  }

  lemma OnArgsDeltaCarries(s: State, e: Event, k: int)
    requires e.ArgsDelta?
    ensures var (s1, out) := OnArgsDelta(s, KeyOf(s, e), e.delta);
            Carries(s, Handled(e, KeyOf(s, e), out), s1, k)
  {
    var j := KeyOf(s, e);
    if j in s.blocks {
      TextInOne(BlockDelta(s.blocks[j].blockIndex, JsonPart(e.delta)));
    }
  }

  /** Content that is not text, if there is any, and the stop of its block. */
  lemma StopText(i: int, d: Option<Delta>)
    requires d.Some? ==> !d.value.TextPart?
    ensures TextIn((if d.None? then [] else [BlockDelta(i, d.value)]) + [BlockStop(i)]) == ""
  {
    TextInOne(BlockStop(i));
    if d.Some? {
      TextInConcat([BlockDelta(i, d.value)], [BlockStop(i)]);
      TextInOne(BlockDelta(i, d.value));
    } else {
      assert [] + [BlockStop(i)] == [BlockStop(i)];
    }
  }

  lemma OnThinkingDoneText(prefix: string, s: State, j: int, item: Item)
    requires j in s.blocks
    ensures TextIn(OnThinkingDone(prefix, s, j, item).1) == ""
  {
    var st, blob := s.blocks[j], ReasoningBlob(prefix, item);
    hide ReasoningBlob, SetBlock, Release, IsBlank;
    if st.isOpen {
      StopText(st.blockIndex, if blob == "" then None else Some(SignaturePart(blob)));
      hide TextIn;
    } else if blob != "" {
      CloseForOtherText(s, j);
      var (s1, close) := CloseForOther(s, j);
      hide TextIn, CloseForOther;
      RedactedText(close, s1.nextIndex, blob);
    }
  }

  /** Item `k` is the same kind of block in both, with the same text held back. */
  predicate SamePending(a: map<int, BlockState>, b: map<int, BlockState>, k: int) {
    && (k in b <==> k in a)
    && (k in a ==> b[k].kind == a[k].kind && (a[k].kind == Message ==> b[k].pending == a[k].pending))
  }

  lemma QuietBlock(s: State, j: int, st: BlockState, k: int)
    requires j in s.blocks && s.blocks[j].kind == Thinking && st.kind == Thinking
    ensures SamePending(s.blocks, SetBlock(s, j, st).blocks, k)
  {
  }

  lemma ReleaseKeepsBlocks(s: State, k: int)
    ensures Release(s, k).blocks == s.blocks
  {
  }

  lemma OnThinkingDoneCarries(prefix: string, s: State, j: int, item: Item, k: int)
    requires j in s.blocks && s.blocks[j].kind == Thinking
    ensures var (s1, out) := OnThinkingDone(prefix, s, j, item);
            TextIn(out) == "" && SamePending(s.blocks, s1.blocks, k)
  {
    OnThinkingDoneText(prefix, s, j, item);
    var st, blob := s.blocks[j], ReasoningBlob(prefix, item);
    CloseForOtherText(s, j);
    hide ReasoningBlob, TextIn, CloseForOther, SetBlock, Release;
    if st.isOpen {
      QuietBlock(s, j, st.(isOpen := false, pending := ""), k);
      ReleaseKeepsBlocks(SetBlock(s, j, st.(isOpen := false, pending := "")), j);
    } else if blob != "" {
      var s1 := CloseForOther(s, j).0;
      var i := s1.nextIndex;
      QuietBlock(s1, j, st.(blockIndex := i, pending := ""), k);
      ReleaseKeepsBlocks(SetBlock(s1, j, st.(blockIndex := i, pending := "")).(nextIndex := i + 1), j);
    } else {
      QuietBlock(s, j, st.(pending := ""), k);
      ReleaseKeepsBlocks(SetBlock(s, j, st.(pending := "")), j);
    }
  }

  lemma RedactedText(close: seq<Out>, i: int, blob: string)
    ensures TextIn(close + [BlockStart(i, RedactedBlock(blob)), BlockStop(i)]) == TextIn(close)
  {
    var o, p := BlockStart(i, RedactedBlock(blob)), BlockStop(i);
    TextInConcat(close, [o, p]);
    TextInTwo(o, p);
    TextInOne(o);
    TextInOne(p);
  }

  lemma OnItemDoneCarries(prefix: string, s: State, e: Event, k: int)
    requires e.ItemDone?
    ensures var (s1, out) := OnItemDone(prefix, s, KeyOf(s, e), e.item);
            Carries(s, Handled(e, KeyOf(s, e), out), s1, k)
  {
    hide KeyOf, OnThinkingDone, ArgsTail, TextIn;
    var j := KeyOf(s, e);
    NoText();
    if j in s.blocks {
      var st := s.blocks[j];
      if st.kind == Thinking {
        OnThinkingDoneCarries(prefix, s, j, e.item, k);
      } else {
        var tail := if st.kind == FunctionCall then ArgsTail(st.argsSent, e.item.arguments) else "";
        StopText(st.blockIndex, if tail == "" then None else Some(JsonPart(tail)));
      }
    }
  }

  lemma StepOnCarries(prefix: string, s: State, e: Event, k: int)
    requires Inv(s)
    ensures var (s1, h) := StepOn(prefix, s, e);
            Carries(s, h, s1, k)
  {
    match e {
      case Created => EnsureStartText(s);
      case ItemAdded(_, _) => OnItemAddedCarries(s, e, k);
      case TextDelta(_, _) =>
        assert forall j :: j in s.blocks ==> BlockOk(s, j, s.blocks[j]);
        OnTextDeltaCarries(s, e, k);
      case SummaryDelta(_, _) => OnSummaryDeltaCarries(s, e, k);
      case ArgsDelta(_, _) => OnArgsDeltaCarries(s, e, k);
      case ItemDone(_, _) => OnItemDoneCarries(prefix, s, e, k);
      case _ =>
    }
  }

  // Runs

  lemma StepOnConserves(prefix: string, hs: seq<Handled>, s: State, e: Event, k: int)
    requires Inv(s) && Conserved(hs, s, k)
    ensures var (s1, h) := StepOn(prefix, s, e);
            Conserved(hs + [h], s1, k)
  {
    StepOnCarries(prefix, s, e, k);
    var (s1, h) := StepOn(prefix, s, e);
    hide StepOn, Inv;
    ConservedSnoc(hs, s, h, s1, k);
  }

  lemma RequeueConserves(hs: seq<Handled>, s: State, q: seq<Event>, k: int)
    requires Conserved(hs, s, k)
    ensures Conserved(hs, s.(deferred := q), k)
  {
  }

  lemma {:induction false} DrainConserves(prefix: string, hs: seq<Handled>, s: State, k: int)
    requires Inv(s) && Conserved(hs, s, k)
    ensures Conserved(hs + Drain(prefix, s).1, Drain(prefix, s).0, k)
    decreases |s.deferred|
  {
    var i := FirstReady(s, s.deferred);
    if i < |s.deferred| {
      var e, s0 := s.deferred[i], Without(s, i);
      RequeueGoes(s, s0.deferred);
      RequeueConserves(hs, s, s0.deferred, k);
      StepOnConserves(prefix, hs, s0, e, k);
      StepOnSteps(prefix, s0, e);
      var (s1, h) := StepOn(prefix, s0, e);
      assert Drain(prefix, s) == (Drain(prefix, s1).0, [h] + Drain(prefix, s1).1);
      hide *;
      DrainConserves(prefix, hs + [h], s1, k);
      ConcatAssoc(hs, [h], Drain(prefix, s1).1);
    } else {
      assert hs + [] == hs;
    }
  }

  lemma {:induction false} ForceDrainConserves(prefix: string, hs: seq<Handled>, s: State, k: int)
    requires Inv(s) && Conserved(hs, s, k)
    ensures Conserved(hs + ForceDrain(prefix, s).1, ForceDrain(prefix, s).0, k)
    decreases |s.deferred|
  {
    if s.deferred != [] {
      var e, s0 := s.deferred[0], Without(s, 0);
      RequeueGoes(s, s0.deferred);
      RequeueConserves(hs, s, s0.deferred, k);
      StepOnConserves(prefix, hs, s0, e, k);
      StepOnSteps(prefix, s0, e);
      var (s1, h) := StepOn(prefix, s0, e);
      assert ForceDrain(prefix, s) == (ForceDrain(prefix, s1).0, [h] + ForceDrain(prefix, s1).1);
      hide *;
      ForceDrainConserves(prefix, hs + [h], s1, k);
      ConcatAssoc(hs, [h], ForceDrain(prefix, s1).1);
    } else {
      assert hs + [] == hs;
    }
  }

  lemma {:induction false} CloseListedText(s: State, keys: seq<int>, k: int)
    ensures var (s1, out) := CloseListed(s, keys);
            && TextIn(out) == ""
            && (k in s1.blocks <==> k in s.blocks)
            && (k in s.blocks ==> s1.blocks[k].kind == s.blocks[k].kind && s1.blocks[k].pending == s.blocks[k].pending)
    decreases |keys|
  {
    if keys != [] {
      var j := keys[0];
      if j in s.blocks && s.blocks[j].isOpen && s.blocks[j].blockIndex >= 0 {
        var s0 := SetBlock(s, j, s.blocks[j].(isOpen := false));
        CloseListedText(s0, keys[1..], k);
        var stop := BlockStop(s.blocks[j].blockIndex);
        TextInConcat([stop], CloseListed(s0, keys[1..]).1);
        TextInOne(stop);
      } else {
        CloseListedText(s, keys[1..], k);
      }
    }
  }

  /** The end of the response carries no text. */
  lemma EndConserves(hs: seq<Handled>, s: State, e: Event, end: seq<Out>, k: int)
    requires Conserved(hs, s, k) && TextIn(end) == "" && !IsDeferrable(e)
    ensures Conserved(hs + [Handled(e, -1, CloseAll(s).1 + end)], CloseAll(s).0.(finished := true), k)
  {
    CloseListedText(s, s.order, k);
    var (s1, close) := CloseAll(s);
    TextInConcat(close, end);
    hide CloseListed, TextIn, Conserved;
    ConservedSnoc(hs, s, Handled(e, -1, close + end), s1.(finished := true), k);
  }

  lemma EmitFailureConserves(prefix: string, hs: seq<Handled>, s: State, message: string, k: int)
    requires Inv(s) && Conserved(hs, s, k)
    ensures Conserved(hs + EmitFailure(prefix, s, message).1, EmitFailure(prefix, s, message).0, k)
  {
    ForceDrainConserves(prefix, hs, s, k);
    var (s1, drained) := ForceDrain(prefix, s);
    TextInOne(Failure(message));
    var last := Handled(Event.Failed(message), -1, CloseAll(s1).1 + [Failure(message)]);
    assert EmitFailure(prefix, s, message) == (CloseAll(s1).0.(finished := true), drained + [last]);
    assert !IsDeferrable(Event.Failed(message));
    hide *;
    EndConserves(hs + drained, s1, Event.Failed(message), [Failure(message)], k);
    ConcatAssoc(hs, drained, [last]);
  }

  lemma OnCompletedConserves(prefix: string, hs: seq<Handled>, s: State, truncated: bool, k: int)
    requires Inv(s) && Conserved(hs, s, k) && !s.finished
    ensures Conserved(hs + OnCompleted(prefix, s, truncated).1, OnCompleted(prefix, s, truncated).0, k)
  {
    EnsureStartSteps(s, -1);
    EnsureStartText(s);
    var (s1, start) := EnsureStart(s);
    var e := Completed(truncated);
    ConservedSnoc(hs, s, Handled(e, -1, start), s1, k);
    ForceDrainConserves(prefix, hs + [Handled(e, -1, start)], s1, k);
    var (s2, drained) := ForceDrain(prefix, s1);
    var end := [MessageDelta(StopReason(CloseAll(s2).0, truncated)), MessageStop];
    TextInTwo(end[0], end[1]);
    TextInOne(end[0]);
    TextInOne(end[1]);
    var first, last := Handled(e, -1, start), Handled(e, -1, CloseAll(s2).1 + end);
    assert OnCompleted(prefix, s, truncated) == (CloseAll(s2).0.(finished := true), [first] + drained + [last]);
    hide *;
    EndConserves(hs + [first] + drained, s2, e, end, k);
    ConcatAssoc(hs, [first], drained);
    ConcatAssoc(hs, [first] + drained, [last]);
  }

  /** What handles an event that is not deferred. */
  lemma HandledAs(prefix: string, s: State, e: Event)
    ensures HandleEvent(prefix, s, e)
         == if (e.Completed? || e.Failed?) && s.finished then (s, [])
            else match e
                 case Completed(truncated) => OnCompleted(prefix, s, truncated)
                 case Failed(message) => EmitFailure(prefix, s, message)
                 case _ => (StepOn(prefix, s, e).0, [StepOn(prefix, s, e).1])
  {
  }

  lemma HandleEventConserves(prefix: string, hs: seq<Handled>, s: State, e: Event, k: int)
    requires Inv(s) && Conserved(hs, s, k)
    ensures Conserved(hs + HandleEvent(prefix, s, e).1, HandleEvent(prefix, s, e).0, k)
  {
    hide HandleEvent, Conserved, Inv;
    HandledAs(prefix, s, e);
    if (e.Completed? || e.Failed?) && s.finished {
      assert hs + [] == hs;
    } else {
      match e {
        case Completed(truncated) => OnCompletedConserves(prefix, hs, s, truncated, k);
        case Failed(message) => EmitFailureConserves(prefix, hs, s, message, k);
        case _ => StepOnConserves(prefix, hs, s, e, k);
      }
    }
  }

  lemma PushConserves(prefix: string, hs: seq<Handled>, s: State, e: Event, k: int)
    requires Inv(s) && Conserved(hs, s, k)
    ensures Conserved(hs + Push(prefix, s, e).1, Push(prefix, s, e).0, k)
  {
    if ShouldDefer(s, e) {
      RequeueConserves(hs, s, s.deferred + [e], k);
      assert hs + [] == hs;
    } else {
      HandleEventConserves(prefix, hs, s, e, k);
      HandleEventGoes(prefix, s, e);
      var (s1, more) := HandleEvent(prefix, s, e);
      assert Push(prefix, s, e) == (Drain(prefix, s1).0, more + Drain(prefix, s1).1);
      hide *;
      DrainConserves(prefix, hs + more, s1, k);
      ConcatAssoc(hs, more, Drain(prefix, s1).1);
    }
  }

  lemma FailConserves(prefix: string, hs: seq<Handled>, s: State, message: string, k: int)
    requires Inv(s) && Conserved(hs, s, k)
    ensures Conserved(hs + Fail(prefix, s, message).1, Fail(prefix, s, message).0, k)
  {
    if s.finished {
      assert hs + [] == hs;
    } else {
      EmitFailureConserves(prefix, hs, s, message, k);
    }
  }

  /**
   For every item of every run: the text emitted for it, followed by what is held back, is the text
   processed for it as a message, and only whitespace is held back.
   */
  lemma {:induction false} TextIsConserved(prefix: string, calls: seq<Call>, k: int)
    ensures var (s, hs) := Run(prefix, calls);
            && TextOf(hs, k) + Pending(s, k) == Received(hs, k) && IsBlank(Pending(s, k))
            && Conserved(hs, s, k)
    decreases |calls|
  {
    if calls != [] {
      var init, call := calls[..|calls| - 1], calls[|calls| - 1];
      TextIsConserved(prefix, init, k);
      EveryRunIsGrammatical(prefix, init);
      var (s, hs) := Run(prefix, init);
      hide Conserved, FollowAll;
      match call {
        case Feed(e) => PushConserves(prefix, hs, s, e, k);
        case Abort(message) => FailConserves(prefix, hs, s, message, k);
        case End => FailConserves(prefix, hs, s, TRUNCATED, k);
      }
    }
    PendingIsBlank(prefix, calls, k);
  }

  lemma PendingIsBlank(prefix: string, calls: seq<Call>, k: int)
    ensures IsBlank(Pending(Run(prefix, calls).0, k))
  {
    EveryRunIsGrammatical(prefix, calls);
    var s := Run(prefix, calls).0;
    assert k in s.blocks ==> BlockOk(s, k, s.blocks[k]);
  }
}
