/** Why a message stops, told from the plain list of events that the client sees. */
module StopReasons {
  import opened Common
  import opened Translator
  import opened StreamOrder
  import opened Collector
  import opened CollectorTheorems

  /** A tool call was started. */
  predicate ToolStarted(outs: seq<Out>) {
    exists i :: 0 <= i < |outs| && outs[i].BlockStart? && outs[i].block.ToolBlock?
  }

  predicate NoReason(outs: seq<Out>) {
    forall i :: 0 <= i < |outs| ==> !outs[i].MessageDelta?
  }

  /** What a message that is complete says about why it stops. */
  function Told(truncated: bool, tools: bool): string {
    if truncated then "max_tokens" else if tools then "tool_use" else "end_turn"
  }

  /** From `s` to `s1` while `outs` was emitted: the state knows whether a tool call was started. */
  predicate Tells(s: State, outs: seq<Out>, s1: State) {
    NoReason(outs) && (s1.hasToolUse <==> s.hasToolUse || ToolStarted(outs))
  }

  lemma StartedConcat(a: seq<Out>, b: seq<Out>)
    ensures ToolStarted(a + b) <==> ToolStarted(a) || ToolStarted(b)
  {
    if i :| 0 <= i < |a| && a[i].BlockStart? && a[i].block.ToolBlock? {
      assert (a + b)[i] == a[i];
    }
    if i :| 0 <= i < |b| && b[i].BlockStart? && b[i].block.ToolBlock? {
      assert (a + b)[|a| + i] == b[i];
    }
  }

  lemma TellsConcat(s: State, a: seq<Out>, s1: State, b: seq<Out>, s2: State)
    requires Tells(s, a, s1) && Tells(s1, b, s2)
    ensures Tells(s, a + b, s2)
  {
    hide ToolStarted;
    StartedConcat(a, b);
  }

  lemma TellsNothing(s: State, s1: State)
    requires s1.hasToolUse == s.hasToolUse
    ensures Tells(s, [], s1)
  {
  }

  predicate IsTool(o: Out) {
    o.BlockStart? && o.block.ToolBlock?
  }

  lemma TellsOne(s: State, o: Out, s1: State)
    requires !o.MessageDelta? && (s1.hasToolUse <==> s.hasToolUse || IsTool(o))
    ensures Tells(s, [o], s1)
  {
    assert IsTool(o) ==> ToolStarted([o]) by { assert [o][0] == o; }
  }

  lemma TellsTwo(s: State, o: Out, p: Out, s1: State)
    requires !o.MessageDelta? && !p.MessageDelta? && !IsTool(o) && !IsTool(p) && s1.hasToolUse == s.hasToolUse
    ensures Tells(s, [o, p], s1)
  {
    hide Tells;
    TellsOne(s, o, s);
    TellsOne(s, p, s1);
    TellsConcat(s, [o], s, [p], s1);
    assert [o] + [p] == [o, p];
  }

  // One event

  lemma CloseTells(s: State, k: int)
    ensures Tells(s, CloseForOther(s, k).1, CloseForOther(s, k).0)
  {
    hide Tells;
    var (s1, close) := CloseForOther(s, k);
    if close == [] {
      TellsNothing(s, s1);
    } else {
      TellsOne(s, close[0], s1);
    }
  }

  lemma StartTells(s: State)
    ensures Tells(s, EnsureStart(s).1, EnsureStart(s).0)
  {
    hide Tells;
    TellsNothing(s, s);
    TellsOne(s, MessageStart, EnsureStart(s).0);
  }

  /** The start of a block after what had to be closed. */
  lemma BeginTells(s: State, k: int, o: Out, p: Out, s1: State)
    requires !o.MessageDelta? && !p.MessageDelta? && !IsTool(o) && !IsTool(p)
    requires s1.hasToolUse == CloseForOther(s, k).0.hasToolUse
    ensures Tells(s, CloseForOther(s, k).1 + [o, p], s1)
  {
    hide Tells, CloseForOther;
    CloseTells(s, k);
    TellsTwo(CloseForOther(s, k).0, o, p, s1);
    TellsConcat(s, CloseForOther(s, k).1, CloseForOther(s, k).0, [o, p], s1);
  }

  lemma AddedTells(s: State, k: int, item: Item)
    ensures Tells(s, OnItemAdded(s, k, item).1, OnItemAdded(s, k, item).0)
  {
    hide Tells, CloseForOther, ToolId, IsTool;
    StartTells(s);
    var (s0, start) := EnsureStart(s);
    if k !in s0.blocks && item.kind == FunctionCallItem {
      CloseTells(s0, k);
      var (s1, close) := CloseForOther(s0, k);
      var o := BlockStart(s1.nextIndex, ToolBlock(ToolId(item, s1.nextIndex), item.name));
      var s2 := OnItemAdded(s, k, item).0;
      ToolTells(s1, o, s2);
      TellsConcat(s, start, s0, close, s1);
      TellsConcat(s, start + close, s1, [o], s2);
    } else {
      TellsNothing(s0, OnItemAdded(s, k, item).0);
      TellsConcat(s, start, s0, [], OnItemAdded(s, k, item).0);
      assert start + [] == start;
    }
  }

  lemma ToolTells(s: State, o: Out, s1: State)
    requires o.BlockStart? && o.block.ToolBlock? && s1.hasToolUse
    ensures Tells(s, [o], s1)
  {
    TellsOne(s, o, s1);
  }

  lemma TextTells(s: State, k: int, delta: string)
    ensures Tells(s, OnTextDelta(s, k, delta).1, OnTextDelta(s, k, delta).0)
  {
    hide Tells, CloseForOther, IsBlank;
    var (s1, out) := OnTextDelta(s, k, delta);
    if k !in s.blocks || s.blocks[k].kind != Message || delta == "" {
      TellsNothing(s, s1);
    } else if s.blocks[k].isOpen {
      TellsOne(s, out[0], s1);
    } else if IsBlank(s.blocks[k].pending + delta) {
      TellsNothing(s, s1);
    } else {
      var i := CloseForOther(s, k).0.nextIndex;
      BeginTells(s, k, BlockStart(i, TextBlock), BlockDelta(i, TextPart(s.blocks[k].pending + delta)), s1);
    }
  }

  lemma SummaryTells(s: State, k: int, delta: string)
    ensures Tells(s, OnSummaryDelta(s, k, delta).1, OnSummaryDelta(s, k, delta).0)
  {
    hide Tells, CloseForOther, IsBlank;
    var (s1, out) := OnSummaryDelta(s, k, delta);
    TellsNothing(s, s);
    if k in s.blocks && s.blocks[k].kind == Thinking {
      if s.blocks[k].isOpen {
        if delta != "" {
          TellsOne(s, out[0], s1);
        }
      } else if IsBlank(s.blocks[k].pending + delta) {
        CloseTells(s, k);
        TellsNothing(CloseForOther(s, k).0, s1);
        TellsConcat(s, CloseForOther(s, k).1, CloseForOther(s, k).0, [], s1);
        assert CloseForOther(s, k).1 + [] == CloseForOther(s, k).1;
      } else {
        var i := CloseForOther(s, k).0.nextIndex;
        BeginTells(s, k, BlockStart(i, ThinkingBlock), BlockDelta(i, ThinkingPart(s.blocks[k].pending + delta)), s1);
      }
    }
  }

  lemma ArgsTells(s: State, k: int, delta: string)
    ensures Tells(s, OnArgsDelta(s, k, delta).1, OnArgsDelta(s, k, delta).0)
  {
    hide Tells;
    var (s1, out) := OnArgsDelta(s, k, delta);
    if out == [] {
      TellsNothing(s, s1);
    } else {
      TellsOne(s, out[0], s1);
    }
  }

  /** The stop of a block after what was left to say, if anything. */
  lemma EndTells(s: State, last: seq<Out>, stop: Out, s1: State)
    requires stop.BlockStop? && (last == [] || (|last| == 1 && last[0].BlockDelta?)) && s1.hasToolUse == s.hasToolUse
    ensures Tells(s, last + [stop], s1)
  {
    hide Tells;
    if last == [] {
      TellsOne(s, stop, s1);
      assert last + [stop] == [stop];
    } else {
      TellsTwo(s, last[0], stop, s1);
      assert last + [stop] == [last[0], stop];
    }
  }

  lemma ThinkingDoneTells(prefix: string, s: State, k: int, item: Item)
    requires k in s.blocks
    ensures Tells(s, OnThinkingDone(prefix, s, k, item).1, OnThinkingDone(prefix, s, k, item).0)
  {
    hide Tells, CloseForOther, ReasoningBlob;
    var (s1, out) := OnThinkingDone(prefix, s, k, item);
    var st, blob := s.blocks[k], ReasoningBlob(prefix, item);
    if st.isOpen {
      EndTells(s, if blob == "" then [] else [BlockDelta(st.blockIndex, SignaturePart(blob))],
               BlockStop(st.blockIndex), s1);
    } else if blob != "" {
      var i := CloseForOther(s, k).0.nextIndex;
      BeginTells(s, k, BlockStart(i, RedactedBlock(blob)), BlockStop(i), s1);
    } else {
      TellsNothing(s, s1);
    }
  }

  lemma DoneTells(prefix: string, s: State, k: int, item: Item)
    ensures Tells(s, OnItemDone(prefix, s, k, item).1, OnItemDone(prefix, s, k, item).0)
  {
    hide Tells, OnThinkingDone, ArgsTail;
    var (s1, out) := OnItemDone(prefix, s, k, item);
    TellsNothing(s, s);
    if k in s.blocks {
      var st := s.blocks[k];
      if st.kind == Thinking {
        ThinkingDoneTells(prefix, s, k, item);
      } else if st.isOpen {
        var tail := if st.kind == FunctionCall then ArgsTail(st.argsSent, item.arguments) else "";
        EndTells(s, if tail == "" then [] else [BlockDelta(st.blockIndex, JsonPart(tail))],
                 BlockStop(st.blockIndex), s1);
      }
    }
  }

  lemma StepOnTells(prefix: string, s: State, e: Event)
    ensures Tells(s, StepOn(prefix, s, e).1.out, StepOn(prefix, s, e).0)
  {
    hide Tells, OnItemAdded, OnTextDelta, OnSummaryDelta, OnArgsDelta, OnItemDone, EnsureStart, KeyOf;
    var k := KeyOf(s, e);
    match e {
      case Created => StartTells(s);
      case ItemAdded(_, item) => AddedTells(s, k, item);
      case TextDelta(_, delta) => TextTells(s, k, delta);
      case SummaryDelta(_, delta) => SummaryTells(s, k, delta);
      case ArgsDelta(_, delta) => ArgsTells(s, k, delta);
      case ItemDone(_, item) => DoneTells(prefix, s, k, item);
      case _ => TellsNothing(s, s);
    }
  }

  // The queue

  lemma FlattenOne(h: Handled, hs: seq<Handled>)
    ensures Flatten([h]) == h.out && Flatten([h] + hs) == h.out + Flatten(hs)
  {
    assert [] + [h] == [h] && [] + h.out == h.out;
    FlattenSnoc([], h);
    FlattenConcat([h], hs);
  }

  lemma SameTools(s: State, t: State, outs: seq<Out>, s1: State)
    requires Tells(t, outs, s1) && t.hasToolUse == s.hasToolUse
    ensures Tells(s, outs, s1)
  {
  }

  lemma {:induction false} DrainTells(prefix: string, s: State)
    ensures Tells(s, Flatten(Drain(prefix, s).1), Drain(prefix, s).0)
    decreases |s.deferred|
  {
    hide Tells, Drain, StepOn, FirstReady, ShouldDefer, Flatten;
    DrainUnfolds(prefix, s);
    var i := FirstReady(s, s.deferred);
    if i < |s.deferred| {
      var (s1, h) := StepOn(prefix, Without(s, i), s.deferred[i]);
      StepOnTells(prefix, Without(s, i), s.deferred[i]);
      SameTools(s, Without(s, i), h.out, s1);
      DrainTells(prefix, s1);
      FlattenOne(h, Drain(prefix, s1).1);
      TellsConcat(s, h.out, s1, Flatten(Drain(prefix, s1).1), Drain(prefix, s1).0);
    } else {
      NothingFlat();
      TellsNothing(s, s);
    }
  }

  lemma NothingFlat()
    ensures Flatten([]) == []
  {
  }

  lemma {:induction false} ForceDrainTells(prefix: string, s: State)
    ensures Tells(s, Flatten(ForceDrain(prefix, s).1), ForceDrain(prefix, s).0)
    decreases |s.deferred|
  {
    hide Tells, ForceDrain, StepOn, Flatten;
    ForceDrainUnfolds(prefix, s);
    if s.deferred != [] {
      var (s1, h) := StepOn(prefix, Without(s, 0), s.deferred[0]);
      StepOnTells(prefix, Without(s, 0), s.deferred[0]);
      SameTools(s, Without(s, 0), h.out, s1);
      ForceDrainTells(prefix, s1);
      FlattenOne(h, ForceDrain(prefix, s1).1);
      TellsConcat(s, h.out, s1, Flatten(ForceDrain(prefix, s1).1), ForceDrain(prefix, s1).0);
    } else {
      NothingFlat();
      TellsNothing(s, s);
    }
  }

  // The end

  lemma {:induction false} CloseListedTells(s: State, keys: seq<int>)
    ensures Tells(s, CloseListed(s, keys).1, CloseListed(s, keys).0)
    decreases |keys|
  {
    hide Tells;
    if keys == [] {
      TellsNothing(s, s);
    } else if keys[0] in s.blocks && s.blocks[keys[0]].isOpen && s.blocks[keys[0]].blockIndex >= 0 {
      var k := keys[0];
      var s1 := SetBlock(s, k, s.blocks[k].(isOpen := false));
      CloseListedTells(s1, keys[1..]);
      TellsOne(s, BlockStop(s.blocks[k].blockIndex), s1);
      TellsConcat(s, [BlockStop(s.blocks[k].blockIndex)], s1,
                  CloseListed(s1, keys[1..]).1, CloseListed(s1, keys[1..]).0);
    } else {
      CloseListedTells(s, keys[1..]);
    }
  }

  lemma CloseAllTells(s: State)
    ensures Tells(s, CloseAll(s).1, CloseAll(s).0)
  {
    hide Tells, CloseListed;
    CloseListedTells(s, s.order);
    var (s1, out) := CloseListed(s, s.order);
    TellsNothing(s1, s1.(open := None));
    TellsConcat(s, out, s1, [], s1.(open := None));
    assert out + [] == out;
  }

  /** What a failure emits. */
  lemma FailureTells(prefix: string, s: State, message: string)
    ensures Tells(s, Flatten(EmitFailure(prefix, s, message).1), EmitFailure(prefix, s, message).0)
  {
    hide Tells, ForceDrain, CloseAll, Flatten;
    var (s1, drained) := ForceDrain(prefix, s);
    var (s2, close) := CloseAll(s1);
    var s3 := s2.(finished := true);
    ForceDrainTells(prefix, s);
    CloseAllTells(s1);
    FlattenSnoc(drained, Handled(Event.Failed(message), -1, close + [Failure(message)]));
    TellsOne(s2, Failure(message), s3);
    TellsConcat(s1, close, s2, [Failure(message)], s3);
    TellsConcat(s, Flatten(drained), s1, close + [Failure(message)], s3);
  }

  /** What the completion emits: `before`, and then why the message stops. */
  lemma CompletedTells(prefix: string, s: State, truncated: bool) returns (before: seq<Out>)
    requires !s.finished
    ensures var (s1, hs) := OnCompleted(prefix, s, truncated);
            && Tells(s, before, s1) && s1.deferred == []
            && Flatten(hs) == before + [MessageDelta(Told(truncated, s1.hasToolUse)), MessageStop]
  {
    hide Tells, ForceDrain, CloseAll, Flatten, EnsureStart;
    var (s1, start) := EnsureStart(s);
    var (s2, drained) := ForceDrain(prefix, s1);
    var (s3, close) := CloseAll(s2);
    StartTells(s);
    ForceDrainTells(prefix, s1);
    CloseAllTells(s2);
    CloseAllKeepsQueue(s2);
    before := start + Flatten(drained) + close;
    TellsConcat(s, start, s1, Flatten(drained), s2);
    TellsConcat(s, start + Flatten(drained), s2, close, s3);
    SameAtTheEnd(s, before, s3);
    var first := Handled(Completed(truncated), -1, start);
    var end := [MessageDelta(StopReason(s3, truncated)), MessageStop];
    FlattenOne(first, drained);
    FlattenSnoc([first] + drained, Handled(Completed(truncated), -1, close + end));
    ConcatAssoc(start + Flatten(drained), close, end);
  }

  lemma CloseAllKeepsQueue(s: State)
    requires s.deferred == []
    ensures CloseAll(s).0.deferred == []
  {
  }

  lemma SameAtTheEnd(s: State, outs: seq<Out>, s1: State)
    requires Tells(s, outs, s1)
    ensures Tells(s, outs, s1.(finished := true))
  {
  }

  // Runs

  /** An event that is not the completion. */
  lemma PushTells(prefix: string, s: State, e: Event)
    requires !e.Completed? || s.finished
    ensures Tells(s, Flatten(Push(prefix, s, e).1), Push(prefix, s, e).0)
  {
    hide Tells, Drain, StepOn, Flatten, EmitFailure, ShouldDefer;
    NothingFlat();
    if ShouldDefer(s, e) {
      TellsNothing(s, s.(deferred := s.deferred + [e]));
    } else {
      HandleTells(prefix, s, e);
      hide HandleEvent;
      var (s1, hs) := HandleEvent(prefix, s, e);
      DrainTells(prefix, s1);
      FlattenConcat(hs, Drain(prefix, s1).1);
      TellsConcat(s, Flatten(hs), s1, Flatten(Drain(prefix, s1).1), Drain(prefix, s1).0);
    }
  }

  lemma HandleTells(prefix: string, s: State, e: Event)
    requires !e.Completed? || s.finished
    ensures Tells(s, Flatten(HandleEvent(prefix, s, e).1), HandleEvent(prefix, s, e).0)
  {
    hide Tells, StepOn, Flatten, EmitFailure;
    NothingFlat();
    TellsNothing(s, s);
    if e.Failed? {
      FailureTells(prefix, s, e.message);
    } else if !e.Completed? {
      StepOnTells(prefix, s, e);
      FlattenOne(StepOn(prefix, s, e).1, []);
    }
  }

  lemma FailTells(prefix: string, s: State, message: string)
    ensures Tells(s, Flatten(Fail(prefix, s, message).1), Fail(prefix, s, message).0)
  {
    hide Tells, Flatten, EmitFailure;
    NothingFlat();
    TellsNothing(s, s);
    FailureTells(prefix, s, message);
  }

  /** The completion of a response that goes on. */
  lemma CompletionTells(prefix: string, s: State, truncated: bool) returns (before: seq<Out>)
    requires !s.finished
    ensures var (s1, hs) := Push(prefix, s, Completed(truncated));
            && Tells(s, before, s1)
            && Flatten(hs) == before + [MessageDelta(Told(truncated, s1.hasToolUse)), MessageStop]
  {
    before := CompletedTells(prefix, s, truncated);
    hide OnCompleted, Tells, Flatten;
    var (s1, hs) := OnCompleted(prefix, s, truncated);
    DrainUnfolds(prefix, s1);
    assert hs + [] == hs;
  }

  /** The call completes the response in state `s`. */
  predicate Completes(s: State, call: Call) {
    call.Feed? && call.event.Completed? && !s.finished
  }

  lemma InvokeTells(prefix: string, s: State, call: Call)
    requires !Completes(s, call)
    ensures Tells(s, Flatten(Invoke(prefix, s, call).1), Invoke(prefix, s, call).0)
  {
    hide Tells, Flatten, Push, Fail;
    match call {
      case Feed(e) => PushTells(prefix, s, e);
      case Abort(message) => FailTells(prefix, s, message);
      case End => FailTells(prefix, s, TRUNCATED);
    }
  }

  lemma RunStep(prefix: string, calls: seq<Call>, call: Call)
    ensures var (s, hs) := Run(prefix, calls);
            var (s1, more) := Invoke(prefix, s, call);
            Run(prefix, calls + [call]) == (s1, hs + more) && Flatten(hs + more) == Flatten(hs) + Flatten(more)
  {
    hide Invoke, Flatten;
    assert (calls + [call])[..|calls|] == calls;
    FlattenConcat(Run(prefix, calls).1, Invoke(prefix, Run(prefix, calls).0, call).1);
  }

  /** The state knows whether a tool call was started, over every run. */
  lemma {:induction false} RunKnows(prefix: string, calls: seq<Call>)
    ensures Run(prefix, calls).0.hasToolUse <==> ToolStarted(Flatten(Run(prefix, calls).1))
    decreases |calls|
  {
    if calls == [] {
      NothingFlat();
    } else {
      hide Run, Flatten, Invoke, ToolStarted, Completes;
      var init, call := calls[..|calls| - 1], calls[|calls| - 1];
      assert calls == init + [call];
      RunKnows(prefix, init);
      RunStep(prefix, init, call);
      var (s, hs) := Run(prefix, init);
      StartedConcat(Flatten(hs), Flatten(Invoke(prefix, s, call).1));
      InvokeKnows(prefix, s, call);
    }
  }

  lemma InvokeKnows(prefix: string, s: State, call: Call)
    ensures var (s1, more) := Invoke(prefix, s, call);
            s1.hasToolUse <==> s.hasToolUse || ToolStarted(Flatten(more))
  {
    if Completes(s, call) {
      var before := CompletionTells(prefix, s, call.event.truncated);
      hide Push, Flatten, ToolStarted;
      var s1 := Push(prefix, s, call.event).0;
      StartedConcat(before, [MessageDelta(Told(call.event.truncated, s1.hasToolUse)), MessageStop]);
      NoTool(Told(call.event.truncated, s1.hasToolUse));
    } else {
      InvokeTells(prefix, s, call);
    }
  }

  lemma NoTool(reason: string)
    ensures !ToolStarted([MessageDelta(reason), MessageStop])
  {
  }

  /**
   Over every run, a response that is completed ends with the reason why it stops: the limit if it
   was cut off there; otherwise that tools are to be run, exactly if a tool call was started; and the
   end of the turn if not.
   */
  lemma CompletionTellsWhy(prefix: string, calls: seq<Call>, truncated: bool)
    requires Count(IsTerminal, Flatten(Run(prefix, calls).1)) == 0
    ensures var outs := Flatten(Run(prefix, calls + [Feed(Completed(truncated))]).1);
            && |outs| >= 2 && outs[|outs| - 1] == MessageStop
            && outs[|outs| - 2]
               == MessageDelta(if truncated then "max_tokens" else if ToolStarted(outs) then "tool_use" else "end_turn")
  {
    var call := Feed(Completed(truncated));
    EveryRunIsOrdered(prefix, calls);
    hide Run, Flatten, Push, ToolStarted, Ordered, Count;
    RunKnows(prefix, calls + [call]);
    RunStep(prefix, calls, call);
    var before := CompletionTells(prefix, Run(prefix, calls).0, truncated);
  }

  /** And no other event says why a message stops: the completion that does was the first call to end the run. */
  lemma {:induction false} OnlyCompletionTells(prefix: string, calls: seq<Call>, i: nat) returns (j: nat)
    requires var outs := Flatten(Run(prefix, calls).1); i < |outs| && outs[i].MessageDelta?
    ensures j < |calls| && calls[j].Feed? && calls[j].event.Completed?
    ensures Count(IsTerminal, Flatten(Run(prefix, calls[..j]).1)) == 0
    ensures i == |Flatten(Run(prefix, calls[..j + 1]).1)| - 2
    decreases |calls|
  {
    hide Run, Flatten, Invoke, Count, Ordered;
    j := 0;
    if calls == [] {
      NothingRuns(prefix);
    } else {
      var n := |calls| - 1;
      var (s, hs) := Run(prefix, calls[..n]);
      assert calls == calls[..n] + [calls[n]];
      RunStep(prefix, calls[..n], calls[n]);
      if i < |Flatten(hs)| {
        j := OnlyCompletionTells(prefix, calls[..n], i);
        assert calls[..n][..j] == calls[..j] && calls[..n][..j + 1] == calls[..j + 1];
      } else {
        LastTells(prefix, s, calls[n], i - |Flatten(hs)|);
        EveryRunIsOrdered(prefix, calls[..n]);
        j := n;
        assert calls[..n + 1] == calls;
      }
    }
  }

  lemma NothingRuns(prefix: string)
    ensures Flatten(Run(prefix, []).1) == []
  {
  }

  /** The call that says why the message stops completes it. */
  lemma LastTells(prefix: string, s: State, call: Call, i: nat)
    requires var outs := Flatten(Invoke(prefix, s, call).1); i < |outs| && outs[i].MessageDelta?
    ensures Completes(s, call) && i == |Flatten(Invoke(prefix, s, call).1)| - 2
  {
    hide Flatten, Push;
    if Completes(s, call) {
      var before := CompletionTells(prefix, s, call.event.truncated);
    } else {
      InvokeTells(prefix, s, call);
    }
  }

  /** Events pushed one after the other. */
  lemma {:induction false} PushAllKnows(prefix: string, s: State, es: seq<Event>)
    ensures var (s1, hs) := PushAll(prefix, s, es);
            s1.hasToolUse <==> s.hasToolUse || ToolStarted(Flatten(hs))
    decreases |es|
  {
    hide Push, ToolStarted, Flatten;
    NothingFlat();
    if es == [] {
      NothingStarted();
    } else {
      var n := |es| - 1;
      var (s1, hs) := PushAll(prefix, s, es[..n]);
      PushAllKnows(prefix, s, es[..n]);
      InvokeKnows(prefix, s1, Feed(es[n]));
      FlattenConcat(hs, Push(prefix, s1, es[n]).1);
      StartedConcat(Flatten(hs), Flatten(Push(prefix, s1, es[n]).1));
    }
  }

  lemma NothingStarted()
    ensures !ToolStarted([])
  {
  }

  // The collected message

  lemma {:induction false} HeadWhole(outs: seq<Out>)
    requires Count(IsTerminal, outs) == 0
    ensures Head(outs) == outs
    decreases |outs|
  {
    if outs != [] {
      var n := |outs| - 1;
      HeadWhole(outs[..n]);
      assert outs == outs[..n] + [outs[n]];
    }
  }

  /** The message that is collected says so too. */
  lemma MessageTellsWhy<J(!new)>(parse: string -> Option<J>, empty: J, prefix: string, calls: seq<Call>,
                                 truncated: bool)
    requires Count(IsTerminal, Flatten(Run(prefix, calls).1)) == 0
    ensures var outs := Flatten(Run(prefix, calls + [Feed(Completed(truncated))]).1);
            && Consistent(CollectAll(parse, empty, outs))
            && var r := Outcome(CollectAll(parse, empty, outs));
               r.Complete? ==>
                 r.stopReason
                 == Some(if truncated then "max_tokens" else if ToolStarted(outs) then "tool_use" else "end_turn")
  {
    hide Run, Flatten, ToolStarted, Count, Head, Outcome, CollectAll, StopReasonOf, Ordered, Whole, Started, AllParse;
    var all := calls + [Feed(Completed(truncated))];
    var outs := Flatten(Run(prefix, all).1);
    CompletionTellsWhy(prefix, calls, truncated);
    EveryRunIsOrdered(prefix, all);
    var n := |outs| - 2;
    var w := outs[..n];
    assert outs == w + [outs[n]] + [MessageStop];
    CountSnoc(IsTerminal, w + [outs[n]], MessageStop);
    HeadWhole(w + [outs[n]]);
    HeadSnoc(w + [outs[n]], MessageStop);
    CollectsTheMessage(parse, empty, prefix, all);
    ReasonSnoc(w, outs[n]);
    ReasonSnoc(w + [outs[n]], MessageStop);
  }
}
