/**
 The translator as its users see it: an object that is pushed upstream events and answers with the
 events to write downstream. Each method does to the object's fields what the transition function does
 to the state.
 */
module SseTranslator {
  import opened Common
  import opened Translator
  import opened Deferral

  /** Everything up to and including the first slash of the model's name, if it does not start with one. */
  function ProviderPrefix(model: string): (prefix: string)
    ensures prefix == "" || (prefix <= model && |prefix| > 1 && prefix[|prefix| - 1] == '/'
                             && '/' !in prefix[..|prefix| - 1])
    ensures prefix == "" ==> '/' !in model || model[0] == '/'
  {
    var slash := IndexOf(model, '/');
    if 0 < slash < |model| then model[..slash + 1] else ""
  }

  /** The first position of `c`; |s| if there is none. */
  function IndexOf(s: string, c: char): (i: nat)
    ensures i <= |s| && (i < |s| ==> s[i] == c) && c !in s[..i]
  {
    if s == "" || s[0] == c then 0
    else
      var i := IndexOf(s[1..], c);
      assert s[..i + 1] == [s[0]] + s[1..][..i];
      i + 1
  }

  // What a drain still has to do

  ghost function Rest(force: bool, prefix: string, s: State): (State, seq<Handled>) {
    if force then ForceDrain(prefix, s) else Drain(prefix, s)
  }

  /** Having emitted `out`, the drain that began in `s0` still has to do what a drain in `s` does. */
  ghost predicate Remaining(force: bool, prefix: string, s0: State, out: seq<Out>, s: State) {
    && Rest(force, prefix, s).0 == Rest(force, prefix, s0).0
    && out + Flatten(Rest(force, prefix, s).1) == Flatten(Rest(force, prefix, s0).1)
  }

  lemma OneRemaining(force: bool, prefix: string, s0: State, out: seq<Out>, s: State, idx: nat)
    requires Remaining(force, prefix, s0, out, s)
    requires idx < |s.deferred| && idx == if force then 0 else FirstReady(s, s.deferred)
    ensures var (s1, h) := StepOn(prefix, Without(s, idx), s.deferred[idx]);
            Remaining(force, prefix, s0, out + h.out, s1)
  {
    var (s1, h) := StepOn(prefix, Without(s, idx), s.deferred[idx]);
    var (s2, rest) := Rest(force, prefix, s1);
    assert Rest(force, prefix, s) == (s2, [h] + rest);
    hide StepOn, FirstReady, Rest, Without, Flatten;
    FlattenConcat([h], rest);
    FlattenOne(h);
    ConcatAssoc(out, h.out, Flatten(rest));
  }

  lemma NoneRemaining(force: bool, prefix: string, s0: State, out: seq<Out>, s: State)
    requires Remaining(force, prefix, s0, out, s)
    requires if force then s.deferred == [] else FirstReady(s, s.deferred) == |s.deferred|
    ensures force ==> (s, out) == (ForceDrain(prefix, s0).0, Flatten(ForceDrain(prefix, s0).1))
    ensures !force ==> (s, out) == (Drain(prefix, s0).0, Flatten(Drain(prefix, s0).1))
  {
    assert out + Flatten([]) == out;
  }

  lemma PushAllSnoc(prefix: string, s: State, es: seq<Event>, e: Event)
    ensures var (s1, hs) := PushAll(prefix, s, es);
            var (s2, more) := Translator.Push(prefix, s1, e);
            && PushAll(prefix, s, es + [e]) == (s2, hs + more)
            && Flatten(hs + more) == Flatten(hs) + Flatten(more)
  {
    assert (es + [e])[..|es|] == es;
    var (s1, hs) := PushAll(prefix, s, es);
    FlattenConcat(hs, Translator.Push(prefix, s1, e).1);
  }

  lemma StartRemaining(force: bool, prefix: string, s: State)
    ensures Remaining(force, prefix, s, [], s)
  {
    assert [] + Flatten(Rest(force, prefix, s).1) == Flatten(Rest(force, prefix, s).1);
  }

  lemma CompletedOutput(prefix: string, s: State, truncated: bool)
    requires !s.finished
    ensures var (s1, start) := EnsureStart(s);
            var (s2, drained) := ForceDrain(prefix, s1);
            var (s3, close) := CloseAll(s2);
            Flatten(OnCompleted(prefix, s, truncated).1)
            == start + Flatten(drained) + close + [MessageDelta(StopReason(s3, truncated)), MessageStop]
  {
    var (s1, start) := EnsureStart(s);
    var (s2, drained) := ForceDrain(prefix, s1);
    var (s3, close) := CloseAll(s2);
    var end := [MessageDelta(StopReason(s3, truncated)), MessageStop];
    var first := Handled(Event.Completed(truncated), -1, start);
    var last := Handled(Event.Completed(truncated), -1, close + end);
    assert OnCompleted(prefix, s, truncated).1 == [first] + drained + [last];
    hide *;
    FlattenConcat([first] + drained, [last]);
    FlattenConcat([first], drained);
    FlattenOne(first);
    FlattenOne(last);
    ConcatAssoc(start + Flatten(drained), close, end);
  }

  lemma PutTwice(m: map<int, BlockState>, k: int, a: BlockState, b: BlockState)
    ensures m[k := a][k := b] == m[k := b]
  {
  }

  lemma FlattenOne(h: Handled)
    ensures Flatten([h]) == h.out
  {
    assert [h][..0] == [];
  }

  lemma OwnBlockStays(s: State, k: int)
    requires k in s.blocks
    ensures k in CloseForOther(s, k).0.blocks && CloseForOther(s, k).0.blocks[k] == s.blocks[k]
  {
  }

  class SseTranslator {
    var messageStarted: bool
    var finished: bool
    var nextBlockIndex: nat
    var hasToolUse: bool
    var blocks: map<int, BlockState>
    var order: seq<int>
    var openOutputIndex: Option<int>
    var deferred: seq<Event>
    const signaturePrefix: string

    ghost function View(): State
      reads this
    {
      State(messageStarted, finished, nextBlockIndex, hasToolUse, blocks, order, openOutputIndex, deferred)
    }

    /** Only events that can be deferred are. */
    ghost predicate Valid()
      reads this
    {
      QueueOk(View())
    }

    constructor (model: string)
      ensures View() == INITIAL && Valid() && signaturePrefix == ProviderPrefix(model)
    {
      messageStarted, finished, nextBlockIndex, hasToolUse := false, false, 0, false;
      blocks, order, openOutputIndex, deferred := map[], [], None, [];
      signaturePrefix := ProviderPrefix(model);
    }

    method PutBlock(k: int, st: BlockState)
      modifies this`blocks, this`order
      ensures View() == SetBlock(old(View()), k, st)
    {
      if k !in blocks {
        order := order + [k];
      }
      blocks := blocks[k := st];
    }

    method OpenBlockIsUninterruptible() returns (r: bool)
      ensures r == OpenIsUninterruptible(View())
    {
      if openOutputIndex.None? || openOutputIndex.value !in blocks {
        return false;
      }
      var kind := blocks[openOutputIndex.value].kind;
      return kind == FunctionCall || kind == Thinking;
    }

    method MustDefer(e: Event) returns (r: bool)
      ensures r == ShouldDefer(View(), e)
    {
      if !IsDeferrable(e) {
        return false;
      }
      var uninterruptible := OpenBlockIsUninterruptible();
      if !uninterruptible {
        return false;
      }
      return e.index != openOutputIndex;
    }

    method EnsureMessageStart() returns (out: seq<Out>)
      modifies this`messageStarted
      ensures (View(), out) == EnsureStart(old(View()))
    {
      if messageStarted {
        return [];
      }
      messageStarted := true;
      out := [MessageStart];
    }

    method CloseOpenBlockForOtherItem(k: int) returns (out: seq<Out>)
      modifies this`blocks, this`order, this`openOutputIndex
      ensures (View(), out) == CloseForOther(old(View()), k)
    {
      out := [];
      if openOutputIndex.None? || openOutputIndex == Some(k) {
        return;
      }
      var j := openOutputIndex.value;
      if j in blocks && blocks[j].isOpen {
        out := [BlockStop(blocks[j].blockIndex)];
        PutBlock(j, blocks[j].(isOpen := false));
      }
      openOutputIndex := None;
    }

    method ItemAdded(index: Option<int>, item: Item) returns (out: seq<Out>)
      modifies this
      ensures (View(), out) == OnItemAdded(old(View()), KeyOf(old(View()), Event.ItemAdded(index, item)), item)
    {
      hide CloseForOther, ToolId;
      out := EnsureMessageStart();
      var k := if index.Some? then index.value else |blocks|;
      if k in blocks {
        return;
      }
      match item.kind {
        case ReasoningItem => PutBlock(k, BlockState(-1, Thinking, false, 0, ""));
        case MessageItem => PutBlock(k, BlockState(-1, Message, false, 0, ""));
        case FunctionCallItem =>
          var close := CloseOpenBlockForOtherItem(k);
          var i := nextBlockIndex;
          nextBlockIndex := nextBlockIndex + 1;
          PutBlock(k, BlockState(i, FunctionCall, true, 0, ""));
          openOutputIndex := Some(k);
          hasToolUse := true;
          out := out + close + [BlockStart(i, ToolBlock(ToolId(item, i), item.name))];
        case OtherItem =>
      }
    }

    /** Start the block of item `k` with the text that was held back. */
    method BeginSpoken(k: int, b: Block, d: Delta) returns (out: seq<Out>)
      requires k in blocks
      modifies this`blocks, this`order, this`nextBlockIndex
      ensures var s := old(View());
              var st := s.blocks[k].(pending := "", blockIndex := s.nextIndex, isOpen := true);
              && View() == SetBlock(s, k, st).(nextIndex := s.nextIndex + 1)
              && out == [BlockStart(s.nextIndex, b), BlockDelta(s.nextIndex, d)]
    {
      var i := nextBlockIndex;
      nextBlockIndex := nextBlockIndex + 1;
      PutBlock(k, blocks[k].(pending := "", blockIndex := i, isOpen := true));
      out := [BlockStart(i, b), BlockDelta(i, d)];
    }

    method TextDelta(index: Option<int>, delta: string) returns (out: seq<Out>)
      modifies this
      ensures (View(), out) == OnTextDelta(old(View()), KeyOf(old(View()), Event.TextDelta(index, delta)), delta)
    {
      hide CloseForOther, IsBlank;
      out := [];
      var k := if index.Some? then index.value else -1;
      if k !in blocks || blocks[k].kind != Message || delta == "" {
        return;
      }
      if blocks[k].isOpen {
        return [BlockDelta(blocks[k].blockIndex, TextPart(delta))];
      }
      var pending := blocks[k].pending + delta;
      if IsBlank(pending) {
        PutBlock(k, blocks[k].(pending := pending));
        return;
      }
      OwnBlockStays(View(), k);
      out := CloseOpenBlockForOtherItem(k);
      var first := BeginSpoken(k, TextBlock, TextPart(pending));
      openOutputIndex := Some(k);
      out := out + first;
    }

    method SummaryDelta(index: Option<int>, delta: string) returns (out: seq<Out>)
      modifies this
      ensures (View(), out) == OnSummaryDelta(old(View()), KeyOf(old(View()), Event.SummaryDelta(index, delta)), delta)
    {
      hide CloseForOther, IsBlank;
      out := [];
      var k := if index.Some? then index.value else -1;
      if k !in blocks || blocks[k].kind != Thinking {
        return;
      }
      if !blocks[k].isOpen {
        OwnBlockStays(View(), k);
        out := CloseOpenBlockForOtherItem(k);
        openOutputIndex := Some(k);
        var pending := blocks[k].pending + delta;
        if IsBlank(pending) {
          PutBlock(k, blocks[k].(pending := pending));
          return;
        }
        var first := BeginSpoken(k, ThinkingBlock, ThinkingPart(pending));
        out := out + first;
        return;
      }
      if delta != "" {
        out := [BlockDelta(blocks[k].blockIndex, ThinkingPart(delta))];
      }
    }

    method ArgsDelta(index: Option<int>, delta: string) returns (out: seq<Out>)
      modifies this
      ensures (View(), out) == OnArgsDelta(old(View()), KeyOf(old(View()), Event.ArgsDelta(index, delta)), delta)
    {
      out := [];
      var k := if index.Some? then index.value else -1;
      if k !in blocks || blocks[k].kind != FunctionCall || !blocks[k].isOpen {
        return;
      }
      if delta != "" {
        PutBlock(k, blocks[k].(argsSent := blocks[k].argsSent + |delta|));
        out := [BlockDelta(blocks[k].blockIndex, JsonPart(delta))];
      }
    }

    method ReleaseIfOpen(k: int)
      modifies this`openOutputIndex
      ensures View() == Release(old(View()), k)
    {
      if openOutputIndex == Some(k) {
        openOutputIndex := None;
      }
    }

    /** The item's opaque state goes out as a block of its own. */
    method RedactedDone(k: int, blob: string) returns (out: seq<Out>)
      requires k in blocks
      modifies this
      ensures var (s1, close) := CloseForOther(old(View()), k);
              var i := s1.nextIndex;
              && k in s1.blocks && s1.blocks[k] == old(blocks)[k]
              && View() == SetBlock(s1, k, s1.blocks[k].(blockIndex := i)).(nextIndex := i + 1)
              && out == close + [BlockStart(i, RedactedBlock(blob)), BlockStop(i)]
    {
      out := CloseOpenBlockForOtherItem(k);
      var i := nextBlockIndex;
      nextBlockIndex := nextBlockIndex + 1;
      PutBlock(k, blocks[k].(blockIndex := i));
      out := out + [BlockStart(i, RedactedBlock(blob)), BlockStop(i)];
    }

    method ThinkingDone(k: int, item: Item) returns (out: seq<Out>)
      requires k in blocks
      modifies this
      ensures (View(), out) == OnThinkingDone(signaturePrefix, old(View()), k, item)
    {
      hide CloseForOther, ReasoningBlob;
      out := [];
      var blob := ReasoningBlob(signaturePrefix, item);
      ghost var st := blocks[k];
      if blocks[k].isOpen {
        var i := blocks[k].blockIndex;
        if blob != "" {
          out := [BlockDelta(i, SignaturePart(blob))];
        }
        out := out + [BlockStop(i)];
        PutTwice(blocks, k, st.(isOpen := false), st.(isOpen := false, pending := ""));
        PutBlock(k, blocks[k].(isOpen := false));
        ReleaseIfOpen(k);
      } else if blob != "" {
        ghost var (s1, _) := CloseForOther(View(), k);
        PutTwice(s1.blocks, k, st.(blockIndex := s1.nextIndex), st.(blockIndex := s1.nextIndex, pending := ""));
        out := RedactedDone(k, blob);
      }
      PutBlock(k, blocks[k].(pending := ""));
      ReleaseIfOpen(k);
    }

    method ItemDone(index: Option<int>, item: Item) returns (out: seq<Out>)
      modifies this
      ensures (View(), out) == OnItemDone(signaturePrefix, old(View()),
                                          KeyOf(old(View()), Event.ItemDone(index, item)), item)
    {
      out := [];
      var k := if index.Some? then index.value else -1;
      if k !in blocks {
        return;
      }
      if blocks[k].kind == Thinking {
        out := ThinkingDone(k, item);
        return;
      }
      if blocks[k].isOpen {
        var i := blocks[k].blockIndex;
        var sent := blocks[k].argsSent;
        ghost var st := blocks[k];
        ghost var tail := if st.kind == FunctionCall then ArgsTail(sent, item.arguments) else "";
        if blocks[k].kind == FunctionCall && |item.arguments| > sent {
          out := [BlockDelta(i, JsonPart(item.arguments[sent..]))];
          PutBlock(k, blocks[k].(argsSent := |item.arguments|));
        }
        PutTwice(old(blocks), k, st.(argsSent := sent + |tail|), st.(isOpen := false, argsSent := sent + |tail|));
        out := out + [BlockStop(i)];
        PutBlock(k, blocks[k].(isOpen := false));
        ReleaseIfOpen(k);
      }
    }

    method CloseAllOpenBlocks() returns (out: seq<Out>)
      modifies this`blocks, this`order, this`openOutputIndex
      ensures (View(), out) == CloseAll(old(View()))
    {
      out := [];
      var n := 0;
      ghost var keys := order;
      assert keys[0..] == keys;
      assert [] + CloseListed(View(), keys).1 == CloseListed(View(), keys).1;
      while n < |order|
        invariant order == keys && n <= |keys|
        invariant View() == old(View()).(blocks := blocks)
        invariant CloseListed(View(), keys[n..]).0 == CloseListed(old(View()), keys).0
        invariant out + CloseListed(View(), keys[n..]).1 == CloseListed(old(View()), keys).1
      {
        var k := order[n];
        assert keys[n..][1..] == keys[n + 1..];
        if k in blocks && blocks[k].isOpen && blocks[k].blockIndex >= 0 {
          var stop := [BlockStop(blocks[k].blockIndex)];
          ConcatAssoc(out, stop, CloseListed(SetBlock(View(), k, blocks[k].(isOpen := false)), keys[n + 1..]).1);
          out := out + stop;
          PutBlock(k, blocks[k].(isOpen := false));
        }
        n := n + 1;
      }
      assert keys[n..] == [];
      assert out + [] == out;
      openOutputIndex := None;
    }

    method Fail(message: string) returns (out: seq<Out>)
      requires Valid()
      modifies this
      ensures View() == Translator.Fail(signaturePrefix, old(View()), message).0 && Valid()
      ensures out == Flatten(Translator.Fail(signaturePrefix, old(View()), message).1)
    {
      if finished {
        return [];
      }
      out := FailureEnd(message);
    }

    method Finish() returns (out: seq<Out>)
      requires Valid()
      modifies this
      ensures View() == Translator.Finish(signaturePrefix, old(View())).0 && Valid()
      ensures out == Flatten(Translator.Finish(signaturePrefix, old(View())).1)
    {
      if finished {
        return [];
      }
      out := Fail(TRUNCATED);
    }

    method FailureEnd(message: string) returns (out: seq<Out>)
      requires Valid()
      modifies this
      ensures View() == EmitFailure(signaturePrefix, old(View()), message).0 && Valid()
      ensures out == Flatten(EmitFailure(signaturePrefix, old(View()), message).1)
      decreases |deferred|, 2
    {
      out := DrainDeferred(true);
      ghost var (s1, drained) := ForceDrain(signaturePrefix, old(View()));
      var close := CloseAllOpenBlocks();
      finished := true;
      FlattenSnoc(drained, Handled(Event.Failed(message), -1, close + [Failure(message)]));
      ConcatAssoc(out, close, [Failure(message)]);
      EmitFailureEmpties(signaturePrefix, old(View()), message);
      out := out + close + [Failure(message)];
    }

    method ResponseEnd(truncated: bool) returns (out: seq<Out>)
      requires Valid()
      modifies this
      ensures View() == OnCompleted(signaturePrefix, old(View()), truncated).0 && Valid()
      ensures out == Flatten(OnCompleted(signaturePrefix, old(View()), truncated).1)
      decreases |deferred|, 2
    {
      out := [];
      if finished {
        return;
      }
      var start := EnsureMessageStart();
      var drained := DrainDeferred(true);
      var close := CloseAllOpenBlocks();
      var end := [MessageDelta(StopReasonFor(truncated)), MessageStop];
      out := start + drained + close + end;
      finished := true;
      CompletedOutput(signaturePrefix, old(View()), truncated);
    }

    function StopReasonFor(truncated: bool): (r: string)
      reads this
      ensures r == StopReason(View(), truncated)
    {
      if truncated then "max_tokens" else if hasToolUse then "tool_use" else "end_turn"
    }

    method DrainDeferred(force: bool) returns (out: seq<Out>)
      requires Valid()
      modifies this
      ensures Valid()
      ensures force ==> View() == ForceDrain(signaturePrefix, old(View())).0
                        && out == Flatten(ForceDrain(signaturePrefix, old(View())).1)
      ensures !force ==> View() == Drain(signaturePrefix, old(View())).0
                         && out == Flatten(Drain(signaturePrefix, old(View())).1)
      decreases |deferred|, 1
    {
      hide StepOn, HandleEvent, FirstReady, Flatten, Remaining, Rest;
      out := [];
      StartRemaining(force, signaturePrefix, View());
      while |deferred| > 0
        invariant Valid() && |deferred| <= |old(deferred)|
        invariant Remaining(force, signaturePrefix, old(View()), out, View())
        decreases |deferred|
      {
        var idx := 0;
        if !force {
          idx := FindReady();
          if idx == |deferred| {
            NoneRemaining(force, signaturePrefix, old(View()), out, View());
            return;
          }
        }
        var e := deferred[idx];
        ghost var before := View();
        deferred := deferred[..idx] + deferred[idx + 1..];
        assert View() == Without(before, idx);
        var more := Handle(e);
        OneRemaining(force, signaturePrefix, old(View()), out, before, idx);
        out := out + more;
      }
      NoneRemaining(force, signaturePrefix, old(View()), out, View());
    }

    method FindReady() returns (idx: nat)
      ensures idx == FirstReady(View(), deferred)
    {
      idx := 0;
      while idx < |deferred|
        invariant idx <= |deferred|
        invariant FirstReady(View(), deferred) == idx + FirstReady(View(), deferred[idx..])
      {
        var wait := MustDefer(deferred[idx]);
        if !wait {
          return;
        }
        assert deferred[idx..][1..] == deferred[idx + 1..];
        idx := idx + 1;
      }
    }

    method Handle(e: Event) returns (out: seq<Out>)
      requires Valid()
      modifies this
      ensures View() == HandleEvent(signaturePrefix, old(View()), e).0 && Valid()
      ensures out == Flatten(HandleEvent(signaturePrefix, old(View()), e).1)
      ensures IsDeferrable(e) ==> View() == StepOn(signaturePrefix, old(View()), e).0
                                  && out == StepOn(signaturePrefix, old(View()), e).1.out
                                  && deferred == old(deferred)
      decreases |deferred|, 3
    {
      out := [];
      match e {
        case Created => out := EnsureMessageStart();
        case ItemAdded(index, item) => out := ItemAdded(index, item);
        case TextDelta(index, delta) => out := TextDelta(index, delta);
        case SummaryDelta(index, delta) => out := SummaryDelta(index, delta);
        case ArgsDelta(index, delta) => out := ArgsDelta(index, delta);
        case ItemDone(index, item) => out := ItemDone(index, item);
        case Completed(truncated) => out := ResponseEnd(truncated);
        case Failed(message) =>
          if !finished {
            out := FailureEnd(message);
          }
        case Ignored =>
      }
      FlattenOne(StepOn(signaturePrefix, old(View()), e).1);
    }

    method Push(e: Event) returns (out: seq<Out>)
      requires Valid()
      modifies this
      ensures View() == Translator.Push(signaturePrefix, old(View()), e).0 && Valid()
      ensures out == Flatten(Translator.Push(signaturePrefix, old(View()), e).1)
    {
      var wait := MustDefer(e);
      if wait {
        deferred := deferred + [e];
        return [];
      }
      out := Handle(e);
      ghost var s1 := View();
      var rest := DrainDeferred(false);
      FlattenConcat(HandleEvent(signaturePrefix, old(View()), e).1, Drain(signaturePrefix, s1).1);
      out := out + rest;
    }

    /** Push `e` after the events `done` were pushed. */
    method PushAfter(e: Event, ghost s0: State, ghost done: seq<Event>, sofar: seq<Out>) returns (out: seq<Out>)
      requires Valid()
      requires View() == PushAll(signaturePrefix, s0, done).0 && sofar == Flatten(PushAll(signaturePrefix, s0, done).1)
      modifies this
      ensures Valid()
      ensures View() == PushAll(signaturePrefix, s0, done + [e]).0
      ensures out == Flatten(PushAll(signaturePrefix, s0, done + [e]).1)
    {
      var more := Push(e);
      PushAllSnoc(signaturePrefix, s0, done, e);
      out := sofar + more;
    }

    /** Push the life of an item that arrived whole. */
    method PushItem(n: nat, o: OutputItem, ghost s0: State, ghost start: seq<Event>,
                    sofar: seq<Out>) returns (out: seq<Out>)
      requires Valid()
      requires View() == PushAll(signaturePrefix, s0, start).0
      requires sofar == Flatten(PushAll(signaturePrefix, s0, start).1)
      modifies this
      ensures Valid()
      ensures View() == PushAll(signaturePrefix, s0, start + ItemEvents(n, o)).0
      ensures out == Flatten(PushAll(signaturePrefix, s0, start + ItemEvents(n, o)).1)
    {
      hide PushAll, Flatten, QueueOk;
      var added := Event.ItemAdded(Some(n), o.item);
      out := PushAfter(added, s0, start, sofar);
      ghost var done := start + [added];
      var parts := PartsOf(o);
      var m := 0;
      while m < |parts|
        invariant m <= |parts| && Valid()
        invariant done == start + [added] + seq(m, i requires 0 <= i < m => PartDelta(o.item.kind, n, parts[i]))
        invariant View() == PushAll(signaturePrefix, s0, done).0 && out == Flatten(PushAll(signaturePrefix, s0, done).1)
      {
        var delta := PartDelta(o.item.kind, n, parts[m]);
        out := PushAfter(delta, s0, done, out);
        done := done + [delta];
        m := m + 1;
      }
      var last := Event.ItemDone(Some(n), o.item);
      out := PushAfter(last, s0, done, out);
      assert done + [last] == start + ItemEvents(n, o);
    }

    method PushResponse(r: Response) returns (out: seq<Out>)
      requires Valid()
      modifies this
      ensures View() == PushJson(signaturePrefix, old(View()), r).0 && Valid()
      ensures out == Flatten(PushJson(signaturePrefix, old(View()), r).1)
    {
      if r.EmptyResponse? {
        out := Fail(INVALID_JSON);
        return;
      }
      if r.status.StatusFailed? || r.error.Some? {
        out := Push(Event.Failed(if r.error.Some? then r.error.value else "upstream response failed"));
        return;
      }
      if r.status.StatusOther? {
        out := Fail(NON_TERMINAL);
        return;
      }
      out := PushOutput(r.output);
      ghost var s0 := old(View());
      hide PushAll, Flatten, QueueOk;
      out := PushAfter(Event.Completed(r.status.StatusIncomplete? && r.status.truncated), s0,
                       [Created] + OutputEvents(r.output), out);
    }

    method PushOutput(output: seq<OutputItem>) returns (out: seq<Out>)
      requires Valid()
      modifies this
      ensures Valid()
      ensures View() == PushAll(signaturePrefix, old(View()), [Created] + OutputEvents(output)).0
      ensures out == Flatten(PushAll(signaturePrefix, old(View()), [Created] + OutputEvents(output)).1)
    {
      ghost var s0 := View();
      out := PushAfter(Created, s0, [], []);
      hide PushAll, Flatten, QueueOk, ItemEvents;
      assert [] + [Created] == [Created] + OutputEvents(output[..0]);
      var n := 0;
      while n < |output|
        invariant n <= |output| && Valid()
        invariant View() == PushAll(signaturePrefix, s0, [Created] + OutputEvents(output[..n])).0
        invariant out == Flatten(PushAll(signaturePrefix, s0, [Created] + OutputEvents(output[..n])).1)
      {
        out := PushItem(n, output[n], s0, [Created] + OutputEvents(output[..n]), out);
        assert output[..n + 1][..n] == output[..n];
        ConcatAssoc([Created], OutputEvents(output[..n]), ItemEvents(n, output[n]));
        n := n + 1;
      }
      assert output[..n] == output;
    }
  }
}
