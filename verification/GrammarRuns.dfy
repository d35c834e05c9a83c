/** Every run of the translator follows the grammar, and what that means for the events it emits. */
module GrammarRuns {
  import opened Common
  import opened Translator
  import opened Grammar

  // The queue

  lemma RequeueGoes(s: State, q: seq<Event>)
    requires Inv(s)
    ensures Inv(s.(deferred := q)) && ScanOf(s.(deferred := q)) == ScanOf(s)
  {
  }

  lemma {:induction false} DrainGoes(prefix: string, s: State)
    requires Inv(s)
    ensures Goes(s, Drain(prefix, s).1, Drain(prefix, s).0)
    decreases |s.deferred|
  {
    var i := FirstReady(s, s.deferred);
    if i < |s.deferred| {
      var s0 := Without(s, i);
      RequeueGoes(s, s0.deferred);
      StepOnSteps(prefix, s0, s.deferred[i]);
      var (s1, h) := StepOn(prefix, s0, s.deferred[i]);
      hide Inv, Follow, FollowAll, ScanOf, StepOn;
      DrainGoes(prefix, s1);
      GoesConcat(s, [h], s1, Drain(prefix, s1).1, Drain(prefix, s1).0);
    }
  }

  lemma {:induction false} ForceDrainGoes(prefix: string, s: State)
    requires Inv(s)
    ensures Goes(s, ForceDrain(prefix, s).1, ForceDrain(prefix, s).0)
    decreases |s.deferred|
  {
    if s.deferred != [] {
      var s0 := Without(s, 0);
      RequeueGoes(s, s0.deferred);
      StepOnSteps(prefix, s0, s.deferred[0]);
      var (s1, h) := StepOn(prefix, s0, s.deferred[0]);
      hide Inv, Follow, FollowAll, ScanOf, StepOn;
      ForceDrainGoes(prefix, s1);
      GoesConcat(s, [h], s1, ForceDrain(prefix, s1).1, ForceDrain(prefix, s1).0);
    }
  }

  // The end of the response

  lemma {:induction false} CloseListedNone(s: State, keys: seq<int>)
    requires forall k :: k in s.blocks ==> !s.blocks[k].isOpen
    ensures CloseListed(s, keys) == (s, [])
    decreases |keys|
  {
    if keys != [] {
      CloseListedNone(s, keys[1..]);
    }
  }

  lemma {:induction false} CloseListedOne(s: State, keys: seq<int>, k: int)
    requires k in keys && k in s.blocks && s.blocks[k].isOpen && s.blocks[k].blockIndex >= 0
    requires forall j :: j in s.blocks && s.blocks[j].isOpen ==> j == k
    ensures CloseListed(s, keys)
         == (SetBlock(s, k, s.blocks[k].(isOpen := false)), [BlockStop(s.blocks[k].blockIndex)])
    decreases |keys|
  {
    if keys[0] == k {
      CloseListedNone(SetBlock(s, k, s.blocks[k].(isOpen := false)), keys[1..]);
      assert [BlockStop(s.blocks[k].blockIndex)] + [] == [BlockStop(s.blocks[k].blockIndex)];
    } else {
      CloseListedOne(s, keys[1..], k);
    }
  }

  /** Whatever is open is closed, once. */
  lemma CloseAllSteps(s: State)
    requires Inv(s)
    ensures var (s1, out) := CloseAll(s);
            Steps(s, -1, out, s1) && s1.open == None && s1.started == s.started && s1.finished == s.finished
  {
    hide CloseListed;
    match OpenOf(s) {
      case None =>
        forall k | k in s.blocks
          ensures !s.blocks[k].isOpen
        {
          assert BlockOk(s, k, s.blocks[k]);
        }
        CloseListedNone(s, s.order);
        NothingOpen(s);
      case Some(b) =>
        var k := s.open.value;
        assert forall j :: j in s.blocks && s.blocks[j].isOpen ==> BlockOk(s, j, s.blocks[j]);
        CloseListedOne(s, s.order, k);
        OneOpen(s, k);
    }
  }

  lemma NothingOpen(s: State)
    requires Inv(s) && OpenOf(s) == None
    ensures Steps(s, -1, [], s.(open := None))
  {
    NoSteps(s, -1);
  }

  lemma OneOpen(s: State, k: int)
    requires Inv(s) && s.open == Some(k) && s.blocks[k].isOpen
    ensures Steps(s, -1, [BlockStop(s.blocks[k].blockIndex)],
                  SetBlock(s, k, s.blocks[k].(isOpen := false)).(open := None))
  {
    hide Follow;
    assert BlockOk(s, k, s.blocks[k]);
    SetBlockListed(s, k, s.blocks[k].(isOpen := false));
    Follow1(ScanOf(s), -1, BlockStop(s.blocks[k].blockIndex));
  }

  /** After everything is closed, the response ends. */
  lemma EndSteps(s: State, end: seq<Out>)
    requires Inv(s) && s.open == None && !s.finished
    requires (s.started && exists r :: end == [MessageDelta(r), MessageStop]) || exists m :: end == [Failure(m)]
    ensures Steps(s, -1, end, s.(finished := true))
  {
    if |end| == 1 {
      Follow1(ScanOf(s), -1, end[0]);
    } else {
      Follow2(ScanOf(s), -1, end[0], end[1]);
    }
  }

  lemma CloseForOtherKeeps(s: State, k: int)
    ensures CloseForOther(s, k).0.finished == s.finished && CloseForOther(s, k).0.started == s.started
  {
  }

  /** Only the end of the response sets `finished`; nothing takes `started` back. */
  lemma StepOnKeeps(prefix: string, s: State, e: Event)
    ensures StepOn(prefix, s, e).0.finished == s.finished
    ensures s.started ==> StepOn(prefix, s, e).0.started
  {
    CloseForOtherKeeps(s, KeyOf(s, e));
    CloseForOtherKeeps(s.(started := true), KeyOf(s, e));
    hide CloseForOther, OnThinkingDone, ToolId;
    if e.ItemDone? && KeyOf(s, e) in s.blocks {
      ThinkingDoneKeeps(prefix, s, KeyOf(s, e), e.item);
    }
  }

  lemma ThinkingDoneKeeps(prefix: string, s: State, k: int, item: Item)
    requires k in s.blocks
    ensures OnThinkingDone(prefix, s, k, item).0.finished == s.finished
    ensures OnThinkingDone(prefix, s, k, item).0.started == s.started
  {
    hide CloseForOther, ReasoningBlob;
    CloseForOtherKeeps(s, k);
  }

  lemma {:induction false} ForceDrainKeeps(prefix: string, s: State)
    ensures ForceDrain(prefix, s).0.finished == s.finished
    ensures s.started ==> ForceDrain(prefix, s).0.started
    decreases |s.deferred|
  {
    if s.deferred != [] {
      StepOnKeeps(prefix, Without(s, 0), s.deferred[0]);
      hide StepOn;
      ForceDrainKeeps(prefix, StepOn(prefix, Without(s, 0), s.deferred[0]).0);
    }
  }

  /** Close what is open, then end. */
  lemma CloseAndEnd(s: State, e: Event, end: seq<Out>)
    requires Inv(s) && !s.finished && !IsDeferrable(e)
    requires (s.started && exists r :: end == [MessageDelta(r), MessageStop]) || exists m :: end == [Failure(m)]
    ensures Goes(s, [Handled(e, -1, CloseAll(s).1 + end)], CloseAll(s).0.(finished := true))
  {
    CloseAllSteps(s);
    var (s1, close) := CloseAll(s);
    hide CloseAll, Follow;
    EndSteps(s1, end);
    StepsConcat(s, -1, close, s1, end, s1.(finished := true));
    StepGoes(s, Handled(e, -1, close + end), s1.(finished := true));
  }

  lemma EmitFailureGoes(prefix: string, s: State, message: string)
    requires Inv(s) && !s.finished
    ensures Goes(s, EmitFailure(prefix, s, message).1, EmitFailure(prefix, s, message).0)
  {
    ForceDrainGoes(prefix, s);
    ForceDrainKeeps(prefix, s);
    var (s1, drained) := ForceDrain(prefix, s);
    hide ForceDrain, Inv, Follow, FollowAll, CloseAll;
    CloseAndEnd(s1, Event.Failed(message), [Failure(message)]);
    GoesConcat(s, drained, s1, [Handled(Event.Failed(message), -1, CloseAll(s1).1 + [Failure(message)])],
               CloseAll(s1).0.(finished := true));
  }

  lemma OnCompletedGoes(prefix: string, s: State, truncated: bool)
    requires Inv(s) && !s.finished
    ensures Goes(s, OnCompleted(prefix, s, truncated).1, OnCompleted(prefix, s, truncated).0)
  {
    EnsureStartSteps(s, -1);
    var (s1, start) := EnsureStart(s);
    ForceDrainGoes(prefix, s1);
    ForceDrainKeeps(prefix, s1);
    var (s2, drained) := ForceDrain(prefix, s1);
    var (s3, close) := CloseAll(s2);
    hide ForceDrain, Inv, Follow, FollowAll, CloseAll, EnsureStart;
    var e := Completed(truncated);
    var end := [MessageDelta(StopReason(s3, truncated)), MessageStop];
    StepGoes(s, Handled(e, -1, start), s1);
    CloseAndEnd(s2, e, end);
    GoesConcat(s, [Handled(e, -1, start)], s1, drained, s2);
    GoesConcat(s, [Handled(e, -1, start)] + drained, s2, [Handled(e, -1, close + end)], s3.(finished := true));
  }

  // Runs

  lemma NothingGoes(s: State)
    requires Inv(s)
    ensures Goes(s, [], s)
  {
  }

  lemma HandleEventGoes(prefix: string, s: State, e: Event)
    requires Inv(s)
    ensures Goes(s, HandleEvent(prefix, s, e).1, HandleEvent(prefix, s, e).0)
  {
    if (e.Completed? || e.Failed?) && s.finished {
      NothingGoes(s);
    } else {
      match e {
        case Completed(truncated) => OnCompletedGoes(prefix, s, truncated);
        case Failed(message) => EmitFailureGoes(prefix, s, message);
        case _ => StepOnSteps(prefix, s, e);
      }
    }
  }

  lemma PushGoes(prefix: string, s: State, e: Event)
    requires Inv(s)
    ensures Goes(s, Push(prefix, s, e).1, Push(prefix, s, e).0)
  {
    if ShouldDefer(s, e) {
      RequeueGoes(s, s.deferred + [e]);
    } else {
      HandleEventGoes(prefix, s, e);
      var (s1, hs) := HandleEvent(prefix, s, e);
      hide HandleEvent, Drain, Inv, Follow, FollowAll, ScanOf;
      DrainGoes(prefix, s1);
      GoesConcat(s, hs, s1, Drain(prefix, s1).1, Drain(prefix, s1).0);
    }
  }

  lemma InvokeGoes(prefix: string, s: State, call: Call)
    requires Inv(s)
    ensures Goes(s, Invoke(prefix, s, call).1, Invoke(prefix, s, call).0)
  {
    match call {
      case Feed(event) => PushGoes(prefix, s, event);
      case Abort(message) =>
        if s.finished { NothingGoes(s); } else { EmitFailureGoes(prefix, s, message); }
      case End =>
        if s.finished { NothingGoes(s); } else { EmitFailureGoes(prefix, s, TRUNCATED); }
    }
  }

  /** Whatever is called in whatever order, every event emitted is allowed where it is emitted. */
  lemma {:induction false} EveryRunIsGrammatical(prefix: string, calls: seq<Call>)
    ensures var (s, hs) := Run(prefix, calls);
            Inv(s) && FollowAll(START, hs) == Some(ScanOf(s))
    decreases |calls|
  {
    if calls != [] {
      EveryRunIsGrammatical(prefix, calls[..|calls| - 1]);
      var (s, hs) := Run(prefix, calls[..|calls| - 1]);
      InvokeGoes(prefix, s, calls[|calls| - 1]);
      var (s1, more) := Invoke(prefix, s, calls[|calls| - 1]);
      FollowAllConcat(START, hs, more);
    }
  }
}
