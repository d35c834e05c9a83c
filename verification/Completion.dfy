/** When every item that was started is done, nothing is queued and nothing is open. */
module Completion {
  import opened Common
  import opened Translator
  import opened Grammar
  import opened GrammarRuns
  import opened Deferral

  predicate IsNumbered(e: Event) {
    IsDeferrable(e) ==> e.index.Some?
  }

  /** Upstream numbers the item of every event. */
  predicate AllNumbered(es: seq<Event>) {
    forall i :: 0 <= i < |es| ==> IsNumbered(es[i])
  }

  /** The last event of every item is its done event. */
  ghost predicate AllDone(es: seq<Event>) {
    forall k: int :: Select(es, Some(k)) != [] ==> Done(Select(es, Some(k)))
  }

  predicate Done(own: seq<Event>) {
    own != [] && own[|own| - 1].ItemDone?
  }

  /** The open item has been worked on and is not done. */
  predicate Working(es: seq<Event>, s: State) {
    s.open.Some? ==> Select(es, s.open) != [] && !Done(Select(es, s.open))
  }

  /** How one event changes which item is open. */
  lemma OpenAfter(prefix: string, s: State, e: Event)
    requires Inv(s)
    ensures var s1 := StepOn(prefix, s, e).0;
            && (s1.open == s.open || s1.open == None || (IsDeferrable(e) && s1.open == Some(KeyOf(s, e))))
            && (e.ItemDone? ==> s1.open != Some(KeyOf(s, e)))
  {
    hide OnItemAdded, OnTextDelta, OnSummaryDelta, OnArgsDelta, OnItemDone, Inv, KeyOf;
    var k := KeyOf(s, e);
    match e {
      case ItemAdded(_, item) => AddedOpen(s, k, item);
      case TextDelta(_, delta) => TextOpen(s, k, delta);
      case SummaryDelta(_, delta) => SummaryOpen(s, k, delta);
      case ArgsDelta(_, delta) => ArgsOpen(s, k, delta);
      case ItemDone(_, item) => DoneOpen(prefix, s, k, item);
      case _ =>
    }
  }

  /** Nothing is open, or what was, or item `k`. */
  predicate OpensAtMost(s: State, s1: State, k: int) {
    s1.open == s.open || s1.open == None || s1.open == Some(k)
  }

  lemma AddedOpen(s: State, k: int, item: Item)
    ensures OpensAtMost(s, OnItemAdded(s, k, item).0, k)
  {
    hide CloseForOther, ToolId;
    CloseForOtherOpen(s.(started := true), k);
    CloseForOtherOpen(s, k);
  }

  lemma TextOpen(s: State, k: int, delta: string)
    ensures OpensAtMost(s, OnTextDelta(s, k, delta).0, k)
  {
    hide CloseForOther, IsBlank;
    CloseForOtherOpen(s, k);
  }

  lemma SummaryOpen(s: State, k: int, delta: string)
    ensures OpensAtMost(s, OnSummaryDelta(s, k, delta).0, k)
  {
    hide CloseForOther, IsBlank;
    CloseForOtherOpen(s, k);
  }

  lemma ArgsOpen(s: State, k: int, delta: string)
    ensures OnArgsDelta(s, k, delta).0.open == s.open
  {
  }

  lemma DoneOpen(prefix: string, s: State, k: int, item: Item)
    requires Inv(s)
    ensures var s1 := OnItemDone(prefix, s, k, item).0;
            (s1.open == s.open || s1.open == None) && s1.open != Some(k)
  {
    hide OnThinkingDone, ArgsTail, SetBlock;
    if k in s.blocks {
      var st := s.blocks[k];
      assert BlockOk(s, k, st);
      if st.kind == Thinking {
        ThinkingDoneOpen(prefix, s, k, item);
      } else if st.isOpen {
        var tail := if st.kind == FunctionCall then ArgsTail(st.argsSent, item.arguments) else "";
        BlockKeepsOpen(s, k, st.(isOpen := false, argsSent := st.argsSent + |tail|));
      }
    }
  }

  lemma ThinkingDoneOpen(prefix: string, s: State, k: int, item: Item)
    requires k in s.blocks
    ensures var s1 := OnThinkingDone(prefix, s, k, item).0;
            (s1.open == s.open || s1.open == None) && s1.open != Some(k)
  {
    var st, blob := s.blocks[k], ReasoningBlob(prefix, item);
    CloseForOtherOpen(s, k);
    hide CloseForOther, ReasoningBlob, SetBlock;
    if st.isOpen {
      ReleaseOpen(SetBlock(s, k, st.(isOpen := false, pending := "")), k);
    } else if blob != "" {
      var s1 := CloseForOther(s, k).0;
      var i := s1.nextIndex;
      ReleaseOpen(SetBlock(s1, k, st.(blockIndex := i, pending := "")).(nextIndex := i + 1), k);
      BlockKeepsOpen(s1, k, st.(blockIndex := i, pending := ""));
    } else {
      ReleaseOpen(SetBlock(s, k, st.(pending := "")), k);
      BlockKeepsOpen(s, k, st.(pending := ""));
    }
    BlockKeepsOpen(s, k, st.(isOpen := false, pending := ""));
    hide Release;
  }

  lemma ReleaseOpen(s: State, k: int)
    ensures Release(s, k).open == if s.open == Some(k) then None else s.open
  {
  }

  lemma BlockKeepsOpen(s: State, k: int, st: BlockState)
    ensures SetBlock(s, k, st).open == s.open
  {
  }

  lemma CloseForOtherOpen(s: State, k: int)
    ensures var s1 := CloseForOther(s, k).0;
            s1.open == None || (s1.open == s.open == Some(k))
  {
  }

  lemma StepOnWorks(prefix: string, es: seq<Event>, s: State, e: Event)
    requires Inv(s) && Working(es, s) && IsNumbered(e)
    ensures Working(es + [e], StepOn(prefix, s, e).0)
  {
    OpenAfter(prefix, s, e);
    var s1 := StepOn(prefix, s, e).0;
    SelectSnoc(es, e, s1.open);
    hide StepOn, Select;
  }

  lemma {:induction false} DrainWorks(prefix: string, es: seq<Event>, s: State)
    requires Inv(s) && Working(es, s) && AllNumbered(s.deferred)
    ensures Working(es + Events(Drain(prefix, s).1), Drain(prefix, s).0)
    ensures AllNumbered(Drain(prefix, s).0.deferred)
    decreases |s.deferred|
  {
    hide StepOn, Select, FirstReady, Inv, Working, Drain, Goes;
    DrainUnfolds(prefix, s);
    var i := FirstReady(s, s.deferred);
    if i < |s.deferred| {
      var e, s0 := s.deferred[i], Without(s, i);
      RequeueGoes(s, s0.deferred);
      SameWork(es, s, s0);
      StepOnWorks(prefix, es, s0, e);
      StepOnSteps(prefix, s0, e);
      var (s1, h) := StepOn(prefix, s0, e);
      GoesKeepInv(s0, [h], s1);
      DrainWorks(prefix, es + [e], s1);
      EventsConcat([h], Drain(prefix, s1).1);
      assert Events([h]) == [e];
      ConcatAssoc(es, [e], Events(Drain(prefix, s1).1));
    } else {
      assert es + Events([]) == es;
    }
  }

  lemma SameWork(es: seq<Event>, s: State, t: State)
    requires Working(es, s) && t.open == s.open
    ensures Working(es, t)
  {
  }

  lemma GoesKeepInv(s: State, hs: seq<Handled>, s1: State)
    requires Goes(s, hs, s1)
    ensures Inv(s1)
  {
  }

  lemma OnCompletedEmpties(prefix: string, s: State, truncated: bool)
    requires !s.finished
    ensures OnCompleted(prefix, s, truncated).0.deferred == [] && OnCompleted(prefix, s, truncated).0.open == None
  {
    var s2 := ForceDrain(prefix, EnsureStart(s).0).0;
    CloseListedFrame(s2, s2.order);
  }

  lemma HandleEventWorks(prefix: string, es: seq<Event>, s: State, e: Event)
    requires Inv(s) && Working(es, s) && IsNumbered(e) && AllNumbered(s.deferred)
    ensures var (s1, hs) := HandleEvent(prefix, s, e);
            Working(es + Events(hs), s1) && AllNumbered(s1.deferred)
  {
    var (s1, hs) := HandleEvent(prefix, s, e);
    if (e.Completed? || e.Failed?) {
      if s.finished {
        assert es + Events([]) == es;
      } else if e.Completed? {
        OnCompletedEmpties(prefix, s, e.truncated);
      } else {
        EmitFailureEmpties(prefix, s, e.message);
      }
    } else {
      assert Events(hs) == [e];
      StepOnWorks(prefix, es, s, e);
    }
  }

  lemma PushWorks(prefix: string, es: seq<Event>, s: State, e: Event)
    requires Inv(s) && Working(es, s) && IsNumbered(e) && AllNumbered(s.deferred)
    ensures var (s1, hs) := Push(prefix, s, e);
            Working(es + Events(hs), s1) && AllNumbered(s1.deferred)
  {
    if ShouldDefer(s, e) {
      assert es + Events([]) == es;
    } else {
      HandleEventWorks(prefix, es, s, e);
      HandleEventGoes(prefix, s, e);
      var (s1, hs) := HandleEvent(prefix, s, e);
      assert Push(prefix, s, e) == (Drain(prefix, s1).0, hs + Drain(prefix, s1).1);
      assert Inv(s1);
      hide *;
      DrainWorks(prefix, es + Events(hs), s1);
      EventsConcat(hs, Drain(prefix, s1).1);
      ConcatAssoc(es, Events(hs), Events(Drain(prefix, s1).1));
    }
  }

  lemma FailWorks(prefix: string, es: seq<Event>, s: State, message: string)
    requires Working(es, s) && AllNumbered(s.deferred)
    ensures var (s1, hs) := Fail(prefix, s, message);
            Working(es + Events(hs), s1) && AllNumbered(s1.deferred)
  {
    if s.finished {
      assert es + Events([]) == es;
    } else {
      EmitFailureEmpties(prefix, s, message);
    }
  }

  lemma {:induction false} RunWorks(prefix: string, calls: seq<Call>)
    requires AllNumbered(Fed(calls))
    ensures var (s, hs) := Run(prefix, calls);
            Working(Events(hs), s) && AllNumbered(s.deferred)
    decreases |calls|
  {
    if calls != [] {
      var init, call := calls[..|calls| - 1], calls[|calls| - 1];
      assert Fed(init) == Fed(calls)[..|Fed(init)|];
      assert call.Feed? ==> Fed(calls)[|Fed(init)|] == call.event;
      RunWorks(prefix, init);
      EveryRunIsGrammatical(prefix, init);
      var (s, hs) := Run(prefix, init);
      hide Inv, Working, FollowAll;
      match call {
        case Feed(e) => PushWorks(prefix, Events(hs), s, e);
        case Abort(message) => FailWorks(prefix, Events(hs), s, message);
        case End => FailWorks(prefix, Events(hs), s, TRUNCATED);
      }
      EventsConcat(hs, Invoke(prefix, s, call).1);
    }
  }

  lemma OpenItemWaitsForNothing(s: State)
    requires NothingReady(s)
    ensures Select(s.deferred, s.open) == []
  {
    SelectNone(s.deferred, s.open);
  }

  lemma NothingWaits(s: State)
    requires NothingReady(s) && s.open == None
    ensures s.deferred == []
  {
    assert |s.deferred| > 0 ==> ShouldDefer(s, s.deferred[0]);
  }

  lemma OpenIsNotDone(fed: seq<Event>, hs: seq<Handled>, s: State)
    requires s.open.Some? && Working(Events(hs), s) && NothingReady(s) && Account(hs, s, s.open) == Select(fed, s.open)
    ensures !AllDone(fed)
  {
    OpenItemWaitsForNothing(s);
    assert Select(fed, s.open) == Select(Events(hs), s.open);
    var k := s.open.value;
    assert Select(fed, Some(k)) != [] && !Done(Select(fed, Some(k)));
  }

  /** Whose turn it is: the block that must not be interrupted belongs to an item whose done event was not yet fed. */
  predicate AwaitsDone(fed: seq<Event>, s: State) {
    && OpenIsUninterruptible(s) && s.open.Some?
    && Select(fed, s.open) != [] && !Done(Select(fed, s.open))
    && forall i :: 0 <= i < |s.deferred| ==> !Has(s.deferred[i], s.open)
  }

  /**
   After every call of every run of numbered items, a queue that is not empty waits for an open item
   that must not be interrupted and whose last event, of all that were fed, is not its done event.
   */
  lemma QueueAwaitsDone(prefix: string, calls: seq<Call>)
    requires AllNumbered(Fed(calls))
    ensures Run(prefix, calls).0.deferred != [] ==> AwaitsDone(Fed(calls), Run(prefix, calls).0)
  {
    hide Run, Select, Fed, Events, Done;
    var (s, hs) := Run(prefix, calls);
    RunWorks(prefix, calls);
    NothingStranded(prefix, calls);
    if s.deferred != [] {
      assert ShouldDefer(s, s.deferred[0]);
      ItemsKeepTheirOrder(prefix, calls, s.open);
      OpenItemWaitsForNothing(s);
      assert Select(Fed(calls), s.open) == Select(Events(hs), s.open);
    }
  }

  /** Once every item that upstream mentioned is done, the queue is empty and no block is open. */
  lemma AllDoneLeavesNothing(prefix: string, calls: seq<Call>)
    requires AllNumbered(Fed(calls)) && AllDone(Fed(calls))
    ensures Run(prefix, calls).0.deferred == [] && Run(prefix, calls).0.open == None
  {
    hide Run, Select, Fed, Events;
    var (s, hs) := Run(prefix, calls);
    RunWorks(prefix, calls);
    NothingStranded(prefix, calls);
    if s.open.Some? {
      ItemsKeepTheirOrder(prefix, calls, s.open);
      OpenIsNotDone(Fed(calls), hs, s);
    } else {
      NothingWaits(s);
    }
  }

  /** So the end of the response then adds its own events and nothing else. */
  lemma CompletedAddsNothing(prefix: string, calls: seq<Call>, truncated: bool)
    requires AllNumbered(Fed(calls)) && AllDone(Fed(calls)) && !Run(prefix, calls).0.finished
    ensures Flatten(Push(prefix, Run(prefix, calls).0, Completed(truncated)).1)
         == (if Run(prefix, calls).0.started then [] else [MessageStart])
            + [MessageDelta(StopReason(Run(prefix, calls).0, truncated)), MessageStop]
  {
    AllDoneLeavesNothing(prefix, calls);
    EveryRunIsGrammatical(prefix, calls);
    hide *;
    QuietEnd(prefix, Run(prefix, calls).0, truncated);
  }

  /** The end of a response when nothing is queued and nothing is open. */
  lemma QuietEnd(prefix: string, s: State, truncated: bool)
    requires Inv(s) && s.deferred == [] && s.open == None && !s.finished
    ensures Flatten(Push(prefix, s, Completed(truncated)).1)
         == (if s.started then [] else [MessageStart]) + [MessageDelta(StopReason(s, truncated)), MessageStop]
  {
    var (s1, start) := EnsureStart(s);
    assert forall k :: k in s.blocks ==> BlockOk(s, k, s.blocks[k]);
    CloseListedNone(s1, s1.order);
    OnCompletedQuiet(prefix, s, truncated);
    var last := Handled(Completed(truncated), -1, [MessageDelta(StopReason(s, truncated)), MessageStop]);
    var first := Handled(Completed(truncated), -1, start);
    PushQuiet(prefix, s, truncated);
    hide Push, OnCompleted, EnsureStart, Inv, Flatten;
    assert [first, last] == [] + [first] + [last];
    FlattenSnoc([] + [first], last);
    FlattenSnoc([], first);
    FlattenNone();
    assert [] + start == start;
  }

  lemma FlattenNone()
    ensures Flatten([]) == []
  {
  }

  lemma PushQuiet(prefix: string, s: State, truncated: bool)
    requires !s.finished && OnCompleted(prefix, s, truncated).0.deferred == []
    ensures Push(prefix, s, Completed(truncated)).1 == OnCompleted(prefix, s, truncated).1
  {
    var (s1, hs) := OnCompleted(prefix, s, truncated);
    hide OnCompleted;
    assert hs + [] == hs;
  }

  lemma OnCompletedQuiet(prefix: string, s: State, truncated: bool)
    requires !s.finished && s.deferred == [] && s.open == None
    requires CloseListed(EnsureStart(s).0, s.order) == (EnsureStart(s).0, [])
    ensures OnCompleted(prefix, s, truncated).1
         == [Handled(Completed(truncated), -1, EnsureStart(s).1),
             Handled(Completed(truncated), -1, [MessageDelta(StopReason(s, truncated)), MessageStop])]
    ensures OnCompleted(prefix, s, truncated).0.deferred == []
  {
    var s1 := EnsureStart(s).0;
    assert ForceDrain(prefix, s1) == (s1, []);
    assert CloseAll(s1) == (s1, []);
    assert [] + [MessageDelta(StopReason(s, truncated)), MessageStop]
           == [MessageDelta(StopReason(s, truncated)), MessageStop];
  }
}
