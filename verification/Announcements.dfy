/** What announcing an item does, with or without a number. */
module Announcements {
  import opened Translator
  import opened Deferral

  /** An item that is announced again is not started over. */
  lemma AnnouncedOnce(prefix: string, s: State, e: Event)
    requires e.ItemAdded? && KeyOf(s, e) in s.blocks
    ensures StepOn(prefix, s, e).0 == s.(started := true)
    ensures StepOn(prefix, s, e).1.out == if s.started then [] else [MessageStart]
  {
  }

  /** The items are numbered by count. */
  ghost predicate Counted(s: State) {
    forall k :: k in s.blocks <==> 0 <= k < |s.blocks|
  }

  predicate Unnumbered(e: Event) {
    IsDeferrable(e) ==> e.index.None?
  }

  predicate AllUnnumbered(es: seq<Event>) {
    forall i :: 0 <= i < |es| ==> Unnumbered(es[i])
  }

  predicate Announces(e: Event) {
    e.ItemAdded? && e.item.kind != OtherItem
  }

  /** How many items of the known kinds were announced. */
  function Announced(es: seq<Event>): nat {
    if es == [] then 0 else Announced(es[..|es| - 1]) + (if Announces(es[|es| - 1]) then 1 else 0)
  }

  lemma {:induction false} AnnouncedConcat(a: seq<Event>, b: seq<Event>)
    ensures Announced(a + b) == Announced(a) + Announced(b)
    decreases |b|
  {
    if b == [] {
      assert a + b == a;
    } else {
      assert (a + b)[..|a + b| - 1] == a + b[..|b| - 1];
      AnnouncedConcat(a, b[..|b| - 1]);
    }
  }

  lemma AnnouncedOne(e: Event)
    ensures Announced([e]) == if Announces(e) then 1 else 0
  {
    assert [e][..0] == [];
  }

  /** From `s` to `s1` every announced item got its own place. */
  ghost predicate Counts(s: State, n: nat, s1: State) {
    Counted(s) ==> Counted(s1) && |s1.blocks| == |s.blocks| + n
  }

  lemma SetCounts(s: State, k: int, st: BlockState)
    requires Counted(s) && 0 <= k <= |s.blocks|
    ensures Counts(s, if k in s.blocks then 0 else 1, SetBlock(s, k, st))
  {
  }

  lemma CloseCounts(s: State, k: int)
    ensures Counts(s, 0, CloseForOther(s, k).0)
  {
    if Counted(s) && s.open.Some? && s.open.value in s.blocks {
      SetCounts(s, s.open.value, s.blocks[s.open.value].(isOpen := false));
    }
  }

  lemma SameBlocks(s: State, s1: State)
    requires s1.blocks == s.blocks
    ensures Counts(s, 0, s1)
  {
  }

  lemma AddedCounts(s0: State, item: Item)
    requires Counted(s0)
    ensures Counts(s0, if item.kind == OtherItem then 0 else 1, OnItemAdded(s0, |s0.blocks|, item).0)
  {
    hide CloseForOther, ToolId;
    var k, s := |s0.blocks|, s0.(started := true);
    assert k !in s0.blocks;
    CloseCounts(s, k);
    CloseCounts(s0, k);
    match item.kind {
      case ReasoningItem => SetCounts(s, k, BlockState(-1, Thinking, false, 0, ""));
      case MessageItem => SetCounts(s, k, BlockState(-1, Message, false, 0, ""));
      case OtherItem =>
      case FunctionCallItem =>
        var s1 := CloseForOther(s, k).0;
        SetCounts(s1, k, BlockState(s1.nextIndex, FunctionCall, true, 0, ""));
    }
  }

  /** Without numbers, what is not an announcement finds no item. */
  lemma StepOnCounts(prefix: string, s: State, e: Event)
    requires Unnumbered(e)
    ensures Counts(s, Announced([e]), StepOn(prefix, s, e).0)
  {
    hide CloseForOther, OnThinkingDone, ToolId, OnItemAdded;
    AnnouncedOne(e);
    if Counted(s) {
      assert -1 !in s.blocks;
      if e.ItemAdded? {
        AddedCounts(s, e.item);
      }
    }
  }

  lemma CountsTrans(s: State, m: nat, s1: State, n: nat, s2: State)
    requires Counts(s, m, s1) && Counts(s1, n, s2)
    ensures Counts(s, m + n, s2)
  {
  }

  lemma RequeuedCounts(s: State, q: seq<Event>, n: nat, s1: State)
    requires Counts(s.(deferred := q), n, s1)
    ensures Counts(s, n, s1)
  {
  }

  lemma WithoutUnnumbered(s: State, i: nat)
    requires i < |s.deferred| && AllUnnumbered(s.deferred)
    ensures Unnumbered(s.deferred[i]) && AllUnnumbered(Without(s, i).deferred)
  {
  }

  lemma {:induction false} DrainCounts(prefix: string, s: State)
    requires AllUnnumbered(s.deferred)
    ensures var (s1, hs) := Drain(prefix, s); Counts(s, Announced(Events(hs)), s1) && AllUnnumbered(s1.deferred)
    decreases |s.deferred|
  {
    hide Drain, StepOn, FirstReady, ShouldDefer, Counts, AllUnnumbered, Announced, Unnumbered;
    DrainUnfolds(prefix, s);
    var i := FirstReady(s, s.deferred);
    if i < |s.deferred| {
      WithoutUnnumbered(s, i);
      var (s1, h) := StepOn(prefix, Without(s, i), s.deferred[i]);
      StepOnCounts(prefix, Without(s, i), s.deferred[i]);
      RequeuedCounts(s, Without(s, i).deferred, Announced([s.deferred[i]]), s1);
      DrainCounts(prefix, s1);
      MoreCounts(h, Drain(prefix, s1).1);
      CountsTrans(s, Announced([h.event]), s1, Announced(Events(Drain(prefix, s1).1)), Drain(prefix, s1).0);
    } else {
      NoneCounts(s, s);
    }
  }

  lemma MoreCounts(h: Handled, hs: seq<Handled>)
    ensures Announced(Events([h] + hs)) == Announced([h.event]) + Announced(Events(hs))
  {
    EventsConcat([h], hs);
    assert Events([h]) == [h.event];
    AnnouncedConcat([h.event], Events(hs));
  }

  lemma NoneCounts(s: State, s1: State)
    requires s1.blocks == s.blocks
    ensures Counts(s, Announced(Events([])), s1)
  {
  }

  lemma {:induction false} ForceDrainCounts(prefix: string, s: State)
    requires AllUnnumbered(s.deferred)
    ensures var (s1, hs) := ForceDrain(prefix, s); Counts(s, Announced(Events(hs)), s1)
    decreases |s.deferred|
  {
    hide ForceDrain, StepOn, Counts, AllUnnumbered, Announced, Unnumbered;
    ForceDrainUnfolds(prefix, s);
    if s.deferred != [] {
      WithoutUnnumbered(s, 0);
      var (s1, h) := StepOn(prefix, Without(s, 0), s.deferred[0]);
      StepOnCounts(prefix, Without(s, 0), s.deferred[0]);
      RequeuedCounts(s, Without(s, 0).deferred, Announced([s.deferred[0]]), s1);
      assert s1.deferred == Without(s, 0).deferred;
      ForceDrainCounts(prefix, s1);
      MoreCounts(h, ForceDrain(prefix, s1).1);
      CountsTrans(s, Announced([h.event]), s1, Announced(Events(ForceDrain(prefix, s1).1)), ForceDrain(prefix, s1).0);
    } else {
      NoneCounts(s, s);
    }
  }

  lemma {:induction false} CloseListedCounts(s: State, keys: seq<int>)
    ensures Counts(s, 0, CloseListed(s, keys).0)
    decreases |keys|
  {
    if keys != [] {
      var k := keys[0];
      if k in s.blocks && s.blocks[k].isOpen && s.blocks[k].blockIndex >= 0 {
        CloseListedCounts(SetBlock(s, k, s.blocks[k].(isOpen := false)), keys[1..]);
        if Counted(s) {
          SetCounts(s, k, s.blocks[k].(isOpen := false));
        }
      } else {
        CloseListedCounts(s, keys[1..]);
      }
    }
  }

  lemma CloseAllCounts(s: State)
    ensures Counts(s, 0, CloseAll(s).0) && CloseAll(s).0.deferred == s.deferred
  {
    hide CloseListed;
    CloseListedCounts(s, s.order);
  }

  lemma EndCounts(prefix: string, s: State, hs: seq<Handled>, last: Handled)
    requires !Announces(last.event) && AllUnnumbered(s.deferred)
    requires hs == ForceDrain(prefix, s).1 + [last]
    ensures Counts(s, Announced(Events(hs)), CloseAll(ForceDrain(prefix, s).0).0)
    ensures CloseAll(ForceDrain(prefix, s).0).0.deferred == []
  {
    hide ForceDrain, CloseAll, Counts, AllUnnumbered, Announced;
    var (s1, drained) := ForceDrain(prefix, s);
    ForceDrainCounts(prefix, s);
    CloseAllCounts(s1);
    CountsTrans(s, Announced(Events(drained)), s1, 0, CloseAll(s1).0);
    EventsConcat(drained, [last]);
    assert Events([last]) == [last.event];
    AnnouncedConcat(Events(drained), [last.event]);
    AnnouncedOne(last.event);
  }

  lemma EndedCounts(s: State, n: nat, s1: State)
    requires Counts(s, n, s1)
    ensures Counts(s, n, s1.(finished := true))
  {
  }

  lemma FailureCounts(prefix: string, s: State, message: string)
    requires AllUnnumbered(s.deferred)
    ensures var (s1, hs) := EmitFailure(prefix, s, message);
            Counts(s, Announced(Events(hs)), s1) && s1.deferred == []
  {
    hide ForceDrain, CloseAll, Counts, AllUnnumbered, Announced, Events;
    var (s1, hs) := EmitFailure(prefix, s, message);
    EndCounts(prefix, s, hs, hs[|hs| - 1]);
    EndedCounts(s, Announced(Events(hs)), CloseAll(ForceDrain(prefix, s).0).0);
  }

  lemma CompletedCounts(prefix: string, s: State, truncated: bool)
    requires AllUnnumbered(s.deferred) && !s.finished
    ensures var (s1, hs) := OnCompleted(prefix, s, truncated);
            Counts(s, Announced(Events(hs)), s1) && s1.deferred == []
  {
    hide ForceDrain, CloseAll, Counts, AllUnnumbered, Announced, Events;
    var (s1, start) := EnsureStart(s);
    var (s2, hs) := OnCompleted(prefix, s, truncated);
    var rest := ForceDrain(prefix, s1).1 + [hs[|hs| - 1]];
    EndCounts(prefix, s1, rest, hs[|hs| - 1]);
    EndedCounts(s1, Announced(Events(rest)), CloseAll(ForceDrain(prefix, s1).0).0);
    SameBlocks(s, s1);
    CountsTrans(s, 0, s1, Announced(Events(rest)), s2);
    assert hs == [hs[0]] + rest;
    MoreCounts(hs[0], rest);
    AnnouncedOne(hs[0].event);
  }

  lemma FailCounts(prefix: string, s: State, message: string)
    requires AllUnnumbered(s.deferred)
    ensures var (s1, hs) := Fail(prefix, s, message);
            Counts(s, Announced(Events(hs)), s1) && AllUnnumbered(s1.deferred)
  {
    hide EmitFailure, Counts, Announced, Events;
    NoneCounts(s, s);
    FailureCounts(prefix, s, message);
  }

  lemma HandleCounts(prefix: string, s: State, e: Event)
    requires Unnumbered(e) && AllUnnumbered(s.deferred)
    ensures var (s1, hs) := HandleEvent(prefix, s, e);
            Counts(s, Announced(Events(hs)), s1) && AllUnnumbered(s1.deferred)
  {
    hide EmitFailure, Counts, Announced, StepOn;
    NoneCounts(s, s);
    match e {
      case Failed(message) => FailureCounts(prefix, s, message);
      case Completed(truncated) => if !s.finished { CompletedCounts(prefix, s, truncated); }
      case _ =>
        StepOnCounts(prefix, s, e);
        StepEvents(prefix, s, e);
    }
  }

  lemma StepEvents(prefix: string, s: State, e: Event)
    ensures Events([StepOn(prefix, s, e).1]) == [e]
  {
  }

  lemma PushCounts(prefix: string, s: State, e: Event)
    requires Unnumbered(e) && AllUnnumbered(s.deferred)
    ensures var (s1, hs) := Push(prefix, s, e);
            Counts(s, Announced(Events(hs)), s1) && AllUnnumbered(s1.deferred)
  {
    hide HandleEvent, Drain, Counts, Announced, Events, Unnumbered, ShouldDefer;
    if ShouldDefer(s, e) {
      NoneCounts(s, s.(deferred := s.deferred + [e]));
    } else {
      HandleCounts(prefix, s, e);
      var (s1, hs) := HandleEvent(prefix, s, e);
      DrainCounts(prefix, s1);
      var (s2, more) := Drain(prefix, s1);
      CountsTrans(s, Announced(Events(hs)), s1, Announced(Events(more)), s2);
      EventsConcat(hs, more);
      AnnouncedConcat(Events(hs), Events(more));
    }
  }

  /**
   Over every run in which upstream numbers nothing: the announced items are numbered 0, 1, 2, ...,
   so that no two of them are taken for the same.
   */
  lemma {:induction false} UnnumberedAreCounted(prefix: string, calls: seq<Call>)
    requires AllUnnumbered(Fed(calls))
    ensures var (s, hs) := Run(prefix, calls);
            && (forall k :: k in s.blocks <==> 0 <= k < Announced(Events(hs)))
            && |s.blocks| == Announced(Events(hs)) && AllUnnumbered(s.deferred)
    decreases |calls|
  {
    if calls != [] {
      var init, call := calls[..|calls| - 1], calls[|calls| - 1];
      assert Fed(init) == Fed(calls)[..|Fed(init)|];
      assert call.Feed? ==> Fed(calls)[|Fed(init)|] == call.event;
      hide Unnumbered;
      UnnumberedAreCounted(prefix, init);
      var (s, hs) := Run(prefix, init);
      hide Push, Fail, Announced, Events;
      match call {
        case Feed(e) => PushCounts(prefix, s, e);
        case Abort(message) => FailCounts(prefix, s, message);
        case End => FailCounts(prefix, s, TRUNCATED);
      }
      EventsConcat(hs, Invoke(prefix, s, call).1);
      AnnouncedConcat(Events(hs), Events(Invoke(prefix, s, call).1));
    }
  }
}
