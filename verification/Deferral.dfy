/**
 The deferred queue: it never holds back an event that could be processed, it keeps the order of
 each item's events, and it is empty once every item is done.
 */
module Deferral {
  import opened Common
  import opened Translator

  /** The events that were processed, in order. */
  function Events(hs: seq<Handled>): seq<Event> {
    seq(|hs|, i requires 0 <= i < |hs| => hs[i].event)
  }

  /** The events that were fed to the translator, in order. */
  function Fed(calls: seq<Call>): seq<Event> {
    if calls == [] then []
    else
      var last := calls[|calls| - 1];
      Fed(calls[..|calls| - 1]) + (if last.Feed? then [last.event] else [])
  }

  predicate Has(e: Event, x: Option<int>) {
    IsDeferrable(e) && e.index == x
  }

  /** The events of the item numbered `x`. */
  function Select(es: seq<Event>, x: Option<int>): seq<Event> {
    if es == [] then []
    else Select(es[..|es| - 1], x) + (if Has(es[|es| - 1], x) then [es[|es| - 1]] else [])
  }

  lemma SelectSnoc(es: seq<Event>, e: Event, x: Option<int>)
    ensures Select(es + [e], x) == Select(es, x) + (if Has(e, x) then [e] else [])
  {
    assert (es + [e])[..|es|] == es;
  }

  lemma {:induction false} SelectConcat(a: seq<Event>, b: seq<Event>, x: Option<int>)
    ensures Select(a + b, x) == Select(a, x) + Select(b, x)
    decreases |b|
  {
    if b == [] {
      assert a + b == a;
    } else {
      var n := |b| - 1;
      SelectConcat(a, b[..n], x);
      assert a + b == (a + b[..n]) + [b[n]];
      SelectSnoc(a + b[..n], b[n], x);
    }
  }

  lemma {:induction false} SelectNone(es: seq<Event>, x: Option<int>)
    requires forall e :: e in es ==> !Has(e, x)
    ensures Select(es, x) == []
    decreases |es|
  {
    if es != [] {
      SelectNone(es[..|es| - 1], x);
    }
  }

  lemma EventsConcat(a: seq<Handled>, b: seq<Handled>)
    ensures Events(a + b) == Events(a) + Events(b)
  {
  }

  // What waits must wait

  predicate QueueOk(s: State) {
    forall i :: 0 <= i < |s.deferred| ==> IsDeferrable(s.deferred[i])
  }

  /** No queued event could be processed now. */
  predicate NothingReady(s: State) {
    forall i :: 0 <= i < |s.deferred| ==> ShouldDefer(s, s.deferred[i])
  }

  lemma {:induction false} DrainWaits(prefix: string, s: State)
    ensures NothingReady(Drain(prefix, s).0)
    decreases |s.deferred|
  {
    var i := FirstReady(s, s.deferred);
    if i < |s.deferred| {
      hide StepOn;
      DrainWaits(prefix, StepOn(prefix, Without(s, i), s.deferred[i]).0);
    }
  }

  lemma InvokeWaits(prefix: string, s: State, call: Call)
    requires NothingReady(s)
    ensures NothingReady(Invoke(prefix, s, call).0)
  {
    match call {
      case Feed(e) =>
        if ShouldDefer(s, e) {
          assert Invoke(prefix, s, call).0.deferred == s.deferred + [e];
        } else {
          DrainWaits(prefix, HandleEvent(prefix, s, e).0);
        }
      case Abort(message) => EmitFailureEmpties(prefix, s, message);
      case End => EmitFailureEmpties(prefix, s, TRUNCATED);
    }
  }

  lemma {:induction false} CloseListedFrame(s: State, keys: seq<int>)
    ensures CloseListed(s, keys).0.deferred == s.deferred
    ensures CloseListed(s, keys).0.blocks.Keys == s.blocks.Keys
    decreases |keys|
  {
    if keys != [] {
      var k := keys[0];
      if k in s.blocks && s.blocks[k].isOpen && s.blocks[k].blockIndex >= 0 {
        CloseListedFrame(SetBlock(s, k, s.blocks[k].(isOpen := false)), keys[1..]);
      } else {
        CloseListedFrame(s, keys[1..]);
      }
    }
  }

  lemma EmitFailureEmpties(prefix: string, s: State, message: string)
    ensures EmitFailure(prefix, s, message).0.deferred == [] && EmitFailure(prefix, s, message).0.open == None
  {
    var s1 := ForceDrain(prefix, s).0;
    CloseListedFrame(s1, s1.order);
  }

  /**
   After every call, an event is only still queued if the block of another item that must not be
   interrupted is open; in particular, no queued event belongs to the open item.
   */
  lemma {:induction false} NothingStranded(prefix: string, calls: seq<Call>)
    ensures NothingReady(Run(prefix, calls).0)
    decreases |calls|
  {
    if calls != [] {
      NothingStranded(prefix, calls[..|calls| - 1]);
      InvokeWaits(prefix, Run(prefix, calls[..|calls| - 1]).0, calls[|calls| - 1]);
    }
  }

  // Each item's events keep their order

  /** What was processed and then what still waits. */
  function Account(hs: seq<Handled>, s: State, x: Option<int>): seq<Event> {
    Select(Events(hs), x) + Select(s.deferred, x)
  }

  lemma AccountTrans(a: seq<Handled>, s1: State, b: seq<Handled>, s2: State, more: seq<Event>, x: Option<int>)
    requires Account(b, s2, x) == Select(s1.deferred, x) + more
    ensures Account(a + b, s2, x) == Account(a, s1, x) + more
  {
    EventsConcat(a, b);
    hide Events;
    SelectConcat(Events(a), Events(b), x);
    hide Select;
    assert Select(Events(a), x) + Select(Events(b), x) + Select(s2.deferred, x)
        == Select(Events(a), x) + (Select(Events(b), x) + Select(s2.deferred, x));
    ConcatAssoc(Select(Events(a), x), Select(s1.deferred, x), more);
  }

  lemma SelectWithout(before: seq<Event>, e: Event, after: seq<Event>, x: Option<int>)
    requires Has(e, x) ==> forall b :: b in before ==> !Has(b, x)
    ensures Select(before + [e] + after, x) == Select([e], x) + Select(before + after, x)
  {
    SelectConcat(before + [e], after, x);
    SelectConcat(before, [e], x);
    SelectConcat(before, after, x);
    if Has(e, x) {
      SelectNone(before, x);
    } else {
      SelectNone([e], x);
    }
  }

  /** Taking the first event that is ready does not overtake an event of the same item. */
  lemma TakeFirstReady(s: State, i: nat, x: Option<int>)
    requires QueueOk(s) && i < |s.deferred|
    requires !ShouldDefer(s, s.deferred[i]) && forall j :: 0 <= j < i ==> ShouldDefer(s, s.deferred[j])
    ensures QueueOk(Without(s, i))
    ensures Select(s.deferred, x) == Select([s.deferred[i]], x) + Select(Without(s, i).deferred, x)
  {
    hide Select;
    var q := s.deferred;
    var e, before, after := q[i], q[..i], q[i + 1..];
    assert q == before + [e] + after;
    assert IsDeferrable(e);
    if Has(e, x) {
      forall j | 0 <= j < i
        ensures !Has(q[j], x)
      {
        assert ShouldDefer(s, q[j]);
      }
    }
    SelectWithout(before, e, after, x);
  }

  lemma {:induction false} DrainAccount(prefix: string, s: State, x: Option<int>)
    requires QueueOk(s)
    ensures Account(Drain(prefix, s).1, Drain(prefix, s).0, x) == Select(s.deferred, x)
    ensures QueueOk(Drain(prefix, s).0)
    decreases |s.deferred|
  {
    hide Drain, StepOn, Select, FirstReady, Account, ShouldDefer, QueueOk;
    DrainUnfolds(prefix, s);
    var i := FirstReady(s, s.deferred);
    if i < |s.deferred| {
      TakeFirstReady(s, i, x);
      var (s1, h) := StepOn(prefix, Without(s, i), s.deferred[i]);
      SameQueue(Without(s, i), s1);
      DrainAccount(prefix, s1, x);
      var (s2, hs) := Drain(prefix, s1);
      assert Select(s1.deferred, x) + [] == Select(s1.deferred, x);
      AccountTrans([h], s1, hs, s2, [], x);
      OneAccount(h, s1, x);
      assert Account([h], s1, x) + [] == Account([h], s1, x);
    } else {
      NothingAccounted(s, x);
    }
  }

  lemma SameQueue(s: State, s1: State)
    requires QueueOk(s) && s1.deferred == s.deferred
    ensures QueueOk(s1)
  {
  }

  lemma OneAccount(h: Handled, s: State, x: Option<int>)
    ensures Account([h], s, x) == Select([h.event], x) + Select(s.deferred, x)
  {
    assert Events([h]) == [h.event];
  }

  lemma {:induction false} ForceDrainAccount(prefix: string, s: State, x: Option<int>)
    ensures Select(Events(ForceDrain(prefix, s).1), x) == Select(s.deferred, x)
    decreases |s.deferred|
  {
    hide StepOn, Select, ForceDrain;
    ForceDrainUnfolds(prefix, s);
    if s.deferred != [] {
      var e := s.deferred[0];
      var (s1, h) := StepOn(prefix, Without(s, 0), e);
      ForceDrainAccount(prefix, s1, x);
      EventsConcat([h], ForceDrain(prefix, s1).1);
      assert Events([h]) == [e];
      SelectConcat([e], Events(ForceDrain(prefix, s1).1), x);
      SelectConcat([e], s.deferred[1..], x);
      assert s.deferred == [e] + s.deferred[1..];
    } else {
      assert Events([]) == [];
    }
  }

  lemma EmitFailureAccount(prefix: string, s: State, message: string, x: Option<int>)
    ensures Account(EmitFailure(prefix, s, message).1, EmitFailure(prefix, s, message).0, x) == Select(s.deferred, x)
  {
    var (s1, hs) := EmitFailure(prefix, s, message);
    EmitFailureEmpties(prefix, s, message);
    ForceDrainAccount(prefix, s, x);
    var drained := ForceDrain(prefix, s).1;
    var last := hs[|hs| - 1];
    assert hs == drained + [last] && last.event == Event.Failed(message);
    hide EmitFailure, ForceDrain, Select;
    EventsConcat(drained, [last]);
    assert Events([last]) == [last.event];
    SelectConcat(Events(drained), [last.event], x);
    SelectNone([last.event], x);
  }

  lemma OnCompletedAccount(prefix: string, s: State, truncated: bool, x: Option<int>)
    requires !s.finished
    ensures Account(OnCompleted(prefix, s, truncated).1, OnCompleted(prefix, s, truncated).0, x)
            == Select(s.deferred, x)
    ensures OnCompleted(prefix, s, truncated).0.deferred == []
  {
    var (s3, hs) := OnCompleted(prefix, s, truncated);
    var s1 := EnsureStart(s).0;
    ForceDrainAccount(prefix, s1, x);
    var (s2, drained) := ForceDrain(prefix, s1);
    CloseListedFrame(s2, s2.order);
    var first, last := hs[0], hs[|hs| - 1];
    assert hs == [first] + drained + [last];
    assert !IsDeferrable(first.event) && !IsDeferrable(last.event);
    hide OnCompleted, ForceDrain, Select, EnsureStart, Events;
    Sandwich(first, drained, last, x);
    NoneSelected(x);
  }

  lemma NoneSelected(x: Option<int>)
    ensures Select([], x) == []
  {
  }

  lemma Sandwich(first: Handled, drained: seq<Handled>, last: Handled, x: Option<int>)
    requires !IsDeferrable(first.event) && !IsDeferrable(last.event)
    ensures Select(Events([first] + drained + [last]), x) == Select(Events(drained), x)
  {
    EventsConcat([first] + drained, [last]);
    EventsConcat([first], drained);
    assert Events([last]) == [last.event] && Events([first]) == [first.event];
    SelectNone([last.event], x);
    SelectNone([first.event], x);
    hide Select, Events;
    SelectConcat([first.event] + Events(drained), [last.event], x);
    SelectConcat([first.event], Events(drained), x);
  }

  /** An event that is not deferred overtakes no event of its own item. */
  lemma HandleEventAccount(prefix: string, s: State, e: Event, x: Option<int>)
    requires QueueOk(s) && NothingReady(s) && !ShouldDefer(s, e)
    ensures Account(HandleEvent(prefix, s, e).1, HandleEvent(prefix, s, e).0, x)
         == Select(s.deferred, x) + Select([e], x)
    ensures QueueOk(HandleEvent(prefix, s, e).0)
  {
    hide Account, Select, StepOn, EmitFailure, NothingReady, ShouldDefer;
    if e.Completed? || e.Failed? {
      SelectNone([e], x);
      if s.finished {
        NothingAccounted(s, x);
      } else if e.Completed? {
        OnCompletedAccount(prefix, s, e.truncated, x);
      } else {
        EmitFailureAccount(prefix, s, e.message, x);
        EmitFailureEmpties(prefix, s, e.message);
      }
      hide OnCompleted;
    } else {
      StepAccount(prefix, s, e, x);
    }
  }

  lemma NothingAccounted(s: State, x: Option<int>)
    ensures Account([], s, x) == Select(s.deferred, x)
  {
    assert Events([]) == [];
  }

  lemma StepAccount(prefix: string, s: State, e: Event, x: Option<int>)
    requires NothingReady(s) && !ShouldDefer(s, e)
    ensures var (s1, h) := StepOn(prefix, s, e);
            Account([h], s1, x) == Select(s.deferred, x) + Select([e], x) && s1.deferred == s.deferred
  {
    var (s1, h) := StepOn(prefix, s, e);
    assert h.event == e;
    hide StepOn;
    OneAccount(h, s1, x);
    if Has(e, x) {
      SelectNone(s.deferred, x);
    } else {
      SelectNone([e], x);
    }
    hide Select, Account;
  }

  lemma PushAccount(prefix: string, s: State, e: Event, x: Option<int>)
    requires QueueOk(s) && NothingReady(s)
    ensures Account(Push(prefix, s, e).1, Push(prefix, s, e).0, x) == Select(s.deferred, x) + Select([e], x)
    ensures QueueOk(Push(prefix, s, e).0)
  {
    if ShouldDefer(s, e) {
      SelectConcat(s.deferred, [e], x);
      assert Events([]) == [];
    } else {
      HandleEventAccount(prefix, s, e, x);
      var (s1, hs) := HandleEvent(prefix, s, e);
      hide HandleEvent, Drain, Select, Account, ShouldDefer;
      DrainAccount(prefix, s1, x);
      AccountTrans(hs, s1, Drain(prefix, s1).1, Drain(prefix, s1).0, [], x);
    }
  }

  lemma FailAccount(prefix: string, s: State, message: string, x: Option<int>)
    requires QueueOk(s)
    ensures Account(Fail(prefix, s, message).1, Fail(prefix, s, message).0, x) == Select(s.deferred, x)
    ensures QueueOk(Fail(prefix, s, message).0)
  {
    if s.finished {
      assert Events([]) == [];
    } else {
      EmitFailureAccount(prefix, s, message, x);
      EmitFailureEmpties(prefix, s, message);
    }
  }

  lemma InvokeAccount(prefix: string, s: State, call: Call, x: Option<int>)
    requires QueueOk(s) && NothingReady(s)
    ensures Account(Invoke(prefix, s, call).1, Invoke(prefix, s, call).0, x)
         == Select(s.deferred, x) + Select(Fed([call]), x)
    ensures QueueOk(Invoke(prefix, s, call).0)
  {
    assert [call][..0] == [];
    assert Fed([call]) == if call.Feed? then [call.event] else [];
    match call {
      case Feed(e) => PushAccount(prefix, s, e, x);
      case Abort(message) => FailAccount(prefix, s, message, x);
      case End => FailAccount(prefix, s, TRUNCATED, x);
    }
  }

  /**
   Nothing is lost, repeated or reordered within an item: what was processed for it, followed by
   what waits in the queue, is what was fed for it.
   */
  lemma {:induction false} ItemsKeepTheirOrder(prefix: string, calls: seq<Call>, x: Option<int>)
    ensures var (s, hs) := Run(prefix, calls);
            Account(hs, s, x) == Select(Fed(calls), x) && QueueOk(s)
    decreases |calls|
  {
    if calls == [] {
      assert Events([]) == [];
    } else {
      var init, call := calls[..|calls| - 1], calls[|calls| - 1];
      ItemsKeepTheirOrder(prefix, init, x);
      NothingStranded(prefix, init);
      var (s, hs) := Run(prefix, init);
      InvokeAccount(prefix, s, call, x);
      var (s1, more) := Invoke(prefix, s, call);
      assert [call][..0] == [];
      assert Fed(calls) == Fed(init) + Fed([call]);
      hide Invoke, Select, Account, Fed;
      AccountTrans(hs, s, more, s1, Select(Fed([call]), x), x);
      SelectConcat(Fed(init), Fed([call]), x);
    }
  }
}
