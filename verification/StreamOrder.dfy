/** What a client can rely on, stated about the plain list of emitted events. */
module StreamOrder {
  import opened Common
  import opened Translator
  import opened Grammar
  import opened GrammarRuns

  predicate IsMessageStart(o: Out) { o.MessageStart? }

  predicate IsStart(o: Out) { o.BlockStart? }

  predicate IsStop(o: Out) { o.BlockStop? }

  predicate IsTerminal(o: Out) { o.MessageStop? || o.Failure? }

  function Count(p: Out -> bool, outs: seq<Out>): nat {
    if outs == [] then 0
    else Count(p, outs[..|outs| - 1]) + (if p(outs[|outs| - 1]) then 1 else 0)
  }

  /** `o` is the first content of block `n`: visible text of the block's own kind. */
  predicate Speaks(o: Out, n: int, b: Block) {
    && o.BlockDelta? && o.index == n && !IsBlank(o.delta.s)
    && (if b.TextBlock? then o.delta.TextPart? else o.delta.ThinkingPart?)
  }

  /** Between blocks: as many were stopped as were started. */
  predicate Balanced(outs: seq<Out>) {
    Count(IsStart, outs) == Count(IsStop, outs)
  }

  /** Inside block `n`: it is the last one started and the only one not stopped. */
  predicate Inside(outs: seq<Out>, n: int) {
    n == Count(IsStop, outs) == Count(IsStart, outs) - 1
  }

  /** The event `o` may follow `before`. */
  predicate Placed(before: seq<Out>, o: Out) {
    match o
    case MessageStart => Count(IsMessageStart, before) == 0
    case BlockStart(n, _) => Count(IsMessageStart, before) == 1 && Balanced(before) && n == Count(IsStart, before)
    case BlockDelta(n, _) => Inside(before, n)
    case BlockStop(n) => Inside(before, n)
    case MessageDelta(_) => Count(IsMessageStart, before) == 1 && Balanced(before) && Count(IsTerminal, before) == 0
    case MessageStop => before != [] && before[|before| - 1].MessageDelta? && Balanced(before)
        && Count(IsTerminal, before) == 0
    case Failure(_) => Balanced(before) && Count(IsTerminal, before) == 0
  }

  /** A text or thinking block starts with visible text. */
  predicate Spoken(outs: seq<Out>, i: nat)
    requires i < |outs|
  {
    outs[i].BlockStart? && (outs[i].block.TextBlock? || outs[i].block.ThinkingBlock?)
    ==> i + 1 < |outs| && Speaks(outs[i + 1], outs[i].index, outs[i].block)
  }

  predicate Ordered(outs: seq<Out>) {
    && (forall i :: 0 <= i < |outs| ==> Placed(outs[..i], outs[i]))
    && (forall i :: 0 <= i < |outs| ==> Spoken(outs, i))
  }

  // The automaton's state sums up what was emitted

  predicate Unspoken(outs: seq<Out>, g: Scan) {
    && outs != [] && g.open.Some?
    && var o := outs[|outs| - 1];
       && o.BlockStart? && o.index == g.open.value.index
       && (if g.open.value.shape == TextShape then o.block.TextBlock?
           else g.open.value.shape == ThinkingShape && o.block.ThinkingBlock?)
  }

  ghost predicate Sums(outs: seq<Out>, g: Scan) {
    && Count(IsMessageStart, outs) == (if g.started then 1 else 0)
    && Count(IsStart, outs) == g.next
    && Count(IsStart, outs) == Count(IsStop, outs) + (if g.open.Some? then 1 else 0)
    && Count(IsTerminal, outs) == (if g.ended then 1 else 0)
    && (g.open.Some? ==> g.started && g.open.value.index == g.next - 1)
    && (g.trailer ==> outs != [] && outs[|outs| - 1].MessageDelta?)
    && (g.open.Some? && g.open.value.bare ==> Unspoken(outs, g))
    && (forall i :: 0 <= i < |outs| ==> Placed(outs[..i], outs[i]))
    && (forall i :: 0 <= i < |outs| ==> Spoken(outs, i) || (i == |outs| - 1 && g.open.Some? && g.open.value.bare))
  }

  lemma CountSnoc(p: Out -> bool, outs: seq<Out>, o: Out)
    ensures Count(p, outs + [o]) == Count(p, outs) + (if p(o) then 1 else 0)
  {
    assert (outs + [o])[..|outs|] == outs;
  }

  lemma PlacedSnoc(outs: seq<Out>, g: Scan, key: int, o: Out)
    requires Sums(outs, g) && Allowed(g, key, o)
    ensures forall i :: 0 <= i <= |outs| ==> Placed((outs + [o])[..i], (outs + [o])[i])
  {
    var all := outs + [o];
    assert Placed(outs, o);
    forall i | 0 <= i <= |outs|
      ensures Placed(all[..i], all[i])
    {
      if i < |outs| {
        assert all[..i] == outs[..i] && all[i] == outs[i];
      } else {
        assert all[..i] == outs && all[i] == o;
      }
    }
  }

  /** After the start of a text or thinking block only visible text of its kind is allowed. */
  lemma SpeaksNext(outs: seq<Out>, g: Scan, key: int, o: Out)
    requires Allowed(g, key, o) && Unspoken(outs, g) && g.open.value.bare && g.started
    ensures Speaks(o, outs[|outs| - 1].index, outs[|outs| - 1].block)
  {
    var start := outs[|outs| - 1];
    assert start.BlockStart? && start.index == g.open.value.index;
    assert o.BlockDelta? && Fits(g.open.value, o.delta);
  }

  lemma SpokenSnoc(outs: seq<Out>, g: Scan, key: int, o: Out)
    requires Sums(outs, g) && Allowed(g, key, o)
    ensures forall i :: 0 <= i < |outs| ==> Spoken(outs + [o], i)
  {
    var all := outs + [o];
    forall i | 0 <= i < |outs|
      ensures Spoken(all, i)
    {
      assert all[i] == outs[i];
      if i == |outs| - 1 && g.open.Some? && g.open.value.bare {
        assert all[i + 1] == o;
        SpeaksNext(outs, g, key, o);
      } else {
        assert Spoken(outs, i);
        if i + 1 < |outs| {
          assert all[i + 1] == outs[i + 1];
        }
      }
    }
  }

  lemma SumsSnoc(outs: seq<Out>, g: Scan, key: int, o: Out)
    requires Sums(outs, g) && Allowed(g, key, o)
    ensures Sums(outs + [o], Next(g, key, o))
  {
    PlacedSnoc(outs, g, key, o);
    SpokenSnoc(outs, g, key, o);
    CountSnoc(IsMessageStart, outs, o);
    CountSnoc(IsStart, outs, o);
    CountSnoc(IsStop, outs, o);
    CountSnoc(IsTerminal, outs, o);
    hide Count, Placed;
  }

  lemma {:induction false} SumsFollow(outs: seq<Out>, g: Scan, key: int, more: seq<Out>)
    requires Sums(outs, g) && Follow(g, key, more).Some?
    ensures Sums(outs + more, Follow(g, key, more).value)
    decreases |more|
  {
    hide Sums;
    if more == [] {
      assert outs + more == outs;
    } else {
      SumsSnoc(outs, g, key, more[0]);
      SumsFollow(outs + [more[0]], Next(g, key, more[0]), key, more[1..]);
      assert outs + [more[0]] + more[1..] == outs + more;
    }
  }

  lemma {:induction false} SumsFollowAll(outs: seq<Out>, g: Scan, hs: seq<Handled>)
    requires Sums(outs, g) && FollowAll(g, hs).Some?
    ensures Sums(outs + Flatten(hs), FollowAll(g, hs).value)
    decreases |hs|
  {
    hide Sums, Follow;
    if hs == [] {
      assert outs + Flatten(hs) == outs;
    } else {
      FlattenHead(hs);
      hide Flatten;
      SumsFollow(outs, g, hs[0].key, hs[0].out);
      SumsFollowAll(outs + hs[0].out, Follow(g, hs[0].key, hs[0].out).value, hs[1..]);
      assert outs + hs[0].out + Flatten(hs[1..]) == outs + Flatten(hs);
    }
  }

  /**
   Whatever is called in whatever order, the events that were emitted so far are in order: one
   message start, before any block; blocks numbered 0, 1, 2, ... and one at a time; content only
   for the block that is open; no text or thinking block without visible text; every block closed
   before the terminal event; at most one terminal event.
   */
  lemma EveryRunIsOrdered(prefix: string, calls: seq<Call>)
    ensures var (s, hs) := Run(prefix, calls);
            && Ordered(Flatten(hs))
            && Count(IsMessageStart, Flatten(hs)) <= 1
            && Count(IsTerminal, Flatten(hs)) == (if s.finished then 1 else 0)
  {
    var (s, hs) := Run(prefix, calls);
    EveryRunIsGrammatical(prefix, calls);
    assert Sums([], START);
    SumsFollowAll([], START, hs);
    assert [] + Flatten(hs) == Flatten(hs);
    assert Sums(Flatten(hs), ScanOf(s));
  }

  /** Once a terminal event was sent, reporting a failure or the end of the stream sends nothing. */
  lemma SilentAfterTheEnd(prefix: string, calls: seq<Call>, message: string)
    requires Count(IsTerminal, Flatten(Run(prefix, calls).1)) > 0
    ensures Fail(prefix, Run(prefix, calls).0, message) == (Run(prefix, calls).0, [])
    ensures Finish(prefix, Run(prefix, calls).0) == (Run(prefix, calls).0, [])
  {
    EveryRunIsOrdered(prefix, calls);
  }

  /** A run that is ended has exactly one terminal event, whatever came before. */
  lemma AlwaysOneTerminal(prefix: string, calls: seq<Call>)
    ensures Count(IsTerminal, Flatten(Run(prefix, calls + [End]).1)) == 1
  {
    var (s, hs) := Run(prefix, calls);
    assert (calls + [End])[..|calls|] == calls;
    EveryRunIsOrdered(prefix, calls + [End]);
  }
}
