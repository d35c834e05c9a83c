/** The collector on the output of the translator: nothing out of order, and every block whole. */
module CollectorTheorems {
  import opened Common
  import opened Translator
  import opened Grammar
  import opened GrammarRuns
  import opened StreamOrder
  import opened Collector

  // What was sent, block by block

  /** The events up to the first terminal one. */
  function Head(outs: seq<Out>): seq<Out> {
    if outs == [] then []
    else
      var init, o := outs[..|outs| - 1], outs[|outs| - 1];
      if Count(IsTerminal, init) > 0 then Head(init) else Head(init) + [o]
  }

  predicate IsText(d: Delta) { d.TextPart? }

  predicate IsThinking(d: Delta) { d.ThinkingPart? }

  predicate IsSignature(d: Delta) { d.SignaturePart? }

  predicate IsJson(d: Delta) { d.JsonPart? }

  /** The concatenation of what the deltas of one kind carried to block `i`. */
  function Carried(p: Delta -> bool, outs: seq<Out>, i: int): string {
    if outs == [] then ""
    else
      var o := outs[|outs| - 1];
      Carried(p, outs[..|outs| - 1], i) + (if o.BlockDelta? && o.index == i && p(o.delta) then o.delta.s else "")
  }

  /** The block that was started with number `i`. */
  function Started(outs: seq<Out>, i: int): Option<Block> {
    if outs == [] then None
    else
      var o, before := outs[|outs| - 1], Started(outs[..|outs| - 1], i);
      if before.None? && o.BlockStart? && o.index == i then Some(o.block) else before
  }

  function StopReasonOf(outs: seq<Out>): Option<string> {
    if outs == [] then None
    else
      var o := outs[|outs| - 1];
      if o.MessageDelta? then Some(o.stopReason) else StopReasonOf(outs[..|outs| - 1])
  }

  predicate IsTool(outs: seq<Out>, i: int) {
    Started(outs, i).Some? && Started(outs, i).value.ToolBlock?
  }

  /** Block `i` is a tool call whose arguments are not JSON. */
  predicate Unparsable<J>(parse: string -> Option<J>, outs: seq<Out>, i: int) {
    IsTool(outs, i) && Carried(IsJson, outs, i) != "" && parse(Carried(IsJson, outs, i)).None?
  }

  predicate AllParse<J>(parse: string -> Option<J>, outs: seq<Out>) {
    forall i :: 0 <= i < Count(IsStart, outs) ==> !Unparsable(parse, outs, i)
  }

  /** Block `i` as the message shows it. */
  function Whole<J>(parse: string -> Option<J>, empty: J, outs: seq<Out>, i: int): Collected<J>
    requires Started(outs, i).Some? && !Unparsable(parse, outs, i)
  {
    var json := Carried(IsJson, outs, i);
    Collected(Started(outs, i).value, Carried(IsText, outs, i), Carried(IsThinking, outs, i),
              Carried(IsSignature, outs, i),
              if IsTool(outs, i) && json != "" then parse(json).value else empty, json)
  }

  // What was sent, and where the automaton is

  predicate IsStopped(u: seq<Out>, i: int) {
    BlockStop(i) in u
  }

  /** Nothing was sent for block `i`. */
  predicate Bare(u: seq<Out>, i: int) {
    && Started(u, i).None?
    && Carried(IsText, u, i) == Carried(IsThinking, u, i) == Carried(IsSignature, u, i) == Carried(IsJson, u, i) == ""
  }

  ghost predicate Facts(u: seq<Out>, g: Scan) {
    && (forall i :: IsStopped(u, i) <==> 0 <= i < g.next && (g.open.Some? ==> g.open.value.index != i))
    && (forall i :: 0 <= i < g.next ==> Started(u, i).Some?)
    && (forall i :: !(0 <= i < g.next) ==> Bare(u, i))
    && (g.open.Some? ==> g.started && 0 <= g.open.value.index == g.next - 1)
  }

  lemma CarriedSnoc(p: Delta -> bool, u: seq<Out>, o: Out, i: int)
    ensures Carried(p, u + [o], i)
         == Carried(p, u, i) + (if o.BlockDelta? && o.index == i && p(o.delta) then o.delta.s else "")
  {
    assert (u + [o])[..|u|] == u;
  }

  lemma StartedSnoc(u: seq<Out>, o: Out, i: int)
    ensures Started(u + [o], i)
         == if Started(u, i).None? && o.BlockStart? && o.index == i then Some(o.block) else Started(u, i)
  {
    assert (u + [o])[..|u|] == u;
  }

  lemma StoppedSnoc(u: seq<Out>, o: Out, i: int)
    ensures IsStopped(u + [o], i) <==> IsStopped(u, i) || o == BlockStop(i)
  {
  }

  lemma NothingCarried(p: Delta -> bool, u: seq<Out>, o: Out, i: int)
    requires o.BlockDelta? ==> o.index != i
    ensures Carried(p, u + [o], i) == Carried(p, u, i)
  {
    CarriedSnoc(p, u, o, i);
    hide Carried;
    assert Carried(p, u, i) + "" == Carried(p, u, i);
  }

  /** An event only concerns its own block. */
  lemma Elsewhere(u: seq<Out>, o: Out, i: int)
    requires (o.BlockStart? || o.BlockDelta?) ==> o.index != i
    ensures Started(u + [o], i) == Started(u, i)
    ensures Carried(IsText, u + [o], i) == Carried(IsText, u, i)
    ensures Carried(IsThinking, u + [o], i) == Carried(IsThinking, u, i)
    ensures Carried(IsSignature, u + [o], i) == Carried(IsSignature, u, i)
    ensures Carried(IsJson, u + [o], i) == Carried(IsJson, u, i)
  {
    StartedSnoc(u, o, i);
    NothingCarried(IsText, u, o, i);
    NothingCarried(IsThinking, u, o, i);
    NothingCarried(IsSignature, u, o, i);
    NothingCarried(IsJson, u, o, i);
  }

  lemma FactsSnoc(u: seq<Out>, g: Scan, key: int, o: Out)
    requires Facts(u, g) && Allowed(g, key, o)
    ensures Facts(u + [o], Next(g, key, o))
  {
    var g1 := Next(g, key, o);
    forall i
      ensures IsStopped(u + [o], i) <==> 0 <= i < g1.next && (g1.open.Some? ==> g1.open.value.index != i)
    {
      StoppedSnoc(u, o, i);
    }
    forall i
      ensures 0 <= i < g1.next ==> Started(u + [o], i).Some?
    {
      StartedSnoc(u, o, i);
    }
    forall i | !(0 <= i < g1.next)
      ensures Bare(u + [o], i)
    {
      assert Bare(u, i);
      Elsewhere(u, o, i);
    }
  }

  // The collector's state sums up what was sent

  /** The content of block `i`, and its parsed input once it is stopped. */
  ghost predicate Holds<J>(parse: string -> Option<J>, empty: J, b: Collected<J>, u: seq<Out>, i: int) {
    && Started(u, i) == Some(b.block)
    && b.text == Carried(IsText, u, i) && b.thinking == Carried(IsThinking, u, i)
    && b.signature == Carried(IsSignature, u, i) && b.inputJson == Carried(IsJson, u, i)
    && (if IsStopped(u, i) && b.block.ToolBlock? && b.inputJson != "" then parse(b.inputJson) == Some(b.input)
        else b.input == empty)
  }

  function Upto(n: nat): seq<int> {
    seq(n, i => i)
  }

  ghost predicate Live<J(!new)>(parse: string -> Option<J>, empty: J, c: CollectorState<J>, u: seq<Out>, g: Scan) {
    && c.error.None?
    && c.message == (if g.started then Some(StopReasonOf(u)) else None)
    && (StopReasonOf(u).Some? ==> g.started)
    && c.order == Upto(g.next)
    && (forall i :: i in c.blocks <==> 0 <= i < g.next)
    && (forall i :: i in c.blocks ==> Holds(parse, empty, c.blocks[i], u, i))
  }

  /** A stopped tool call has arguments that are not JSON. */
  ghost predicate Broken<J>(parse: string -> Option<J>, c: CollectorState<J>, u: seq<Out>) {
    c.error == Some(MALFORMED) && exists i :: IsStopped(u, i) && Unparsable(parse, u, i)
  }

  ghost predicate Tracks<J(!new)>(parse: string -> Option<J>, empty: J, c: CollectorState<J>, u: seq<Out>, g: Scan) {
    !c.stopped && (Live(parse, empty, c, u, g) || Broken(parse, c, u))
  }

  lemma BrokenSnoc<J(!new)>(parse: string -> Option<J>, empty: J, c: CollectorState<J>, u: seq<Out>, g: Scan,
                            key: int, o: Out)
    requires Facts(u, g) && Allowed(g, key, o) && Broken(parse, c, u)
    ensures Broken(parse, Collect(parse, empty, c, o), u + [o])
  {
    var i :| IsStopped(u, i) && Unparsable(parse, u, i);
    StoppedSnoc(u, o, i);
    Elsewhere(u, o, i);
    assert Unparsable(parse, u + [o], i);
  }

  lemma HoldsElsewhere<J(!new)>(parse: string -> Option<J>, empty: J, b: Collected<J>, u: seq<Out>, o: Out, i: int)
    requires Holds(parse, empty, b, u, i)
    requires (o.BlockStart? || o.BlockDelta? || o.BlockStop?) ==> o.index != i
    ensures Holds(parse, empty, b, u + [o], i)
  {
    Elsewhere(u, o, i);
    StoppedSnoc(u, o, i);
  }

  lemma ReasonSnoc(u: seq<Out>, o: Out)
    ensures StopReasonOf(u + [o]) == if o.MessageDelta? then Some(o.stopReason) else StopReasonOf(u)
  {
    assert (u + [o])[..|u|] == u;
  }

  lemma UptoSnoc(n: nat)
    ensures Upto(n) + [n] == Upto(n + 1)
  {
  }

  /** How an event changes what the deltas of every kind carried to its own block. */
  lemma OwnCarried(u: seq<Out>, o: Out, i: int)
    requires o.BlockDelta? && o.index == i
    ensures Carried(IsText, u + [o], i) == Carried(IsText, u, i) + (if o.delta.TextPart? then o.delta.s else "")
    ensures Carried(IsThinking, u + [o], i)
         == Carried(IsThinking, u, i) + (if o.delta.ThinkingPart? then o.delta.s else "")
    ensures Carried(IsSignature, u + [o], i)
         == Carried(IsSignature, u, i) + (if o.delta.SignaturePart? then o.delta.s else "")
    ensures Carried(IsJson, u + [o], i) == Carried(IsJson, u, i) + (if o.delta.JsonPart? then o.delta.s else "")
  {
    hide Carried;
    CarriedSnoc(IsText, u, o, i);
    CarriedSnoc(IsThinking, u, o, i);
    CarriedSnoc(IsSignature, u, o, i);
    CarriedSnoc(IsJson, u, o, i);
  }

  /** The block that the event concerns. */
  lemma HoldsHere<J(!new)>(parse: string -> Option<J>, empty: J, c: CollectorState<J>, u: seq<Out>, g: Scan,
                           key: int, o: Out)
    requires Facts(u, g) && Allowed(g, key, o) && Live(parse, empty, c, u, g) && !c.stopped
    requires o.BlockStart? || o.BlockDelta? || o.BlockStop?
    ensures var c1 := Collect(parse, empty, c, o);
            if c1.error.Some? then
              && c1.error == Some(MALFORMED) && !c1.stopped
              && o.BlockStop? && Unparsable(parse, u + [o], o.index)
            else
              && o.index in c1.blocks && Holds(parse, empty, c1.blocks[o.index], u + [o], o.index)
              && (o.BlockStart? || o.index in c.blocks)
              && c1 == c.(blocks := c.blocks[o.index := c1.blocks[o.index]], order := c1.order)
              && c1.order == (if o.BlockStart? then c.order + [o.index] else c.order)
  {
    hide Carried, Started, StopReasonOf, IsStopped;
    var i := o.index;
    StoppedSnoc(u, o, i);
    StartedSnoc(u, o, i);
    if o.BlockDelta? {
      assert Holds(parse, empty, c.blocks[i], u, i);
      OwnCarried(u, o, i);
    } else {
      NothingCarried(IsText, u, o, i);
      NothingCarried(IsThinking, u, o, i);
      NothingCarried(IsSignature, u, o, i);
      NothingCarried(IsJson, u, o, i);
      if o.BlockStart? {
        assert Bare(u, i);
      } else {
        assert Holds(parse, empty, c.blocks[i], u, i);
      }
    }
  }

  /** The blocks that the event does not concern. */
  lemma HoldAround<J(!new)>(parse: string -> Option<J>, empty: J, blocks: map<int, Collected<J>>, u: seq<Out>, o: Out)
    requires forall i :: i in blocks ==> Holds(parse, empty, blocks[i], u, i)
    ensures forall i ::
              i in blocks && ((o.BlockStart? || o.BlockDelta? || o.BlockStop?) ==> o.index != i) ==>
                Holds(parse, empty, blocks[i], u + [o], i)
  {
    hide Holds;
    forall i | i in blocks && ((o.BlockStart? || o.BlockDelta? || o.BlockStop?) ==> o.index != i)
      ensures Holds(parse, empty, blocks[i], u + [o], i)
    {
      HoldsElsewhere(parse, empty, blocks[i], u, o, i);
    }
  }

  lemma LiveBlock<J(!new)>(parse: string -> Option<J>, empty: J, c: CollectorState<J>, u: seq<Out>, g: Scan, key: int,
                           o: Out)
    requires Facts(u, g) && Allowed(g, key, o) && Live(parse, empty, c, u, g) && !c.stopped
    requires o.BlockStart? || o.BlockDelta? || o.BlockStop?
    ensures Tracks(parse, empty, Collect(parse, empty, c, o), u + [o], Next(g, key, o))
  {
    hide Collect, Holds, StopReasonOf, Upto, Facts, Unparsable, IsStopped;
    HoldsHere(parse, empty, c, u, g, key, o);
    HoldAround(parse, empty, c.blocks, u, o);
    ReasonSnoc(u, o);
    UptoSnoc(g.next);
    StoppedSnoc(u, o, o.index);
    if Collect(parse, empty, c, o).error.Some? {
      JustStopped(u, o.index);
    }
  }

  lemma JustStopped(u: seq<Out>, i: int)
    ensures IsStopped(u + [BlockStop(i)], i)
  {
  }

  lemma LiveSnoc<J(!new)>(parse: string -> Option<J>, empty: J, c: CollectorState<J>, u: seq<Out>, g: Scan, key: int,
                          o: Out)
    requires Facts(u, g) && Allowed(g, key, o) && Live(parse, empty, c, u, g) && !c.stopped && !IsTerminal(o)
    ensures Tracks(parse, empty, Collect(parse, empty, c, o), u + [o], Next(g, key, o))
  {
    hide Holds, StopReasonOf, Upto, Facts, Unparsable, IsStopped;
    if o.MessageStart? || o.MessageDelta? {
      HoldAround(parse, empty, c.blocks, u, o);
      ReasonSnoc(u, o);
    } else {
      LiveBlock(parse, empty, c, u, g, key, o);
    }
  }

  // The terminal event

  /** What the collector holds after the terminal event that ends `u`. */
  ghost predicate Concluded<J(!new)>(parse: string -> Option<J>, empty: J, c: CollectorState<J>, u: seq<Out>) {
    && u != [] && IsTerminal(u[|u| - 1])
    && (u[|u| - 1].Failure? ==> c.error.Some?)
    && (u[|u| - 1].MessageStop? ==> forall i :: 0 <= i < Count(IsStart, u) ==> Started(u, i).Some?)
    && (u[|u| - 1].MessageStop? ==>
        if AllParse(parse, u) then
          && c.error.None? && c.stopped && c.message == Some(StopReasonOf(u))
          && c.order == Upto(Count(IsStart, u))
          && forall i :: 0 <= i < Count(IsStart, u) ==>
               i in c.blocks && Started(u, i).Some? && c.blocks[i] == Whole(parse, empty, u, i)
        else c.error == Some(MALFORMED))
  }

  lemma HeldIsWhole<J(!new)>(parse: string -> Option<J>, empty: J, b: Collected<J>, u: seq<Out>, i: int)
    requires Holds(parse, empty, b, u, i) && IsStopped(u, i)
    ensures !Unparsable(parse, u, i) && Started(u, i).Some? && b == Whole(parse, empty, u, i)
  {
    hide Started, Carried, IsStopped;
  }

  lemma StopConcludes<J(!new)>(parse: string -> Option<J>, empty: J, c: CollectorState<J>, w: seq<Out>, g: Scan,
                               key: int)
    requires Facts(w, g) && Tracks(parse, empty, c, w, g) && Allowed(g, key, MessageStop) && Count(IsStart, w) == g.next
    requires g.started
    ensures Concluded(parse, empty, Collect(parse, empty, c, MessageStop), w + [MessageStop])
  {
    var u := w + [MessageStop];
    CountSnoc(IsStart, w, MessageStop);
    ReasonSnoc(w, MessageStop);
    forall i | 0 <= i < g.next
      ensures Started(u, i).Some?
    {
      Elsewhere(w, MessageStop, i);
    }
    if Live(parse, empty, c, w, g) {
      forall i | 0 <= i < g.next
        ensures !Unparsable(parse, u, i) && Started(u, i).Some? && c.blocks[i] == Whole(parse, empty, u, i)
      {
        HoldsElsewhere(parse, empty, c.blocks[i], w, MessageStop, i);
        assert IsStopped(w, i);
        StoppedSnoc(w, MessageStop, i);
        HeldIsWhole(parse, empty, c.blocks[i], u, i);
      }
      hide Holds, Whole, Unparsable, Count, StopReasonOf;
    } else {
      var i :| IsStopped(w, i) && Unparsable(parse, w, i);
      Elsewhere(w, MessageStop, i);
      assert Unparsable(parse, u, i) && 0 <= i < g.next;
    }
  }

  lemma FailureConcludes<J(!new)>(parse: string -> Option<J>, empty: J, c: CollectorState<J>, w: seq<Out>, m: string)
    requires !c.stopped
    ensures Concluded(parse, empty, Collect(parse, empty, c, Failure(m)), w + [Failure(m)])
  {
  }

  // Runs

  ghost predicate Traced<J(!new)>(parse: string -> Option<J>, empty: J, outs: seq<Out>, g: Scan) {
    var c := CollectAll(parse, empty, outs);
    && Count(IsTerminal, outs) == (if g.ended then 1 else 0)
    && (g.trailer ==> g.started && !g.ended)
    && (if g.ended then Concluded(parse, empty, c, Head(outs))
        else
          && Head(outs) == outs
          && Facts(outs, g) && Tracks(parse, empty, c, outs, g) && Count(IsStart, outs) == g.next)
  }

  lemma HeadSnoc(outs: seq<Out>, o: Out)
    ensures Head(outs + [o]) == if Count(IsTerminal, outs) > 0 then Head(outs) else Head(outs) + [o]
  {
    assert (outs + [o])[..|outs|] == outs;
  }

  lemma CollectSnoc<J>(parse: string -> Option<J>, empty: J, outs: seq<Out>, o: Out)
    ensures CollectAll(parse, empty, outs + [o]) == Collect(parse, empty, CollectAll(parse, empty, outs), o)
  {
    assert (outs + [o])[..|outs|] == outs;
  }

  lemma ConcludedIgnores<J(!new)>(parse: string -> Option<J>, empty: J, c: CollectorState<J>, u: seq<Out>, o: Out)
    requires Concluded(parse, empty, c, u)
    ensures Collect(parse, empty, c, o) == c
  {
  }

  lemma TracedSnoc<J(!new)>(parse: string -> Option<J>, empty: J, outs: seq<Out>, g: Scan, key: int, o: Out)
    requires Traced(parse, empty, outs, g) && Allowed(g, key, o)
    ensures Traced(parse, empty, outs + [o], Next(g, key, o))
  {
    var c := CollectAll(parse, empty, outs);
    HeadSnoc(outs, o);
    CollectSnoc(parse, empty, outs, o);
    CountSnoc(IsTerminal, outs, o);
    CountSnoc(IsStart, outs, o);
    if g.ended {
      ConcludedIgnores(parse, empty, c, Head(outs), o);
    } else if IsTerminal(o) {
      if o.MessageStop? {
        StopConcludes(parse, empty, c, outs, g, key);
      } else {
        FailureConcludes(parse, empty, c, outs, o.message);
      }
    } else {
      FactsSnoc(outs, g, key, o);
      if Live(parse, empty, c, outs, g) {
        LiveSnoc(parse, empty, c, outs, g, key, o);
      } else {
        BrokenSnoc(parse, empty, c, outs, g, key, o);
      }
    }
    hide Concluded, Facts, Live, Broken, Count, Head, CollectAll, Collect;
  }

  lemma {:induction false} TracedFollow<J(!new)>(parse: string -> Option<J>, empty: J, outs: seq<Out>, g: Scan,
                                                 key: int, more: seq<Out>)
    requires Traced(parse, empty, outs, g) && Follow(g, key, more).Some?
    ensures Traced(parse, empty, outs + more, Follow(g, key, more).value)
    decreases |more|
  {
    hide Traced;
    if more == [] {
      assert outs + more == outs;
    } else {
      TracedSnoc(parse, empty, outs, g, key, more[0]);
      TracedFollow(parse, empty, outs + [more[0]], Next(g, key, more[0]), key, more[1..]);
      assert outs + [more[0]] + more[1..] == outs + more;
    }
  }

  lemma {:induction false} TracedFollowAll<J(!new)>(parse: string -> Option<J>, empty: J, outs: seq<Out>, g: Scan,
                                                    hs: seq<Handled>)
    requires Traced(parse, empty, outs, g) && FollowAll(g, hs).Some?
    ensures Traced(parse, empty, outs + Flatten(hs), FollowAll(g, hs).value)
    decreases |hs|
  {
    hide Traced, Follow;
    if hs == [] {
      assert outs + Flatten(hs) == outs;
    } else {
      FlattenHead(hs);
      hide Flatten;
      TracedFollow(parse, empty, outs, g, hs[0].key, hs[0].out);
      TracedFollowAll(parse, empty, outs + hs[0].out, Follow(g, hs[0].key, hs[0].out).value, hs[1..]);
      assert outs + hs[0].out + Flatten(hs[1..]) == outs + Flatten(hs);
    }
  }

  lemma NothingTraced<J(!new)>(parse: string -> Option<J>, empty: J)
    ensures Traced(parse, empty, [], START)
  {
    assert Upto(0) == [];
  }

  lemma RunTraced<J(!new)>(parse: string -> Option<J>, empty: J, prefix: string, calls: seq<Call>)
    ensures Traced(parse, empty, Flatten(Run(prefix, calls).1), ScanOf(Run(prefix, calls).0))
  {
    EveryRunIsGrammatical(prefix, calls);
    NothingTraced(parse, empty);
    hide Traced, Flatten;
    TracedFollowAll(parse, empty, [], START, Run(prefix, calls).1);
    assert [] + Flatten(Run(prefix, calls).1) == Flatten(Run(prefix, calls).1);
  }

  // The message

  lemma SortSnoc(s: seq<int>, x: int)
    ensures Sort(s + [x]) == Insert(Sort(s), x)
  {
    assert (s + [x])[..|s|] == s;
  }

  lemma InsertNext(n: nat)
    ensures Insert(Upto(n), n) == Upto(n) + [n]
  {
  }

  lemma SortNone()
    ensures Sort(Upto(0)) == Upto(0)
  {
    assert Upto(0) == [];
  }

  lemma {:induction false} SortUpto(n: nat)
    ensures Sort(Upto(n)) == Upto(n)
  {
    hide Upto, Sort, Insert;
    if n > 0 {
      UptoSnoc(n - 1);
      SortUpto(n - 1);
      SortSnoc(Upto(n - 1), n - 1);
      InsertNext(n - 1);
    } else {
      SortNone();
    }
  }

  lemma {:induction false} CollectAllListed<J(!new)>(parse: string -> Option<J>, empty: J, outs: seq<Out>)
    ensures Consistent(CollectAll(parse, empty, outs))
    decreases |outs|
  {
    if outs != [] {
      CollectAllListed(parse, empty, outs[..|outs| - 1]);
      CollectListed(parse, empty, CollectAll(parse, empty, outs[..|outs| - 1]), outs[|outs| - 1]);
    }
  }

  /** The message that the events `u` describe. */
  function MessageOf<J>(parse: string -> Option<J>, empty: J, u: seq<Out>): Result<J>
    requires AllParse(parse, u) && forall i :: 0 <= i < Count(IsStart, u) ==> Started(u, i).Some?
  {
    Complete(StopReasonOf(u),
             seq(Count(IsStart, u), i requires 0 <= i < Count(IsStart, u) => Whole(parse, empty, u, i)))
  }

  /**
   Whatever was called on the translator: if its first terminal event is a message stop, the collector
   gives the message that the events up to there describe, block by block in the order of their
   numbers, unless there is no block or the arguments of some tool call are not JSON. It never
   complains about the order of events.
   */
  lemma CollectsTheMessage<J(!new)>(parse: string -> Option<J>, empty: J, prefix: string, calls: seq<Call>)
    requires var u := Head(Flatten(Run(prefix, calls).1)); u != [] && u[|u| - 1].MessageStop?
    ensures var outs := Flatten(Run(prefix, calls).1);
            var u := Head(outs);
            && Consistent(CollectAll(parse, empty, outs))
            && (forall i :: 0 <= i < Count(IsStart, u) ==> Started(u, i).Some?)
            && Outcome(CollectAll(parse, empty, outs))
               == if !AllParse(parse, u) then Rejected(MALFORMED)
                  else if Count(IsStart, u) == 0 then Rejected(NO_CONTENT)
                  else MessageOf(parse, empty, u)
  {
    RunTraced(parse, empty, prefix, calls);
    var outs := Flatten(Run(prefix, calls).1);
    hide Run, Flatten;
    EndedRuns(parse, empty, outs, ScanOf(Run(prefix, calls).0));
    CollectAllListed(parse, empty, outs);
    ConcludedOutcome(parse, empty, CollectAll(parse, empty, outs), Head(outs));
  }

  lemma EndedRuns<J(!new)>(parse: string -> Option<J>, empty: J, outs: seq<Out>, g: Scan)
    requires Traced(parse, empty, outs, g)
    requires Head(outs) != [] && IsTerminal(Head(outs)[|Head(outs)| - 1])
    ensures Concluded(parse, empty, CollectAll(parse, empty, outs), Head(outs))
  {
    assert Count(IsTerminal, Head(outs)) > 0;
  }

  lemma ConcludedOutcome<J(!new)>(parse: string -> Option<J>, empty: J, c: CollectorState<J>, u: seq<Out>)
    requires Concluded(parse, empty, c, u) && Consistent(c) && u[|u| - 1].MessageStop?
    ensures Outcome(c) == if !AllParse(parse, u) then Rejected(MALFORMED)
                          else if Count(IsStart, u) == 0 then Rejected(NO_CONTENT)
                          else MessageOf(parse, empty, u)
  {
    if AllParse(parse, u) {
      OutcomeWhole(c, Count(IsStart, u));
      WholeContent(parse, empty, c.blocks, u, Count(IsStart, u));
      hide Outcome, Whole, Unparsable, Started, Count, StopReasonOf, Content, Sort;
    } else {
      hide Count, Started, AllParse, Content, Sort;
    }
  }

  lemma OutcomeWhole<J(!new)>(c: CollectorState<J>, n: nat)
    requires Consistent(c) && c.error.None? && c.stopped && c.message.Some? && c.order == Upto(n)
    requires forall i :: 0 <= i < n ==> i in c.blocks
    ensures Outcome(c) == if n == 0 then Rejected(NO_CONTENT) else Complete(c.message.value, Content(c.blocks, Upto(n)))
  {
    SortUpto(n);
    assert |Upto(n)| == n;
    hide Sort;
  }

  lemma WholeContent<J>(parse: string -> Option<J>, empty: J, blocks: map<int, Collected<J>>, u: seq<Out>, n: nat)
    requires forall i :: 0 <= i < n ==> i in blocks
    requires forall i :: 0 <= i < n ==> Started(u, i).Some? && !Unparsable(parse, u, i)
    requires forall i :: 0 <= i < n ==> blocks[i] == Whole(parse, empty, u, i)
    ensures Content(blocks, Upto(n)) == seq(n, i requires 0 <= i < n => Whole(parse, empty, u, i))
  {
    hide Whole, Unparsable, Started;
  }

  /** After a failure, and as long as no terminal event was sent, there is no message. */
  lemma NoMessageOtherwise<J(!new)>(parse: string -> Option<J>, empty: J, prefix: string, calls: seq<Call>)
    requires var u := Head(Flatten(Run(prefix, calls).1)); u == [] || !u[|u| - 1].MessageStop?
    ensures Consistent(CollectAll(parse, empty, Flatten(Run(prefix, calls).1)))
    ensures Outcome(CollectAll(parse, empty, Flatten(Run(prefix, calls).1))).Rejected?
  {
    var outs := Flatten(Run(prefix, calls).1);
    RunTraced(parse, empty, prefix, calls);
    CollectAllListed(parse, empty, outs);
  }
}
