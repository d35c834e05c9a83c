/**
 What each kind of item comes out as, when its events arrive complete: arguments, reasoning and
 text, however the items are interleaved.
 */
module ItemStreams {
  import opened Common
  import opened Translator
  import opened Deferral
  import opened Completion
  import opened Content
  import opened Interleaving

  function Join(parts: seq<string>): string {
    if parts == [] then "" else Join(parts[..|parts| - 1]) + parts[|parts| - 1]
  }

  function ArgsDeltas(k: int, parts: seq<string>): seq<Event> {
    seq(|parts|, i requires 0 <= i < |parts| => ArgsDelta(Some(k), parts[i]))
  }

  function SummaryDeltas(k: int, parts: seq<string>): seq<Event> {
    seq(|parts|, i requires 0 <= i < |parts| => SummaryDelta(Some(k), parts[i]))
  }

  function TextDeltas(k: int, parts: seq<string>): seq<Event> {
    seq(|parts|, i requires 0 <= i < |parts| => TextDelta(Some(k), parts[i]))
  }

  /** The events of an item: it is announced, its content arrives in pieces, it is done. */
  function Stream(k: int, item: Item, deltas: seq<Event>, done: Item): seq<Event> {
    [ItemAdded(Some(k), item)] + deltas + [ItemDone(Some(k), done)]
  }

  function JsonIn(pieces: seq<Piece>): string {
    if pieces == [] then ""
    else
      var p := pieces[|pieces| - 1];
      JsonIn(pieces[..|pieces| - 1]) + (if p.Add? && p.delta.JsonPart? then p.delta.s else "")
  }

  function ThinkingIn(pieces: seq<Piece>): string {
    if pieces == [] then ""
    else
      var p := pieces[|pieces| - 1];
      ThinkingIn(pieces[..|pieces| - 1]) + (if p.Add? && p.delta.ThinkingPart? then p.delta.s else "")
  }

  lemma JsonSnoc(pieces: seq<Piece>, p: Piece)
    ensures JsonIn(pieces + [p]) == JsonIn(pieces) + (if p.Add? && p.delta.JsonPart? then p.delta.s else "")
  {
    assert (pieces + [p])[..|pieces|] == pieces;
  }

  lemma ThinkingSnoc(pieces: seq<Piece>, p: Piece)
    ensures ThinkingIn(pieces + [p]) == ThinkingIn(pieces) + (if p.Add? && p.delta.ThinkingPart? then p.delta.s else "")
  {
    assert (pieces + [p])[..|pieces|] == pieces;
  }

  /** Processing one more event of item `k`. */
  lemma OneMore(prefix: string, es: seq<Event>, e: Event, k: int)
    requires Has(e, Some(k))
    ensures var s := Process(prefix, es).0;
            var (s1, h) := StepOn(prefix, s, e);
            && Process(prefix, es + [e]).0 == s1
            && PiecesOf(Process(prefix, es + [e]).1, k) == PiecesOf(Process(prefix, es).1, k) + PiecesIn(h.out)
            && KeyOf(s, e) == k
  {
    ProcessSnoc(prefix, es, e);
    var (s, hs) := Process(prefix, es);
    PiecesOfSnoc(hs, StepOn(prefix, s, e).1, k);
  }

  lemma Announced(prefix: string, k: int, item: Item)
    ensures var (s, hs) := Process(prefix, [ItemAdded(Some(k), item)]);
            && (item.kind == FunctionCallItem ==>
                && Inner(s, k) == Some(BlockState(0, FunctionCall, true, 0, ""))
                && |PiecesOf(hs, k)| == 1 && PiecesOf(hs, k)[0].Begin? && PiecesOf(hs, k)[0].block.ToolBlock?
                && PiecesOf(hs, k)[0].block.name == item.name
                && (item.callId.Some? ==> PiecesOf(hs, k)[0].block.id == Given(item.callId.value)))
            && (item.kind == ReasoningItem ==>
                Inner(s, k) == Some(BlockState(0, Thinking, false, 0, "")) && PiecesOf(hs, k) == [])
  {
    var e := ItemAdded(Some(k), item);
    OneMore(prefix, [], e, k);
    assert [] + [e] == [e];
    OnItemAddedInner(INITIAL, k, item);
    hide PiecesIn, OnItemAdded;
  }

  // Tool calls

  /** The content starts with the block of the call `item` announced. */
  predicate BeginsTool(pieces: seq<Piece>, item: Item) {
    && pieces != [] && pieces[0].Begin? && pieces[0].block.ToolBlock? && pieces[0].block.name == item.name
    && (item.callId.Some? ==> pieces[0].block.id == Given(item.callId.value))
  }

  /** Processing arguments is what the handler does. */
  lemma StepOnArgs(prefix: string, s: State, k: int, delta: string)
    ensures var (s1, h) := StepOn(prefix, s, ArgsDelta(Some(k), delta));
            var (s2, out) := OnArgsDelta(s, k, delta);
            s1 == s2 && h.out == out && Has(ArgsDelta(Some(k), delta), Some(k))
  {
    hide OnArgsDelta;
  }

  lemma InnerIs(s: State, k: int)
    requires Inner(s, k).Some?
    ensures k in s.blocks && s.blocks[k].kind == Inner(s, k).value.kind
    ensures Inner(s, k).value.kind != Message ==> Inner(s, k).value == s.blocks[k].(blockIndex := 0)
  {
  }

  lemma ToolMore(prefix: string, es: seq<Event>, k: int, delta: string)
    requires Inner(Process(prefix, es).0, k).Some?
    requires var st := Inner(Process(prefix, es).0, k).value; st.kind == FunctionCall && st.isOpen
    ensures var (s, hs) := Process(prefix, es);
            var (s1, hs1) := Process(prefix, es + [ArgsDelta(Some(k), delta)]);
            var st := Inner(s, k).value;
            && Inner(s1, k) == Some(st.(argsSent := st.argsSent + |delta|))
            && PiecesOf(hs1, k) == PiecesOf(hs, k) + (if delta == "" then [] else [Add(JsonPart(delta))])
  {
    hide *;
    var s := Process(prefix, es).0;
    InnerIs(s, k);
    StepOnArgs(prefix, s, k, delta);
    OneMore(prefix, es, ArgsDelta(Some(k), delta), k);
    OnArgsDeltaInner(s, k, delta);
  }

  lemma JoinSnoc(parts: seq<string>)
    requires parts != []
    ensures Join(parts) == Join(parts[..|parts| - 1]) + parts[|parts| - 1]
  {
  }

  lemma ArgsDeltasSnoc(start: seq<Event>, k: int, parts: seq<string>)
    requires parts != []
    ensures start + ArgsDeltas(k, parts)
         == start + ArgsDeltas(k, parts[..|parts| - 1]) + [ArgsDelta(Some(k), parts[|parts| - 1])]
  {
  }

  /** The item's state and content once the arguments `text` arrived. */
  predicate ToolWith(st: Option<BlockState>, pieces: seq<Piece>, item: Item, text: string) {
    st == Some(BlockState(0, FunctionCall, true, |text|, "")) && JsonIn(pieces) == text && BeginsTool(pieces, item)
  }

  lemma ToolWithMore(st: Option<BlockState>, pieces: seq<Piece>, item: Item, text: string, delta: string)
    requires ToolWith(st, pieces, item, text)
    ensures ToolWith(Some(st.value.(argsSent := st.value.argsSent + |delta|)),
                     pieces + (if delta == "" then [] else [Add(JsonPart(delta))]), item, text + delta)
  {
    JsonSnoc(pieces, Add(JsonPart(delta)));
    assert pieces + [] == pieces;
    hide JsonIn;
  }

  lemma ToolIsOpen(st: Option<BlockState>, pieces: seq<Piece>, item: Item, text: string)
    requires ToolWith(st, pieces, item, text)
    ensures st.Some? && st.value.kind == FunctionCall && st.value.isOpen && st.value.argsSent == |text|
  {
  }

  lemma NoDeltas(start: seq<Event>, k: int)
    ensures start + ArgsDeltas(k, []) == start + SummaryDeltas(k, []) == start + TextDeltas(k, []) == start
            && Join([]) == ""
  {
  }

  lemma ToolStarts(prefix: string, k: int, item: Item)
    requires item.kind == FunctionCallItem
    ensures var (s, hs) := Process(prefix, [ItemAdded(Some(k), item)]);
            ToolWith(Inner(s, k), PiecesOf(hs, k), item, "")
  {
    Announced(prefix, k, item);
    var pieces := PiecesOf(Process(prefix, [ItemAdded(Some(k), item)]).1, k);
    assert [] + [pieces[0]] == pieces;
    JsonSnoc([], pieces[0]);
    hide Process, PiecesOf, Inner;
  }

  lemma {:induction false} ToolSoFar(prefix: string, k: int, item: Item, parts: seq<string>)
    requires item.kind == FunctionCallItem
    ensures var (s, hs) := Process(prefix, [ItemAdded(Some(k), item)] + ArgsDeltas(k, parts));
            ToolWith(Inner(s, k), PiecesOf(hs, k), item, Join(parts))
    decreases |parts|
  {
    var start := [ItemAdded(Some(k), item)];
    hide *;
    if parts == [] {
      NoDeltas(start, k);
      ToolStarts(prefix, k, item);
    } else {
      var n := |parts| - 1;
      JoinSnoc(parts);
      ArgsDeltasSnoc(start, k, parts);
      ToolSoFar(prefix, k, item, parts[..n]);
      var es := start + ArgsDeltas(k, parts[..n]);
      var (s, hs) := Process(prefix, es);
      ToolIsOpen(Inner(s, k), PiecesOf(hs, k), item, Join(parts[..n]));
      ToolMore(prefix, es, k, parts[n]);
      ToolWithMore(Inner(s, k), PiecesOf(hs, k), item, Join(parts[..n]), parts[n]);
    }
  }

  /**
   A tool call carries its full arguments exactly when the deltas are a prefix of them, and it
   starts with its own block.
   */
  lemma ToolAlone(prefix: string, k: int, item: Item, parts: seq<string>, done: Item)
    requires item.kind == FunctionCallItem
    ensures var pieces := PiecesOf(Process(prefix, Stream(k, item, ArgsDeltas(k, parts), done)).1, k);
            && JsonIn(pieces) == Join(parts) + ArgsTail(|Join(parts)|, done.arguments)
            && BeginsTool(pieces, item)
  {
    hide *;
    var es := [ItemAdded(Some(k), item)] + ArgsDeltas(k, parts);
    var (s, hs) := Process(prefix, es);
    ToolSoFar(prefix, k, item, parts);
    ToolIsOpen(Inner(s, k), PiecesOf(hs, k), item, Join(parts));
    ToolEnds(prefix, es, k, done);
    var tail := ArgsTail(|Join(parts)|, done.arguments);
    ToolWithMore(Inner(s, k), PiecesOf(hs, k), item, Join(parts), tail);
    ToolWithMeans(Some(Inner(s, k).value.(argsSent := |Join(parts)| + |tail|)),
                  PiecesOf(hs, k) + (if tail == "" then [] else [Add(JsonPart(tail))]), item, Join(parts) + tail);
    StreamEnds(k, item, ArgsDeltas(k, parts), done);
  }

  lemma ToolWithMeans(st: Option<BlockState>, pieces: seq<Piece>, item: Item, text: string)
    requires ToolWith(st, pieces, item, text)
    ensures JsonIn(pieces) == text && BeginsTool(pieces, item)
  {
  }

  lemma StreamEnds(k: int, item: Item, deltas: seq<Event>, done: Item)
    ensures Stream(k, item, deltas, done) == [ItemAdded(Some(k), item)] + deltas + [ItemDone(Some(k), done)]
  {
  }

  lemma ToolEnds(prefix: string, es: seq<Event>, k: int, done: Item)
    requires Inner(Process(prefix, es).0, k).Some?
    requires var st := Inner(Process(prefix, es).0, k).value; st.kind == FunctionCall && st.isOpen
    ensures var (s, hs) := Process(prefix, es);
            var (s1, hs1) := Process(prefix, es + [ItemDone(Some(k), done)]);
            var tail := ArgsTail(Inner(s, k).value.argsSent, done.arguments);
            && !IsMessage(s1, k)
            && PiecesOf(hs1, k) == PiecesOf(hs, k) + (if tail == "" then [] else [Add(JsonPart(tail))])
  {
    OneMore(prefix, es, ItemDone(Some(k), done), k);
    OnToolDoneInner(prefix, Process(prefix, es).0, k, done);
    hide Process, PiecesIn, PiecesOf, OnItemDone, ArgsTail;
  }

  lemma PrefixIffComplete(sent: string, full: string)
    ensures sent + ArgsTail(|sent|, full) == full <==> sent <= full
  {
    if |full| > |sent| {
      assert sent <= full ==> sent + full[|sent|..] == full;
      assert (sent + full[|sent|..])[..|sent|] == sent;
    }
  }

  /** Every finished tool call of every finished interleaving, given its own events. */
  lemma ToolCallsAreComplete(prefix: string, calls: seq<Call>, k: int, item: Item, parts: seq<string>, done: Item)
    requires Flowing(calls) && AllNumbered(Fed(calls)) && AllDone(Fed(calls))
    requires item.kind == FunctionCallItem
    requires Select(Fed(calls), Some(k)) == Stream(k, item, ArgsDeltas(k, parts), done)
    ensures JsonIn(PiecesOf(Run(prefix, calls).1, k)) == done.arguments <==> Join(parts) <= done.arguments
  {
    ItemsAreIndependent(prefix, calls, k);
    ToolAlone(prefix, k, item, parts, done);
    ToolIsNoMessage(prefix, k, item, parts, done);
    PrefixIffComplete(Join(parts), done.arguments);
  }

  lemma ToolIsNoMessage(prefix: string, k: int, item: Item, parts: seq<string>, done: Item)
    requires item.kind == FunctionCallItem
    ensures !IsMessage(Process(prefix, Stream(k, item, ArgsDeltas(k, parts), done)).0, k)
  {
    hide *;
    var es := [ItemAdded(Some(k), item)] + ArgsDeltas(k, parts);
    var (s, hs) := Process(prefix, es);
    ToolSoFar(prefix, k, item, parts);
    ToolIsOpen(Inner(s, k), PiecesOf(hs, k), item, Join(parts));
    ToolEnds(prefix, es, k, done);
    StreamEnds(k, item, ArgsDeltas(k, parts), done);
  }

  // Reasoning

  lemma BlankConcat(a: string, b: string)
    ensures IsBlank(a + b) <==> IsBlank(a) && IsBlank(b)
  {
    if IsBlank(a + b) {
      assert forall i :: 0 <= i < |a| ==> a[i] == (a + b)[i];
      assert forall i :: 0 <= i < |b| ==> b[i] == (a + b)[|a| + i];
    }
  }

  lemma ReasoningMore(prefix: string, es: seq<Event>, k: int, delta: string)
    requires Inner(Process(prefix, es).0, k).Some? && Inner(Process(prefix, es).0, k).value.kind == Thinking
    ensures var (s, hs) := Process(prefix, es);
            var (s1, hs1) := Process(prefix, es + [SummaryDelta(Some(k), delta)]);
            var st := Inner(s, k).value;
            && Inner(s1, k) == Some(if st.isOpen then st
                                    else if IsBlank(st.pending + delta) then st.(pending := st.pending + delta)
                                    else st.(pending := "", isOpen := true))
            && PiecesOf(hs1, k) == PiecesOf(hs, k)
               + (if st.isOpen then (if delta == "" then [] else [Add(ThinkingPart(delta))])
                  else if IsBlank(st.pending + delta) then []
                  else [Begin(ThinkingBlock), Add(ThinkingPart(st.pending + delta))])
  {
    OneMore(prefix, es, SummaryDelta(Some(k), delta), k);
    OnSummaryDeltaInner(Process(prefix, es).0, k, delta);
    hide Process, PiecesIn, PiecesOf, OnSummaryDelta, IsBlank;
  }

  predicate ThinkingSoFar(st: Option<BlockState>, pieces: seq<Piece>, text: string) {
    if IsBlank(text) then st == Some(BlockState(0, Thinking, false, 0, text)) && pieces == []
    else
      && st == Some(BlockState(0, Thinking, true, 0, ""))
      && pieces != [] && pieces[0] == Begin(ThinkingBlock) && ThinkingIn(pieces) == text
  }

  lemma SummaryDeltasSnoc(start: seq<Event>, k: int, parts: seq<string>)
    requires parts != []
    ensures start + SummaryDeltas(k, parts)
         == start + SummaryDeltas(k, parts[..|parts| - 1]) + [SummaryDelta(Some(k), parts[|parts| - 1])]
  {
  }

  lemma ThinkingSoFarMore(st: Option<BlockState>, pieces: seq<Piece>, text: string, delta: string)
    requires ThinkingSoFar(st, pieces, text)
    ensures ThinkingSoFar(Some(if st.value.isOpen then st.value
                               else if IsBlank(st.value.pending + delta)
                                    then st.value.(pending := st.value.pending + delta)
                               else st.value.(pending := "", isOpen := true)),
                          pieces + (if st.value.isOpen then (if delta == "" then [] else [Add(ThinkingPart(delta))])
                                    else if IsBlank(st.value.pending + delta) then []
                                    else [Begin(ThinkingBlock), Add(ThinkingPart(st.value.pending + delta))]),
                          text + delta)
  {
    BlankConcat(text, delta);
    hide IsBlank;
    if IsBlank(text) {
      ThinkingFirst(text + delta);
      assert pieces == [];
      var first := [Begin(ThinkingBlock), Add(ThinkingPart(text + delta))];
      assert pieces + first == first;
      hide ThinkingIn;
    } else {
      ThinkingSnoc(pieces, Add(ThinkingPart(delta)));
      hide ThinkingIn;
      assert pieces + [] == pieces;
    }
  }

  lemma {:induction false} ReasoningSoFar(prefix: string, k: int, item: Item, parts: seq<string>)
    requires item.kind == ReasoningItem
    ensures var (s, hs) := Process(prefix, [ItemAdded(Some(k), item)] + SummaryDeltas(k, parts));
            ThinkingSoFar(Inner(s, k), PiecesOf(hs, k), Join(parts))
    decreases |parts|
  {
    var start := [ItemAdded(Some(k), item)];
    if parts == [] {
      NoDeltas(start, k);
      Announced(prefix, k, item);
      hide Process, PiecesOf, Inner;
    } else {
      hide *;
      var n := |parts| - 1;
      JoinSnoc(parts);
      SummaryDeltasSnoc(start, k, parts);
      ReasoningSoFar(prefix, k, item, parts[..n]);
      var es := start + SummaryDeltas(k, parts[..n]);
      var (s, hs) := Process(prefix, es);
      ThinkingKind(Inner(s, k), PiecesOf(hs, k), Join(parts[..n]));
      ReasoningMore(prefix, es, k, parts[n]);
      ThinkingSoFarMore(Inner(s, k), PiecesOf(hs, k), Join(parts[..n]), parts[n]);
    }
  }

  lemma ThinkingFirst(s: string)
    ensures ThinkingIn([Begin(ThinkingBlock), Add(ThinkingPart(s))]) == s
  {
    assert [Begin(ThinkingBlock), Add(ThinkingPart(s))] == [Begin(ThinkingBlock)] + [Add(ThinkingPart(s))];
    assert [] + [Begin(ThinkingBlock)] == [Begin(ThinkingBlock)];
    ThinkingSnoc([], Begin(ThinkingBlock));
    ThinkingSnoc([Begin(ThinkingBlock)], Add(ThinkingPart(s)));
  }

  /** The content of a reasoning item with summary `text` and opaque state `blob`. */
  predicate Reasoned(pieces: seq<Piece>, text: string, blob: string) {
    if IsBlank(text) then pieces == (if blob == "" then [] else [Begin(RedactedBlock(blob))])
    else
      && pieces != [] && pieces[0] == Begin(ThinkingBlock) && ThinkingIn(pieces) == text
      && (blob != "" ==> pieces[|pieces| - 1] == Add(SignaturePart(blob)))
  }

  /**
   Reasoning with a visible summary is a thinking block with the whole summary and the opaque state
   as its signature; without, it is a redacted block that holds the opaque state.
   */
  lemma ReasoningAlone(prefix: string, k: int, item: Item, parts: seq<string>, done: Item)
    requires item.kind == ReasoningItem
    ensures var pieces := PiecesOf(Process(prefix, Stream(k, item, SummaryDeltas(k, parts), done)).1, k);
            Reasoned(pieces, Join(parts), ReasoningBlob(prefix, done))
    ensures !IsMessage(Process(prefix, Stream(k, item, SummaryDeltas(k, parts), done)).0, k)
  {
    hide *;
    var es := [ItemAdded(Some(k), item)] + SummaryDeltas(k, parts);
    var (s, hs) := Process(prefix, es);
    ReasoningSoFar(prefix, k, item, parts);
    ThinkingKind(Inner(s, k), PiecesOf(hs, k), Join(parts));
    ReasoningEnds(prefix, es, k, done);
    SignedPieces(Inner(s, k), PiecesOf(hs, k), Join(parts), ReasoningBlob(prefix, done));
    StreamEnds(k, item, SummaryDeltas(k, parts), done);
  }

  lemma ReasoningEnds(prefix: string, es: seq<Event>, k: int, done: Item)
    requires Inner(Process(prefix, es).0, k).Some? && Inner(Process(prefix, es).0, k).value.kind == Thinking
    ensures var (s, hs) := Process(prefix, es);
            var (s1, hs1) := Process(prefix, es + [ItemDone(Some(k), done)]);
            var blob := ReasoningBlob(prefix, done);
            && !IsMessage(s1, k)
            && PiecesOf(hs1, k) == PiecesOf(hs, k)
               + (if blob == "" then []
                  else if Inner(s, k).value.isOpen then [Add(SignaturePart(blob))]
                  else [Begin(RedactedBlock(blob))])
  {
    OneMore(prefix, es, ItemDone(Some(k), done), k);
    OnThinkingDoneInner(prefix, Process(prefix, es).0, k, done);
    hide Process, PiecesIn, PiecesOf, OnThinkingDone, ReasoningBlob;
  }

  lemma ThinkingKind(st: Option<BlockState>, pieces: seq<Piece>, text: string)
    requires ThinkingSoFar(st, pieces, text)
    ensures st.Some? && st.value.kind == Thinking && (st.value.isOpen <==> !IsBlank(text))
  {
  }

  lemma SignedPieces(st: Option<BlockState>, before: seq<Piece>, text: string, blob: string)
    requires ThinkingSoFar(st, before, text)
    ensures Reasoned(before + (if blob == "" then []
                               else if !IsBlank(text) then [Add(SignaturePart(blob))]
                               else [Begin(RedactedBlock(blob))]), text, blob)
  {
    ThinkingSnoc(before, Add(SignaturePart(blob)));
    assert before + [] == before;
    assert [] + [Begin(RedactedBlock(blob))] == [Begin(RedactedBlock(blob))];
    hide IsBlank, ThinkingIn;
  }

  /** Every finished reasoning item of every finished interleaving. */
  lemma ReasoningIsComplete(prefix: string, calls: seq<Call>, k: int, item: Item, parts: seq<string>, done: Item)
    requires Flowing(calls) && AllNumbered(Fed(calls)) && AllDone(Fed(calls))
    requires item.kind == ReasoningItem
    requires Select(Fed(calls), Some(k)) == Stream(k, item, SummaryDeltas(k, parts), done)
    ensures var pieces := PiecesOf(Run(prefix, calls).1, k);
            Reasoned(pieces, Join(parts), ReasoningBlob(prefix, done))
  {
    ItemsAreIndependent(prefix, calls, k);
    ReasoningAlone(prefix, k, item, parts, done);
    hide Process, Run, Select, Fed, IsBlank, ReasoningBlob;
  }

  // Text

  lemma TextDeltasSnoc(start: seq<Event>, k: int, parts: seq<string>)
    requires parts != []
    ensures start + TextDeltas(k, parts)
         == start + TextDeltas(k, parts[..|parts| - 1]) + [TextDelta(Some(k), parts[|parts| - 1])]
  {
  }

  lemma TextMore(prefix: string, es: seq<Event>, k: int, delta: string)
    requires AnnouncedAs(Process(prefix, es).1, k) == Some(Message)
    ensures var (hs, hs1) := (Process(prefix, es).1, Process(prefix, es + [TextDelta(Some(k), delta)]).1);
            AnnouncedAs(hs1, k) == Some(Message) && Received(hs1, k) == Received(hs, k) + delta
  {
    var e := TextDelta(Some(k), delta);
    ProcessSnoc(prefix, es, e);
    var (s, hs) := Process(prefix, es);
    HeardSnoc(hs, StepOn(prefix, s, e).1, k);
    hide Process, Received, AnnouncedAs;
  }

  lemma {:induction false} TextSoFar(prefix: string, k: int, item: Item, parts: seq<string>)
    requires item.kind == MessageItem
    ensures var hs := Process(prefix, [ItemAdded(Some(k), item)] + TextDeltas(k, parts)).1;
            AnnouncedAs(hs, k) == Some(Message) && Received(hs, k) == Join(parts)
    decreases |parts|
  {
    var start := [ItemAdded(Some(k), item)];
    if parts == [] {
      NoDeltas(start, k);
      assert [] + start == start;
      ProcessSnoc(prefix, [], start[0]);
      HeardSnoc([], StepOn(prefix, INITIAL, start[0]).1, k);
    } else {
      hide *;
      var n := |parts| - 1;
      TextSoFar(prefix, k, item, parts[..n]);
      JoinSnoc(parts);
      TextDeltasSnoc(start, k, parts);
      var es := start + TextDeltas(k, parts[..n]);
      TextMore(prefix, es, k, parts[n]);
    }
  }

  /** Every finished message of every finished interleaving; what is held back is whitespace. */
  lemma TextIsComplete(prefix: string, calls: seq<Call>, k: int, item: Item, parts: seq<string>, done: Item)
    requires Flowing(calls) && AllNumbered(Fed(calls)) && AllDone(Fed(calls))
    requires item.kind == MessageItem
    requires Select(Fed(calls), Some(k)) == Stream(k, item, TextDeltas(k, parts), done)
    ensures TextOf(Run(prefix, calls).1, k) + Pending(Run(prefix, calls).0, k) == Join(parts)
    ensures IsBlank(Pending(Run(prefix, calls).0, k))
  {
    ItemsAreIndependent(prefix, calls, k);
    TextSoFar(prefix, k, item, parts);
    var es, e := [ItemAdded(Some(k), item)] + TextDeltas(k, parts), ItemDone(Some(k), done);
    ProcessSnoc(prefix, es, e);
    var (s, hs) := Process(prefix, es);
    HeardSnoc(hs, StepOn(prefix, s, e).1, k);
    hide Process, Received, AnnouncedAs, Run, Fed, Select;
  }
}
