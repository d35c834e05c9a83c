/** What a response that arrives whole is translated to, item by item. */
module WholeItems {
  import opened Common
  import opened Translator
  import opened Deferral
  import opened ItemStreams

  /** Between two items: nothing is open, nothing waits, and item `k` and the later ones are unknown. */
  ghost predicate Between(s: State, k: int) {
    && s.started && !s.finished && s.open == None && s.deferred == []
    && forall j :: j >= k ==> j !in s.blocks
  }

  /** Inside item `k`, of which `text` arrived; `i` is the number of its block if it has one. */
  ghost predicate During(s: State, k: int, kind: Kind, i: nat, text: string) {
    && s.started && !s.finished && s.deferred == [] && k in s.blocks && s.blocks[k].kind == kind
    && (forall j :: j > k ==> j !in s.blocks)
    && var st := s.blocks[k];
       if IsBlank(text) && kind != FunctionCall then
         && !st.isOpen && s.nextIndex == i && st.pending == text
         && (s.open == None || (kind == Thinking && s.open == Some(k)))
       else
         && st.isOpen && st.blockIndex == i && s.nextIndex == i + 1 && s.open == Some(k) && st.pending == ""
         && (kind == FunctionCall ==> st.argsSent == |text|)
  }

  function DeltaOf(kind: Kind, s: string): Delta {
    match kind
    case Message => TextPart(s)
    case Thinking => ThinkingPart(s)
    case FunctionCall => JsonPart(s)
  }

  function Deltas(i: int, kind: Kind, pieces: seq<string>): seq<Out> {
    seq(|pieces|, n requires 0 <= n < |pieces| => BlockDelta(i, DeltaOf(kind, pieces[n])))
  }

  function BlockFor(kind: Kind, item: Item, i: nat): Block {
    match kind
    case Message => TextBlock
    case Thinking => ThinkingBlock
    case FunctionCall => ToolBlock(ToolId(item, i), item.name)
  }

  /** What was emitted inside the item: nothing yet, or the start of its block and `pieces` of its content. */
  function SoFar(kind: Kind, item: Item, i: nat, text: string, pieces: seq<string>): seq<Out> {
    if IsBlank(text) && kind != FunctionCall then []
    else [BlockStart(i, BlockFor(kind, item, i))] + Deltas(i, kind, pieces)
  }

  function ItemKindOf(kind: Kind): ItemKind {
    match kind
    case Message => MessageItem
    case Thinking => ReasoningItem
    case FunctionCall => FunctionCallItem
  }

  /** An event that need not wait, when nothing waits, is processed and that is all. */
  lemma PushNow(prefix: string, s: State, e: Event)
    requires s.deferred == [] && !ShouldDefer(s, e) && !e.Completed? && !e.Failed?
    ensures Push(prefix, s, e) == (StepOn(prefix, s, e).0, [StepOn(prefix, s, e).1])
  {
    var (s1, h) := StepOn(prefix, s, e);
    assert Drain(prefix, s1) == (s1, []);
    assert [h] + [] == [h];
  }

  lemma AnnounceWhole(prefix: string, s: State, k: nat, kind: Kind, item: Item)
    requires Between(s, k) && item.kind == ItemKindOf(kind)
    ensures var (s1, h) := StepOn(prefix, s, ItemAdded(Some(k), item));
            During(s1, k, kind, s.nextIndex, "") && h.out == SoFar(kind, item, s.nextIndex, "", [])
  {
    assert [] + [] + [BlockStart(s.nextIndex, BlockFor(kind, item, s.nextIndex))]
        == [BlockStart(s.nextIndex, BlockFor(kind, item, s.nextIndex))] + Deltas(s.nextIndex, kind, []);
  }

  lemma DeltasSnoc(i: int, kind: Kind, pieces: seq<string>, s: string)
    ensures Deltas(i, kind, pieces + [s]) == Deltas(i, kind, pieces) + [BlockDelta(i, DeltaOf(kind, s))]
  {
  }

  /** One more part of the item's content. */
  lemma MoreWhole(prefix: string, s: State, k: nat, kind: Kind, item: Item, i: nat, text: string,
                  pieces: seq<string>, part: string)
    returns (more: seq<string>)
    requires During(s, k, kind, i, text) && Join(pieces) == text
    ensures var (s1, h) := StepOn(prefix, s, PartDelta(ItemKindOf(kind), k, part));
            && During(s1, k, kind, i, text + part) && Join(more) == text + part
            && SoFar(kind, item, i, text, pieces) + h.out == SoFar(kind, item, i, text + part, more)
  {
    hide Join, IsBlank, CloseForOther;
    BlankConcat(text, part);
    NothingToClose(s, k);
    var (s1, h) := StepOn(prefix, s, PartDelta(ItemKindOf(kind), k, part));
    if kind != FunctionCall && IsBlank(text) {
      if IsBlank(text + part) {
        more := [text + part];
        JoinOne(text + part);
        assert [] + h.out == [];
      } else {
        more := [text + part];
        JoinOne(text + part);
        assert text + "" == text;
        assert part != "";
        assert Deltas(i, kind, more) == [BlockDelta(i, DeltaOf(kind, text + part))];
        assert [] + h.out == [BlockStart(i, BlockFor(kind, item, i))] + Deltas(i, kind, more);
      }
    } else if part == "" {
      more := pieces;
      assert text + part == text;
      assert SoFar(kind, item, i, text, pieces) + [] == SoFar(kind, item, i, text, pieces);
    } else {
      more := pieces + [part];
      JoinMore(pieces, part);
      DeltasSnoc(i, kind, pieces, part);
      ConcatAssoc([BlockStart(i, BlockFor(kind, item, i))], Deltas(i, kind, pieces),
                  [BlockDelta(i, DeltaOf(kind, part))]);
    }
  }

  lemma NothingToClose(s: State, k: int)
    ensures s.open == None || s.open == Some(k) ==> CloseForOther(s, k) == (s, [])
  {
  }

  lemma JoinOne(s: string)
    ensures Join([s]) == s
  {
    assert [s][..0] == [] && "" + s == s;
  }

  lemma JoinMore(pieces: seq<string>, s: string)
    ensures Join(pieces + [s]) == Join(pieces) + s
  {
    assert (pieces + [s])[..|pieces|] == pieces;
  }

  /** During an item, its own events need not wait. */
  lemma OwnNow(s: State, k: nat, kind: Kind, i: nat, text: string, e: Event)
    requires During(s, k, kind, i, text) && Has(e, Some(k))
    ensures !ShouldDefer(s, e)
  {
  }

  lemma PushOne(prefix: string, s: State, es: seq<Event>, e: Event)
    requires PushAll(prefix, s, es).0.deferred == [] && !ShouldDefer(PushAll(prefix, s, es).0, e) && IsDeferrable(e)
    ensures var (s1, hs) := PushAll(prefix, s, es);
            var (s2, h) := StepOn(prefix, s1, e);
            PushAll(prefix, s, es + [e]).0 == s2
            && Flatten(PushAll(prefix, s, es + [e]).1) == Flatten(hs) + h.out
  {
    assert (es + [e])[..|es|] == es;
    var (s1, hs) := PushAll(prefix, s, es);
    PushNow(prefix, s1, e);
    FlattenSnoc(hs, StepOn(prefix, s1, e).1);
  }

  /** The events of an item up to some part of its content. */
  function Opening(k: nat, item: Item, parts: seq<string>): seq<Event> {
    [ItemAdded(Some(k), item)] + seq(|parts|, n requires 0 <= n < |parts| => PartDelta(item.kind, k, parts[n]))
  }

  lemma OpeningSnoc(k: nat, item: Item, parts: seq<string>)
    requires parts != []
    ensures Opening(k, item, parts)
         == Opening(k, item, parts[..|parts| - 1]) + [PartDelta(item.kind, k, parts[|parts| - 1])]
  {
  }

  lemma {:induction false} OpeningWhole(prefix: string, s: State, k: nat, kind: Kind, item: Item, parts: seq<string>)
    returns (pieces: seq<string>)
    requires Between(s, k) && item.kind == ItemKindOf(kind)
    ensures Join(pieces) == Join(parts)
    ensures During(PushAll(prefix, s, Opening(k, item, parts)).0, k, kind, s.nextIndex, Join(parts))
    ensures Flatten(PushAll(prefix, s, Opening(k, item, parts)).1)
         == SoFar(kind, item, s.nextIndex, Join(parts), pieces)
    decreases |parts|
  {
    if parts == [] {
      pieces := [];
      var e := ItemAdded(Some(k), item);
      assert Opening(k, item, parts) == [] + [e];
      PushOne(prefix, s, [], e);
      AnnounceWhole(prefix, s, k, kind, item);
      assert [] + SoFar(kind, item, s.nextIndex, "", []) == SoFar(kind, item, s.nextIndex, "", []);
      hide StepOn, SoFar, During;
    } else {
      hide *;
      var n := |parts| - 1;
      OpeningSnoc(k, item, parts);
      JoinSnoc(parts);
      var before := OpeningWhole(prefix, s, k, kind, item, parts[..n]);
      var es, e := Opening(k, item, parts[..n]), PartDelta(item.kind, k, parts[n]);
      var s1 := PushAll(prefix, s, es).0;
      PartOwn(kind, k, parts[n]);
      DuringQuiet(s1, k, kind, s.nextIndex, Join(parts[..n]));
      OwnNow(s1, k, kind, s.nextIndex, Join(parts[..n]), e);
      PushOne(prefix, s, es, e);
      pieces := MoreWhole(prefix, s1, k, kind, item, s.nextIndex, Join(parts[..n]), before, parts[n]);
    }
  }

  lemma PartOwn(kind: Kind, k: nat, part: string)
    ensures Has(PartDelta(ItemKindOf(kind), k, part), Some(k)) && IsDeferrable(PartDelta(ItemKindOf(kind), k, part))
  {
  }

  lemma DuringQuiet(s: State, k: nat, kind: Kind, i: nat, text: string)
    requires During(s, k, kind, i, text)
    ensures s.deferred == []
  {
  }

  // The end of an item

  /** What an item comes out as. */
  datatype Chunk = Chunk(block: Block, kind: Kind, text: string, signature: string)

  /** The block that an item with number `i` becomes, if it becomes one. */
  function ChunkOf(prefix: string, i: nat, o: OutputItem): Option<Chunk> {
    var text := Join(PartsOf(o));
    match o.item.kind
    case MessageItem => if IsBlank(text) then None else Some(Chunk(TextBlock, Message, text, ""))
    case ReasoningItem =>
      var blob := ReasoningBlob(prefix, o.item);
      if !IsBlank(text) then Some(Chunk(ThinkingBlock, Thinking, text, blob))
      else if blob != "" then Some(Chunk(RedactedBlock(blob), Thinking, "", ""))
      else None
    case FunctionCallItem => Some(Chunk(ToolBlock(ToolId(o.item, i), o.item.name), FunctionCall, text, ""))
    case OtherItem => None
  }

  function ChunkOuts(i: nat, c: Chunk, pieces: seq<string>): seq<Out> {
    [BlockStart(i, c.block)] + Deltas(i, c.kind, pieces)
    + (if c.signature == "" then [] else [BlockDelta(i, SignaturePart(c.signature))])
    + [BlockStop(i)]
  }

  lemma DoneWhole(prefix: string, s: State, k: nat, kind: Kind, i: nat, o: OutputItem, pieces: seq<string>)
    returns (all: seq<string>)
    requires During(s, k, kind, i, Join(PartsOf(o))) && o.item.kind == ItemKindOf(kind)
    requires Join(pieces) == Join(PartsOf(o))
    ensures var (s1, h) := StepOn(prefix, s, ItemDone(Some(k), o.item));
            var chunk := ChunkOf(prefix, i, o);
            && Between(s1, k + 1)
            && s1.nextIndex == (if chunk.None? then i else i + 1)
            && (chunk.Some? ==> Join(all) == chunk.value.text)
            && SoFar(kind, o.item, i, Join(PartsOf(o)), pieces) + h.out
               == (if chunk.None? then [] else ChunkOuts(i, chunk.value, all))
  {
    var text := Join(PartsOf(o));
    var (s1, h) := StepOn(prefix, s, ItemDone(Some(k), o.item));
    hide ReasoningBlob;
    all := pieces;
    if kind == FunctionCall {
      JoinOne(o.item.arguments);
      assert [] + [BlockStop(i)] == [BlockStop(i)];
      assert SoFar(kind, o.item, i, text, pieces) + [] == SoFar(kind, o.item, i, text, pieces);
    } else if IsBlank(text) {
      all := [];
      if kind == Thinking && ReasoningBlob(prefix, o.item) != "" {
        var blob := ReasoningBlob(prefix, o.item);
        assert Deltas(i, Thinking, []) == [];
        assert [] + [BlockStart(i, RedactedBlock(blob)), BlockStop(i)]
            == [BlockStart(i, RedactedBlock(blob))] + [] + [] + [BlockStop(i)];
      }
    } else if kind == Message {
      assert [] + [BlockStop(i)] == [BlockStop(i)];
      assert SoFar(kind, o.item, i, text, pieces) + [] == SoFar(kind, o.item, i, text, pieces);
    } else {
      var blob := ReasoningBlob(prefix, o.item);
      ConcatAssoc(SoFar(kind, o.item, i, text, pieces),
                  if blob == "" then [] else [BlockDelta(i, SignaturePart(blob))], [BlockStop(i)]);
    }
  }
}
