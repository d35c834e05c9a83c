/**
 The round trip: a whole response, translated, collected into a message and translated back with the
 same provider prefix, gives the reasoning, the tool calls and the text that it started from.
 */
module RoundTrip {
  import opened Common
  import opened Decimals
  import opened Translator
  import opened ItemStreams
  import opened WholeItems
  import opened Collector
  import opened CollectorTheorems
  import Completion
  import Grammar
  import GrammarRuns
  import Replay
  import StopReasons

  // One item of the response

  lemma {:induction false} PushAllConcat(prefix: string, s: State, a: seq<Event>, b: seq<Event>)
    ensures var (s1, hs) := PushAll(prefix, s, a);
            var (s2, more) := PushAll(prefix, s1, b);
            PushAll(prefix, s, a + b) == (s2, hs + more) && Flatten(hs + more) == Flatten(hs) + Flatten(more)
    decreases |b|
  {
    var (s1, hs) := PushAll(prefix, s, a);
    FlattenConcat(hs, PushAll(prefix, s1, b).1);
    if b == [] {
      assert a + b == a && hs + [] == hs;
    } else {
      var n := |b| - 1;
      PushAllConcat(prefix, s, a, b[..n]);
      assert (a + b)[..|a + b| - 1] == a + b[..n] && (a + b)[|a + b| - 1] == b[n];
      var (s2, more) := PushAll(prefix, s1, b[..n]);
      hide Push, Flatten;
      ConcatAssoc(hs, more, Push(prefix, s2, b[n]).1);
    }
  }

  /** An item becomes its block, whole, or nothing. */
  lemma ItemWhole(prefix: string, s: State, k: nat, o: OutputItem)
    returns (pieces: seq<string>)
    requires Between(s, k)
    ensures var (s1, hs) := PushAll(prefix, s, ItemEvents(k, o));
            var chunk := ChunkOf(prefix, s.nextIndex, o);
            && Between(s1, k + 1)
            && s1.nextIndex == (if chunk.None? then s.nextIndex else s.nextIndex + 1)
            && (chunk.Some? ==> Join(pieces) == chunk.value.text)
            && Flatten(hs) == (if chunk.None? then [] else ChunkOuts(s.nextIndex, chunk.value, pieces))
  {
    hide *;
    var done := ItemDone(Some(k), o.item);
    ItemOpening(k, o);
    if o.item.kind == OtherItem {
      pieces := [];
      OtherWhole(prefix, s, k, o);
    } else {
      var kind := if o.item.kind == MessageItem then Message
                  else if o.item.kind == ReasoningItem then Thinking else FunctionCall;
      KindIs(o.item.kind, kind);
      var before := OpeningWhole(prefix, s, k, kind, o.item, PartsOf(o));
      var s1 := PushAll(prefix, s, Opening(k, o.item, PartsOf(o))).0;
      DuringQuiet(s1, k, kind, s.nextIndex, Join(PartsOf(o)));
      DoneOwn(k, o.item);
      OwnNow(s1, k, kind, s.nextIndex, Join(PartsOf(o)), done);
      PushOne(prefix, s, Opening(k, o.item, PartsOf(o)), done);
      pieces := DoneWhole(prefix, s1, k, kind, s.nextIndex, o, before);
    }
  }

  lemma ItemOpening(k: nat, o: OutputItem)
    ensures ItemEvents(k, o) == Opening(k, o.item, PartsOf(o)) + [ItemDone(Some(k), o.item)]
  {
  }

  lemma KindIs(kind: ItemKind, as_: Kind)
    requires kind != OtherItem
    requires as_ == if kind == MessageItem then Message else if kind == ReasoningItem then Thinking else FunctionCall
    ensures kind == ItemKindOf(as_)
  {
  }

  lemma DoneOwn(k: nat, item: Item)
    ensures Deferral.Has(ItemDone(Some(k), item), Some(k)) && IsDeferrable(ItemDone(Some(k), item))
  {
  }

  lemma OtherWhole(prefix: string, s: State, k: nat, o: OutputItem)
    requires Between(s, k) && o.item.kind == OtherItem
    ensures PushAll(prefix, s, ItemEvents(k, o)).0 == s && Flatten(PushAll(prefix, s, ItemEvents(k, o)).1) == []
    ensures Between(s, k + 1) && ChunkOf(prefix, s.nextIndex, o) == None
  {
    var added, done := ItemAdded(Some(k), o.item), ItemDone(Some(k), o.item);
    assert ItemEvents(k, o) == [] + [added] + [done];
    PushOne(prefix, s, [], added);
    PushOne(prefix, s, [] + [added], done);
  }

  // Collecting it

  function CollectFrom<J>(parse: string -> Option<J>, empty: J, c: CollectorState<J>,
                          outs: seq<Out>): CollectorState<J> {
    if outs == [] then c
    else Collect(parse, empty, CollectFrom(parse, empty, c, outs[..|outs| - 1]), outs[|outs| - 1])
  }

  lemma {:induction false} CollectAllSplit<J>(parse: string -> Option<J>, empty: J, a: seq<Out>, b: seq<Out>)
    ensures CollectAll(parse, empty, a + b) == CollectFrom(parse, empty, CollectAll(parse, empty, a), b)
    decreases |b|
  {
    if b == [] {
      assert a + b == a;
    } else {
      assert (a + b)[..|a + b| - 1] == a + b[..|b| - 1];
      CollectAllSplit(parse, empty, a, b[..|b| - 1]);
    }
  }

  lemma CollectFromSnoc<J>(parse: string -> Option<J>, empty: J, c: CollectorState<J>, outs: seq<Out>, o: Out)
    ensures CollectFrom(parse, empty, c, outs + [o]) == Collect(parse, empty, CollectFrom(parse, empty, c, outs), o)
  {
    assert (outs + [o])[..|outs|] == outs;
  }

  /** The content of the block of a chunk, with its tool arguments not yet parsed. */
  function Unparsed<J>(empty: J, b: Block, kind: Kind, text: string): Collected<J> {
    Collected(b, if kind == Message then text else "", if kind == Thinking then text else "", "",
              empty, if kind == FunctionCall then text else "")
  }

  /** The arguments of a call, parsed; None if they are not JSON. */
  function Arguments<J>(parse: string -> Option<J>, empty: J, json: string): Option<J> {
    if json == "" then Some(empty) else parse(json)
  }

  function Held<J>(parse: string -> Option<J>, empty: J, c: Chunk): Collected<J> {
    var b := Unparsed(empty, c.block, c.kind, c.text).(signature := c.signature);
    if c.block.ToolBlock? && Arguments(parse, empty, c.text).Some?
    then b.(input := Arguments(parse, empty, c.text).value) else b
  }

  ghost predicate Ready<J>(c: CollectorState<J>, i: nat) {
    c.error.None? && !c.stopped && i !in c.blocks
  }

  lemma {:induction false} CollectPieces<J>(parse: string -> Option<J>, empty: J, c: CollectorState<J>, i: nat,
                                            b: Block, kind: Kind, pieces: seq<string>)
    requires Ready(c, i)
    ensures CollectFrom(parse, empty, c, [BlockStart(i, b)] + Deltas(i, kind, pieces))
         == c.(blocks := c.blocks[i := Unparsed(empty, b, kind, Join(pieces))], order := c.order + [i])
    decreases |pieces|
  {
    var start := [BlockStart(i, b)];
    if pieces == [] {
      assert start + Deltas(i, kind, pieces) == [] + start;
      CollectFromSnoc(parse, empty, c, [], BlockStart(i, b));
    } else {
      var n := |pieces| - 1;
      assert start + Deltas(i, kind, pieces)
          == (start + Deltas(i, kind, pieces[..n])) + [BlockDelta(i, DeltaOf(kind, pieces[n]))];
      hide *;
      JoinSnoc(pieces);
      CollectPieces(parse, empty, c, i, b, kind, pieces[..n]);
      CollectFromSnoc(parse, empty, c, start + Deltas(i, kind, pieces[..n]), BlockDelta(i, DeltaOf(kind, pieces[n])));
      CollectPiece(parse, empty, c, i, b, kind, Join(pieces[..n]), pieces[n]);
    }
  }

  lemma CollectPiece<J>(parse: string -> Option<J>, empty: J, c: CollectorState<J>, i: nat, b: Block, kind: Kind,
                        text: string, piece: string)
    requires Ready(c, i)
    ensures Collect(parse, empty, c.(blocks := c.blocks[i := Unparsed(empty, b, kind, text)], order := c.order + [i]),
                    BlockDelta(i, DeltaOf(kind, piece)))
         == c.(blocks := c.blocks[i := Unparsed(empty, b, kind, text + piece)], order := c.order + [i])
  {
    assert c.blocks[i := Unparsed(empty, b, kind, text)][i := Unparsed(empty, b, kind, text + piece)]
        == c.blocks[i := Unparsed(empty, b, kind, text + piece)];
  }

  lemma CollectChunk<J>(parse: string -> Option<J>, empty: J, c: CollectorState<J>, i: nat, ch: Chunk,
                        pieces: seq<string>)
    requires Ready(c, i) && Join(pieces) == ch.text
    requires ch.block.ToolBlock? ==>
               ch.kind == FunctionCall && ch.signature == "" && Arguments(parse, empty, ch.text).Some?
    ensures CollectFrom(parse, empty, c, ChunkOuts(i, ch, pieces))
         == c.(blocks := c.blocks[i := Held(parse, empty, ch)], order := c.order + [i])
  {
    var body := [BlockStart(i, ch.block)] + Deltas(i, ch.kind, pieces);
    var sign := BlockDelta(i, SignaturePart(ch.signature));
    var b := Unparsed(empty, ch.block, ch.kind, ch.text);
    if ch.signature == "" {
      assert ChunkOuts(i, ch, pieces) == body + [BlockStop(i)];
      hide *;
      CollectPieces(parse, empty, c, i, ch.block, ch.kind, pieces);
      CollectFromSnoc(parse, empty, c, body, BlockStop(i));
      CollectStop(parse, empty, c, i, ch);
    } else {
      assert ChunkOuts(i, ch, pieces) == body + [sign] + [BlockStop(i)];
      hide *;
      CollectPieces(parse, empty, c, i, ch.block, ch.kind, pieces);
      CollectFromSnoc(parse, empty, c, body, sign);
      CollectFromSnoc(parse, empty, c, body + [sign], BlockStop(i));
      CollectSignature(parse, empty, c, i, ch);
    }
  }

  lemma CollectStop<J>(parse: string -> Option<J>, empty: J, c: CollectorState<J>, i: nat, ch: Chunk)
    requires Ready(c, i) && ch.signature == ""
    requires ch.block.ToolBlock? ==> ch.kind == FunctionCall && Arguments(parse, empty, ch.text).Some?
    ensures Collect(parse, empty,
                    c.(blocks := c.blocks[i := Unparsed(empty, ch.block, ch.kind, ch.text)], order := c.order + [i]),
                    BlockStop(i))
         == c.(blocks := c.blocks[i := Held(parse, empty, ch)], order := c.order + [i])
  {
    var b := Unparsed(empty, ch.block, ch.kind, ch.text);
    assert c.blocks[i := b][i := Held(parse, empty, ch)] == c.blocks[i := Held(parse, empty, ch)];
  }

  lemma CollectSignature<J>(parse: string -> Option<J>, empty: J, c: CollectorState<J>, i: nat, ch: Chunk)
    requires Ready(c, i) && !ch.block.ToolBlock?
    ensures Collect(parse, empty,
                    Collect(parse, empty,
                            c.(blocks := c.blocks[i := Unparsed(empty, ch.block, ch.kind, ch.text)],
                               order := c.order + [i]),
                            BlockDelta(i, SignaturePart(ch.signature))),
                    BlockStop(i))
         == c.(blocks := c.blocks[i := Held(parse, empty, ch)], order := c.order + [i])
  {
    var b := Unparsed(empty, ch.block, ch.kind, ch.text);
    assert "" + ch.signature == ch.signature;
    assert c.blocks[i := b][i := b.(signature := ch.signature)] == c.blocks[i := b.(signature := ch.signature)];
  }

  // Translating it back

  function RenderId(id: CallId): string {
    match id
    case Given(s) => s
    case Numbered(n) => "call_" + Decimal(n)
  }

  /** A collected block as it appears in the message of the next request. */
  function Shown<J>(b: Collected<J>): Replay.Content<J> {
    match b.block
    case TextBlock => Replay.Text(b.text)
    case ThinkingBlock => Replay.ThinkingText(b.thinking, b.signature)
    case RedactedBlock(data) => Replay.Redacted(data)
    case ToolBlock(id, name) => Replay.ToolUse(RenderId(id), name, Some(b.input))
  }

  function ShownAll<J>(content: seq<Collected<J>>): seq<Replay.Content<J>> {
    seq(|content|, i requires 0 <= i < |content| => Shown(content[i]))
  }

  function IdOf(item: Item): string {
    if item.id.Some? then item.id.value else ""
  }

  predicate CallParses<J>(parse: string -> Option<J>, empty: J, o: OutputItem) {
    o.item.kind == FunctionCallItem ==> Arguments(parse, empty, o.item.arguments).Some?
  }

  predicate HasBlob(o: OutputItem) {
    o.item.kind == ReasoningItem && o.item.encrypted != ""
  }

  /** If the item has opaque state, its blob is recognized by its provider and can be taken apart again. */
  predicate IsRecoverable(prefix: string, o: OutputItem) {
    HasBlob(o) ==> prefix != "" && Replay.Separable(IdOf(o.item), o.item.encrypted)
  }

  /** The id of a call: its call id, or else its item id, or else one made of the number of its block. */
  function CallName(item: Item, i: nat): string {
    if item.callId.Some? then item.callId.value
    else if item.id.Some? then item.id.value
    else "call_" + Decimal(i)
  }

  /**
   What item `o` means to the next request, where `i` numbers its block: its text unless that is
   blank, its reasoning if it has opaque state, its call.
   */
  function Meaning<J>(parse: string -> Option<J>, stringify: J -> string, empty: J, i: nat,
                      o: OutputItem): seq<Replay.Atom>
    requires CallParses(parse, empty, o)
  {
    var text := Join(o.texts);
    match o.item.kind
    case MessageItem => if IsBlank(text) then [] else [Replay.PartAtom("assistant", Replay.OutputText(text))]
    case ReasoningItem =>
      if o.item.encrypted == "" then []
      else [Replay.ItemAtom(Replay.Reasoning(if IdOf(o.item) == "" then None else Some(IdOf(o.item)),
                                             if IsBlank(text) then [] else [text], o.item.encrypted))]
    case FunctionCallItem =>
      [Replay.ItemAtom(Replay.Call(o.item.name, stringify(Arguments(parse, empty, o.item.arguments).value),
                                   CallName(o.item, i)))]
    case OtherItem => []
  }

  /** What the block of item `o` is translated back to. */
  function Replayed<J>(parse: string -> Option<J>, stringify: J -> string, empty: J, prefix: string, i: nat,
                       o: OutputItem)
    : seq<Replay.Atom>
  {
    match ChunkOf(prefix, i, o)
    case None => []
    case Some(ch) => Replay.BlockAtoms(stringify, empty, Replay.Assistant, prefix, false, Shown(Held(parse, empty, ch)))
  }

  lemma BlobParts(prefix: string, item: Item)
    requires item.encrypted != ""
    ensures var blob := ReasoningBlob(prefix, item);
            blob != "" && prefix <= blob && blob[|prefix|..] == Replay.BlobBody(IdOf(item), item.encrypted)
  {
    var blob := ReasoningBlob(prefix, item);
    assert blob == prefix + Replay.BlobBody(IdOf(item), item.encrypted);
  }

  lemma ReasoningReplayed<J>(parse: string -> Option<J>, stringify: J -> string, empty: J, prefix: string, i: nat,
                             o: OutputItem)
    requires prefix != "" && o.item.kind == ReasoningItem && o.item.encrypted != ""
    ensures var (id, encrypted) := Replay.SplitReasoningBlob(Replay.BlobBody(IdOf(o.item), o.item.encrypted));
            var text := Join(PartsOf(o));
            Replayed(parse, stringify, empty, prefix, i, o)
            == [Replay.ItemAtom(Replay.Reasoning(id, if IsBlank(text) then [] else [text], encrypted))]
  {
    var blob, text := ReasoningBlob(prefix, o.item), Join(PartsOf(o));
    hide Join, ReasoningBlob, Replay.SplitReasoningBlob, Replay.BlobBody, IsBlank, Replay.Atoms, Replay.ReplayReasoning;
    BlobParts(prefix, o.item);
    if IsBlank(text) {
      BlobAtoms(prefix, blob, "");
    } else {
      BlankEmpty(text);
      BlobAtoms(prefix, blob, text);
    }
  }

  lemma BlankEmpty(s: string)
    ensures s == "" ==> IsBlank(s)
  {
  }

  lemma BlobAtoms(prefix: string, blob: string, summary: string)
    requires prefix != "" && blob != "" && prefix <= blob
    ensures var (id, encrypted) := Replay.SplitReasoningBlob(blob[|prefix|..]);
            Replay.Atoms(Replay.ReplayReasoning(prefix, false, blob, summary))
            == [Replay.ItemAtom(Replay.Reasoning(id, if summary == "" then [] else [summary], encrypted))]
  {
    var items := Replay.ReplayReasoning(prefix, false, blob, summary);
    hide Replay.SplitReasoningBlob;
    assert |items| == 1 && items[..0] == [];
  }

  /** Reasoning without opaque state, or of a provider without a prefix, is not replayed. */
  lemma ReasoningDropped<J>(parse: string -> Option<J>, stringify: J -> string, empty: J, prefix: string, i: nat,
                            o: OutputItem)
    requires o.item.kind == ReasoningItem && (o.item.encrypted == "" || prefix == "")
    ensures Replayed(parse, stringify, empty, prefix, i, o) == []
  {
    if ch :| ChunkOf(prefix, i, o) == Some(ch) {
      assert o.item.encrypted == "" ==> ch.signature == "" && !ch.block.RedactedBlock?;
      var b := Shown(Held(parse, empty, ch));
      assert b.ThinkingText? || b.Redacted?;
      assert Replay.Standalone(stringify, empty, prefix, false, b) == Some([]);
    }
  }

  /**
   An item is translated back to what it means; a reasoning item exactly if the prefix is not empty
   and its blob can be taken apart.
   */
  lemma ItemReplayed<J>(parse: string -> Option<J>, stringify: J -> string, empty: J, prefix: string, i: nat,
                        o: OutputItem)
    requires CallParses(parse, empty, o)
    ensures Replayed(parse, stringify, empty, prefix, i, o) == Meaning(parse, stringify, empty, i, o)
       <==> IsRecoverable(prefix, o)
    ensures |Replayed(parse, stringify, empty, prefix, i, o)| <= |Meaning(parse, stringify, empty, i, o)|
  {
    match o.item.kind {
      case MessageItem =>
        var text := Join(PartsOf(o));
        hide Join;
        var part := Replay.OutputText(text);
        assert Replay.PartAtoms("assistant", [part]) == [Replay.PartAtom("assistant", part)];
      case ReasoningItem =>
        if o.item.encrypted == "" || prefix == "" {
          ReasoningDropped(parse, stringify, empty, prefix, i, o);
          hide Replayed, Join, IsBlank;
        } else {
          ReasoningReplayed(parse, stringify, empty, prefix, i, o);
          Replay.SplitIffSeparable(IdOf(o.item), o.item.encrypted);
          hide Replayed, Join, IsBlank, Replay.SplitReasoningBlob, Replay.BlobBody, Replay.Separable;
        }
      case FunctionCallItem =>
        JoinOne(o.item.arguments);
        hide Join;
        var input := Arguments(parse, empty, o.item.arguments).value;
        var item := Replay.Call(o.item.name, stringify(input), RenderId(ToolId(o.item, i)));
        assert [item][..0] == [];
        assert Replay.Atoms([item]) == [] + [Replay.ItemAtom(item)];
      case OtherItem =>
    }
  }

  // The whole response

  function BlockCount(prefix: string, output: seq<OutputItem>): nat {
    if output == [] then 0
    else
      var n := BlockCount(prefix, output[..|output| - 1]);
      if ChunkOf(prefix, n, output[|output| - 1]).None? then n else n + 1
  }

  predicate CallsParse<J>(parse: string -> Option<J>, empty: J, output: seq<OutputItem>) {
    forall i :: 0 <= i < |output| ==> CallParses(parse, empty, output[i])
  }

  predicate AllRecoverable(prefix: string, output: seq<OutputItem>) {
    forall i :: 0 <= i < |output| ==> IsRecoverable(prefix, output[i])
  }

  /** What the whole output means to the next request. */
  function MeaningOfAll<J>(parse: string -> Option<J>, stringify: J -> string, empty: J, prefix: string,
                           output: seq<OutputItem>)
    : seq<Replay.Atom>
    requires CallsParse(parse, empty, output)
  {
    if output == [] then []
    else
      var init := output[..|output| - 1];
      MeaningOfAll(parse, stringify, empty, prefix, init)
      + Meaning(parse, stringify, empty, BlockCount(prefix, init), output[|output| - 1])
  }

  function ReplayedAll<J>(parse: string -> Option<J>, stringify: J -> string, empty: J, prefix: string,
                          output: seq<OutputItem>)
    : seq<Replay.Atom>
  {
    if output == [] then []
    else
      var init := output[..|output| - 1];
      ReplayedAll(parse, stringify, empty, prefix, init)
      + Replayed(parse, stringify, empty, prefix, BlockCount(prefix, init), output[|output| - 1])
  }

  lemma {:induction false} ReplayedIffRecoverable<J>(parse: string -> Option<J>, stringify: J -> string, empty: J,
                                                     prefix: string, output: seq<OutputItem>)
    requires CallsParse(parse, empty, output)
    ensures ReplayedAll(parse, stringify, empty, prefix, output)
            == MeaningOfAll(parse, stringify, empty, prefix, output)
       <==> AllRecoverable(prefix, output)
    ensures |ReplayedAll(parse, stringify, empty, prefix, output)|
         <= |MeaningOfAll(parse, stringify, empty, prefix, output)|
    decreases |output|
  {
    if output != [] {
      hide Replayed, Meaning, IsRecoverable, BlockCount, AllRecoverable;
      var init, o := output[..|output| - 1], output[|output| - 1];
      var n := BlockCount(prefix, init);
      ReplayedIffRecoverable(parse, stringify, empty, prefix, init);
      ItemReplayed(parse, stringify, empty, prefix, n, o);
      RecoverableMore(prefix, output);
      hide CallParses;
      ConcatEqual(ReplayedAll(parse, stringify, empty, prefix, init), Replayed(parse, stringify, empty, prefix, n, o),
                  MeaningOfAll(parse, stringify, empty, prefix, init), Meaning(parse, stringify, empty, n, o));
    }
  }

  lemma RecoverableMore(prefix: string, output: seq<OutputItem>)
    requires output != []
    ensures AllRecoverable(prefix, output) <==>
            AllRecoverable(prefix, output[..|output| - 1]) && IsRecoverable(prefix, output[|output| - 1])
  {
  }

  lemma ConcatEqual<T>(a: seq<T>, b: seq<T>, c: seq<T>, d: seq<T>)
    requires |a| <= |c| && |b| <= |d|
    ensures a + b == c + d <==> a == c && b == d
  {
    if a + b == c + d {
      assert |a + b| == |c + d|;
      assert (a + b)[..|a|] == a && (c + d)[..|c|] == c;
      assert (a + b)[|a|..] == b && (c + d)[|c|..] == d;
    }
  }

  /** The collected blocks, in the order of their numbers. */
  function Blocks<J>(c: CollectorState<J>, n: nat): seq<Collected<J>>
    requires forall i :: 0 <= i < n ==> i in c.blocks
  {
    seq(n, i requires 0 <= i < n => c.blocks[i])
  }

  /** The collector has `n` blocks and awaits more. */
  ghost predicate Collecting<J(!new)>(c: CollectorState<J>, n: nat) {
    && c.error.None? && !c.stopped && c.message == Some(None)
    && c.order == Upto(n) && forall i :: i in c.blocks <==> 0 <= i < n
  }

  function AtomsShown<J>(stringify: J -> string, empty: J, prefix: string,
                         content: seq<Collected<J>>): seq<Replay.Atom> {
    Replay.AllBlockAtoms(stringify, empty, Replay.Assistant, prefix, false, ShownAll(content))
  }

  lemma AtomsShownSnoc<J>(stringify: J -> string, empty: J, prefix: string, content: seq<Collected<J>>, b: Collected<J>)
    ensures AtomsShown(stringify, empty, prefix, content + [b])
         == AtomsShown(stringify, empty, prefix, content)
            + Replay.BlockAtoms(stringify, empty, Replay.Assistant, prefix, false, Shown(b))
  {
    assert ShownAll(content + [b])[..|content|] == ShownAll(content);
  }

  lemma ReplayedIs<J>(parse: string -> Option<J>, stringify: J -> string, empty: J, prefix: string, i: nat,
                      o: OutputItem)
    requires ChunkOf(prefix, i, o).Some?
    ensures Replayed(parse, stringify, empty, prefix, i, o)
         == Replay.BlockAtoms(stringify, empty, Replay.Assistant, prefix, false,
                              Shown(Held(parse, empty, ChunkOf(prefix, i, o).value)))
  {
    hide ChunkOf, Held;
  }

  lemma CollectingReady<J(!new)>(c: CollectorState<J>, n: nat)
    requires Collecting(c, n)
    ensures Ready(c, n) && forall i :: 0 <= i < n ==> i in c.blocks
  {
  }

  lemma CollectingMore<J(!new)>(c: CollectorState<J>, n: nat, b: Collected<J>)
    requires Collecting(c, n)
    ensures var c1 := c.(blocks := c.blocks[n := b], order := c.order + [n]);
            && Collecting(c1, n + 1)
            && (forall i :: 0 <= i < n + 1 ==> i in c1.blocks)
            && (forall i :: 0 <= i < n ==> i in c.blocks)
            && Blocks(c1, n + 1) == Blocks(c, n) + [b]
  {
    UptoSnoc(n);
    hide Upto;
  }

  /** One more item reaches the collector. */
  lemma CollectItem<J(!new)>(parse: string -> Option<J>, stringify: J -> string, empty: J, prefix: string,
                             c: CollectorState<J>, n: nat,
                             o: OutputItem, pieces: seq<string>)
    requires Collecting(c, n) && CallParses(parse, empty, o)
    requires ChunkOf(prefix, n, o).Some? ==> Join(pieces) == ChunkOf(prefix, n, o).value.text
    ensures var chunk := ChunkOf(prefix, n, o);
            var n1 := if chunk.None? then n else n + 1;
            var c1 := CollectFrom(parse, empty, c, if chunk.None? then [] else ChunkOuts(n, chunk.value, pieces));
            && Collecting(c1, n1)
            && AtomsShown(stringify, empty, prefix, Blocks(c1, n1))
               == AtomsShown(stringify, empty, prefix, Blocks(c, n)) + Replayed(parse, stringify, empty, prefix, n, o)
  {
    match ChunkOf(prefix, n, o) {
      case None =>
        var shown := AtomsShown(stringify, empty, prefix, Blocks(c, n));
        assert shown + [] == shown;
      case Some(ch) =>
        ReplayedIs(parse, stringify, empty, prefix, n, o);
        CollectingReady(c, n);
        hide *;
        ChunkFits(parse, empty, prefix, n, o);
        CollectChunk(parse, empty, c, n, ch, pieces);
        CollectingMore(c, n, Held(parse, empty, ch));
        AtomsShownSnoc(stringify, empty, prefix, Blocks(c, n), Held(parse, empty, ch));
    }
  }

  lemma ChunkFits<J>(parse: string -> Option<J>, empty: J, prefix: string, n: nat, o: OutputItem)
    requires CallParses(parse, empty, o) && ChunkOf(prefix, n, o).Some?
    ensures var ch := ChunkOf(prefix, n, o).value;
            ch.block.ToolBlock? ==>
              ch.kind == FunctionCall && ch.signature == "" && Arguments(parse, empty, ch.text).Some?
  {
    if o.item.kind == FunctionCallItem {
      JoinOne(o.item.arguments);
    }
    hide Join, ReasoningBlob, IsBlank;
  }

  /** Some item is a call. */
  predicate HasCall(output: seq<OutputItem>) {
    exists i :: 0 <= i < |output| && output[i].item.kind == FunctionCallItem
  }

  /** After the first items of a response. */
  ghost predicate Midway<J(!new)>(parse: string -> Option<J>, stringify: J -> string, empty: J, prefix: string,
                                  output: seq<OutputItem>) {
    var (s, hs) := PushAll(prefix, INITIAL, [Created] + OutputEvents(output));
    var c := CollectAll(parse, empty, Flatten(hs));
    && Between(s, |output|) && s.nextIndex == BlockCount(prefix, output) && (s.hasToolUse <==> HasCall(output))
    && Shows(parse, stringify, empty, prefix, c, s.nextIndex, output)
  }

  /** The collector's `n` blocks are translated back to what they should be. */
  ghost predicate Shows<J(!new)>(parse: string -> Option<J>, stringify: J -> string, empty: J, prefix: string,
                                 c: CollectorState<J>, n: nat,
                                 output: seq<OutputItem>)
  {
    && Collecting(c, n)
    && AtomsShown(stringify, empty, prefix, Blocks(c, n)) == ReplayedAll(parse, stringify, empty, prefix, output)
  }

  lemma ShowsMore<J(!new)>(parse: string -> Option<J>, stringify: J -> string, empty: J, prefix: string,
                           c: CollectorState<J>, n: nat,
                           output: seq<OutputItem>, o: OutputItem, pieces: seq<string>)
    requires Shows(parse, stringify, empty, prefix, c, n, output)
    requires CallParses(parse, empty, o) && n == BlockCount(prefix, output)
    requires ChunkOf(prefix, n, o).Some? ==> Join(pieces) == ChunkOf(prefix, n, o).value.text
    ensures var chunk := ChunkOf(prefix, n, o);
            var c1 := CollectFrom(parse, empty, c, if chunk.None? then [] else ChunkOuts(n, chunk.value, pieces));
            Shows(parse, stringify, empty, prefix, c1, if chunk.None? then n else n + 1, output + [o])
  {
    CollectItem(parse, stringify, empty, prefix, c, n, o, pieces);
    SummaryMore(parse, stringify, empty, prefix, output, o);
    hide CollectFrom, ChunkOf, ChunkOuts, AtomsShown, ReplayedAll, Replayed, Join, BlockCount;
  }

  lemma MidwayIs<J(!new)>(parse: string -> Option<J>, stringify: J -> string, empty: J, prefix: string,
                          output: seq<OutputItem>)
    ensures var (s, hs) := PushAll(prefix, INITIAL, [Created] + OutputEvents(output));
            var c := CollectAll(parse, empty, Flatten(hs));
            Midway(parse, stringify, empty, prefix, output)
            == (Between(s, |output|) && s.nextIndex == BlockCount(prefix, output) && (s.hasToolUse <==> HasCall(output))
                && Shows(parse, stringify, empty, prefix, c, s.nextIndex, output))
  {
  }

  lemma MidwayStart<J(!new)>(parse: string -> Option<J>, stringify: J -> string, empty: J, prefix: string)
    ensures Midway(parse, stringify, empty, prefix, [])
  {
    assert [Created] + OutputEvents([]) == [] + [Created];
    PushNow(prefix, INITIAL, Created);
    assert ([] + [Created])[..0] == [];
    var h := StepOn(prefix, INITIAL, Created).1;
    assert PushAll(prefix, INITIAL, [Created]) == (StepOn(prefix, INITIAL, Created).0, [] + [h]);
    FlattenSnoc([], h);
    assert Flatten([] + [h]) == [] + [MessageStart] == [MessageStart];
    assert [MessageStart][..0] == [];
    assert CollectAll(parse, empty, [MessageStart]) == Collect(parse, empty, Initial(), MessageStart);
    assert Upto(0) == [];
  }

  lemma MidwayMore<J(!new)>(parse: string -> Option<J>, stringify: J -> string, empty: J, prefix: string,
                            output: seq<OutputItem>, o: OutputItem)
    requires Midway(parse, stringify, empty, prefix, output) && CallParses(parse, empty, o)
    ensures Midway(parse, stringify, empty, prefix, output + [o])
  {
    OutputMore(output, o);
    SummaryMore(parse, stringify, empty, prefix, output, o);
    var before := [Created] + OutputEvents(output);
    var (s, hs) := PushAll(prefix, INITIAL, before);
    var c := CollectAll(parse, empty, Flatten(hs));
    var (s1, more) := PushAll(prefix, s, ItemEvents(|output|, o));
    hide *;
    PushAllConcat(prefix, INITIAL, before, ItemEvents(|output|, o));
    MidwayIs(parse, stringify, empty, prefix, output);
    var pieces := ItemWhole(prefix, s, |output|, o);
    CollectAllSplit(parse, empty, Flatten(hs), Flatten(more));
    ShowsMore(parse, stringify, empty, prefix, c, s.nextIndex, output, o, pieces);
    StopReasons.PushAllKnows(prefix, s, ItemEvents(|output|, o));
    ChunkStarts(prefix, s.nextIndex, o, pieces);
    CallMore(output, o);
    assert |output + [o]| == |output| + 1;
    MidwayIs(parse, stringify, empty, prefix, output + [o]);
  }

  /** A tool call is started exactly for a call. */
  lemma ChunkStarts(prefix: string, i: nat, o: OutputItem, pieces: seq<string>)
    ensures var chunk := ChunkOf(prefix, i, o);
            o.item.kind == FunctionCallItem <==>
            StopReasons.ToolStarted(if chunk.None? then [] else ChunkOuts(i, chunk.value, pieces))
  {
    hide Join, ReasoningBlob, IsBlank;
    var chunk := ChunkOf(prefix, i, o);
    if chunk.Some? {
      assert ChunkOuts(i, chunk.value, pieces)[0] == BlockStart(i, chunk.value.block);
    }
  }

  lemma CallMore(output: seq<OutputItem>, o: OutputItem)
    ensures HasCall(output + [o]) <==> HasCall(output) || o.item.kind == FunctionCallItem
  {
    assert (output + [o])[|output|] == o;
    if i :| 0 <= i < |output| && output[i].item.kind == FunctionCallItem {
      assert (output + [o])[i] == output[i];
    }
  }

  lemma OutputMore(output: seq<OutputItem>, o: OutputItem)
    ensures [Created] + OutputEvents(output + [o]) == [Created] + OutputEvents(output) + ItemEvents(|output|, o)
  {
    assert (output + [o])[..|output|] == output;
    ConcatAssoc([Created], OutputEvents(output), ItemEvents(|output|, o));
  }

  lemma SummaryMore<J>(parse: string -> Option<J>, stringify: J -> string, empty: J, prefix: string,
                       output: seq<OutputItem>, o: OutputItem)
    ensures var n := BlockCount(prefix, output);
            && BlockCount(prefix, output + [o]) == (if ChunkOf(prefix, n, o).None? then n else n + 1)
            && ReplayedAll(parse, stringify, empty, prefix, output + [o])
               == ReplayedAll(parse, stringify, empty, prefix, output) + Replayed(parse, stringify, empty, prefix, n, o)
  {
    assert (output + [o])[..|output|] == output;
  }

  lemma {:induction false} MidwayAll<J(!new)>(parse: string -> Option<J>, stringify: J -> string, empty: J,
                                              prefix: string, output: seq<OutputItem>)
    requires CallsParse(parse, empty, output)
    ensures Midway(parse, stringify, empty, prefix, output)
    decreases |output|
  {
    if output == [] {
      MidwayStart(parse, stringify, empty, prefix);
    } else {
      var init, o := output[..|output| - 1], output[|output| - 1];
      assert output == init + [o];
      hide Midway;
      MidwayAll(parse, stringify, empty, prefix, init);
      MidwayMore(parse, stringify, empty, prefix, init, o);
    }
  }

  // The end of the response

  lemma {:induction false} PushAllKeepsInv(prefix: string, s: State, es: seq<Event>)
    requires Grammar.Inv(s)
    ensures Grammar.Inv(PushAll(prefix, s, es).0)
    decreases |es|
  {
    if es != [] {
      PushAllKeepsInv(prefix, s, es[..|es| - 1]);
      GrammarRuns.PushGoes(prefix, PushAll(prefix, s, es[..|es| - 1]).0, es[|es| - 1]);
    }
  }

  lemma CompletedWhole(prefix: string, s: State, k: int, truncated: bool)
    requires Between(s, k) && Grammar.Inv(s)
    ensures Flatten(Push(prefix, s, Completed(truncated)).1) == [MessageDelta(StopReason(s, truncated)), MessageStop]
  {
    Completion.QuietEnd(prefix, s, truncated);
    hide Push, Flatten, Grammar.Inv;
    assert [] + [MessageDelta(StopReason(s, truncated)), MessageStop]
           == [MessageDelta(StopReason(s, truncated)), MessageStop];
  }

  lemma FinishCollecting<J(!new)>(parse: string -> Option<J>, empty: J, c: CollectorState<J>, n: nat, reason: string)
    requires Collecting(c, n)
    ensures var c1 := CollectFrom(parse, empty, c, [MessageDelta(reason), MessageStop]);
            Consistent(c1)
            && Outcome(c1) == if n == 0 then Rejected(NO_CONTENT) else Complete(Some(reason), Blocks(c, n))
  {
    var end := [MessageDelta(reason), MessageStop];
    assert end == [] + [MessageDelta(reason)] + [MessageStop];
    CollectFromSnoc(parse, empty, c, [] + [MessageDelta(reason)], MessageStop);
    CollectFromSnoc(parse, empty, c, [], MessageDelta(reason));
    var c1 := CollectFrom(parse, empty, c, end);
    assert c1 == c.(message := Some(Some(reason)), stopped := true);
    hide CollectFrom;
    UptoMembers(n);
    OutcomeWhole(c1, n);
    assert |Upto(n)| == n;
    hide Outcome;
    assert n > 0 ==> Collector.Content(c1.blocks, Upto(n)) == Blocks(c, n);
  }

  lemma UptoMembers(n: nat)
    ensures forall k :: k in Upto(n) <==> 0 <= k < n
  {
    forall k | 0 <= k < n
      ensures k in Upto(n)
    {
      assert Upto(n)[k] == k;
    }
  }

  /** Why a message with this content stops. */
  function Reason(output: seq<OutputItem>, truncated: bool): string {
    if truncated then "max_tokens" else if HasCall(output) then "tool_use" else "end_turn"
  }

  /** Everything up to the end of the response. */
  lemma WholeResponse<J(!new)>(parse: string -> Option<J>, stringify: J -> string, empty: J, prefix: string,
                               output: seq<OutputItem>, truncated: bool)
    requires CallsParse(parse, empty, output)
    ensures var outs := Flatten(PushAll(prefix, INITIAL, [Created] + OutputEvents(output) + [Completed(truncated)]).1);
            var c := CollectAll(parse, empty, outs);
            var n := BlockCount(prefix, output);
            && Consistent(c)
            && (n == 0 ==> Outcome(c) == Rejected(NO_CONTENT))
            && (n > 0 ==> Outcome(c).Complete? && Outcome(c).stopReason == Some(Reason(output, truncated))
                          && AtomsShown(stringify, empty, prefix, Outcome(c).content)
                             == ReplayedAll(parse, stringify, empty, prefix, output))
  {
    var es := [Created] + OutputEvents(output);
    var (s, hs) := PushAll(prefix, INITIAL, es);
    assert PushAll(prefix, INITIAL, []) == (INITIAL, []);
    PushAllKeepsInv(prefix, INITIAL, es);
    assert (es + [Completed(truncated)])[..|es|] == es;
    var more := Push(prefix, s, Completed(truncated)).1;
    assert PushAll(prefix, INITIAL, es + [Completed(truncated)]).1 == hs + more;
    var reason := StopReason(s, truncated);
    hide *;
    FlattenConcat(hs, more);
    MidwayAll(parse, stringify, empty, prefix, output);
    MidwayIs(parse, stringify, empty, prefix, output);
    var c := CollectAll(parse, empty, Flatten(hs));
    ShowsWhat(parse, stringify, empty, prefix, c, s.nextIndex, output);
    CompletedWhole(prefix, s, |output|, truncated);
    CollectAllSplit(parse, empty, Flatten(hs), [MessageDelta(reason), MessageStop]);
    FinishCollecting(parse, empty, c, s.nextIndex, reason);
    ReasonIs(s, output, truncated);
  }

  lemma ReasonIs(s: State, output: seq<OutputItem>, truncated: bool)
    requires s.hasToolUse <==> HasCall(output)
    ensures StopReason(s, truncated) == Reason(output, truncated)
  {
  }

  lemma ShowsWhat<J(!new)>(parse: string -> Option<J>, stringify: J -> string, empty: J, prefix: string,
                           c: CollectorState<J>, n: nat,
                           output: seq<OutputItem>)
    requires Shows(parse, stringify, empty, prefix, c, n, output)
    ensures Collecting(c, n) && (forall i :: 0 <= i < n ==> i in c.blocks)
    ensures AtomsShown(stringify, empty, prefix, Blocks(c, n)) == ReplayedAll(parse, stringify, empty, prefix, output)
  {
  }

  // A call whose arguments are not JSON

  lemma {:induction false} BrokenStays<J>(parse: string -> Option<J>, empty: J, c: CollectorState<J>, outs: seq<Out>)
    requires c.error.Some?
    ensures CollectFrom(parse, empty, c, outs) == c
    decreases |outs|
  {
    if outs != [] {
      BrokenStays(parse, empty, c, outs[..|outs| - 1]);
    }
  }

  lemma BreaksCollecting<J>(parse: string -> Option<J>, empty: J, c: CollectorState<J>, i: nat, ch: Chunk,
                            pieces: seq<string>)
    requires Ready(c, i) && Join(pieces) == ch.text
    requires ch.block.ToolBlock? && ch.kind == FunctionCall && ch.signature == ""
    requires Arguments(parse, empty, ch.text).None?
    ensures CollectFrom(parse, empty, c, ChunkOuts(i, ch, pieces)).error == Some(MALFORMED)
  {
    var body := [BlockStart(i, ch.block)] + Deltas(i, ch.kind, pieces);
    assert ChunkOuts(i, ch, pieces) == body + [BlockStop(i)];
    hide Deltas, Join, CollectFrom;
    CollectPieces(parse, empty, c, i, ch.block, ch.kind, pieces);
    CollectFromSnoc(parse, empty, c, body, BlockStop(i));
  }

  lemma CallChunk<J>(parse: string -> Option<J>, empty: J, prefix: string, n: nat, o: OutputItem)
    requires !CallParses(parse, empty, o)
    ensures ChunkOf(prefix, n, o).Some?
    ensures var ch := ChunkOf(prefix, n, o).value;
            && ch.block.ToolBlock? && ch.kind == FunctionCall && ch.signature == ""
            && Arguments(parse, empty, ch.text).None?
  {
    JoinOne(o.item.arguments);
    hide Join, ReasoningBlob, IsBlank;
  }

  lemma {:induction false} OutputPrefix(output: seq<OutputItem>, k: nat) returns (rest: seq<Event>)
    requires k <= |output|
    ensures OutputEvents(output) == OutputEvents(output[..k]) + rest
    decreases |output|
  {
    if k == |output| {
      assert output[..k] == output;
      rest := [];
    } else {
      var n := |output| - 1;
      var more := OutputPrefix(output[..n], k);
      assert output[..n][..k] == output[..k];
      rest := more + ItemEvents(n, output[n]);
      ConcatAssoc(OutputEvents(output[..k]), more, ItemEvents(n, output[n]));
    }
  }

  /** The first call whose arguments are not JSON. */
  lemma {:induction false} FirstBroken<J>(parse: string -> Option<J>, empty: J,
                                          output: seq<OutputItem>) returns (k: nat)
    requires !CallsParse(parse, empty, output)
    ensures k < |output| && CallsParse(parse, empty, output[..k]) && !CallParses(parse, empty, output[k])
    decreases |output|
  {
    var n := |output| - 1;
    if CallsParse(parse, empty, output[..n]) {
      k := n;
    } else {
      k := FirstBroken(parse, empty, output[..n]);
      assert output[..n][..k] == output[..k];
    }
  }

  /** The collector gives up at such a call. */
  lemma BrokenAt<J(!new)>(parse: string -> Option<J>, stringify: J -> string, empty: J, prefix: string,
                          output: seq<OutputItem>, o: OutputItem)
    requires CallsParse(parse, empty, output) && !CallParses(parse, empty, o)
    ensures var outs := Flatten(PushAll(prefix, INITIAL, [Created] + OutputEvents(output + [o])).1);
            CollectAll(parse, empty, outs).error == Some(MALFORMED)
  {
    var before := [Created] + OutputEvents(output);
    var (s, hs) := PushAll(prefix, INITIAL, before);
    var c := CollectAll(parse, empty, Flatten(hs));
    var (s1, more) := PushAll(prefix, s, ItemEvents(|output|, o));
    hide *;
    OutputMore(output, o);
    PushAllConcat(prefix, INITIAL, before, ItemEvents(|output|, o));
    MidwayAll(parse, stringify, empty, prefix, output);
    MidwayIs(parse, stringify, empty, prefix, output);
    ShowsWhat(parse, stringify, empty, prefix, c, s.nextIndex, output);
    CollectingReady(c, s.nextIndex);
    CallChunk(parse, empty, prefix, s.nextIndex, o);
    var pieces := ItemWhole(prefix, s, |output|, o);
    CollectAllSplit(parse, empty, Flatten(hs), Flatten(more));
    BreaksCollecting(parse, empty, c, s.nextIndex, ChunkOf(prefix, s.nextIndex, o).value, pieces);
  }

  lemma BrokenResponse<J(!new)>(parse: string -> Option<J>, stringify: J -> string, empty: J, prefix: string,
                                output: seq<OutputItem>, truncated: bool)
    requires !CallsParse(parse, empty, output)
    ensures var outs := Flatten(PushAll(prefix, INITIAL, [Created] + OutputEvents(output) + [Completed(truncated)]).1);
            CollectAll(parse, empty, outs).error == Some(MALFORMED)
  {
    hide *;
    var k := FirstBroken(parse, empty, output);
    var rest := OutputPrefix(output, k + 1);
    assert output[..k + 1] == output[..k] + [output[k]];
    BrokenAt(parse, stringify, empty, prefix, output[..k], output[k]);
    var before := [Created] + OutputEvents(output[..k + 1]);
    var after := rest + [Completed(truncated)];
    assert [Created] + OutputEvents(output) + [Completed(truncated)] == before + after;
    PushAllConcat(prefix, INITIAL, before, after);
    var (s, hs) := PushAll(prefix, INITIAL, before);
    var more := PushAll(prefix, s, after).1;
    CollectAllSplit(parse, empty, Flatten(hs), Flatten(more));
    BrokenStays(parse, empty, CollectAll(parse, empty, Flatten(hs)), Flatten(more));
  }

  /**
   A completed response, pushed as a whole and collected, is a message exactly if it has content and
   the arguments of its calls are JSON; translated back with the same prefix, it gives the text, the
   calls and the reasoning of the response in the same order, exactly if every reasoning blob is
   recognized and can be taken apart again.
   */
  lemma RoundTrip<J(!new)>(parse: string -> Option<J>, stringify: J -> string, empty: J, prefix: string, r: Response)
    requires r.Response? && r.error.None? && (r.status.StatusCompleted? || r.status.StatusIncomplete?)
    ensures var c := CollectAll(parse, empty, Flatten(PushJson(prefix, INITIAL, r).1));
            && Consistent(c)
            && (!CallsParse(parse, empty, r.output) ==> Outcome(c) == Rejected(MALFORMED))
            && (CallsParse(parse, empty, r.output) && BlockCount(prefix, r.output) == 0 ==>
                  Outcome(c) == Rejected(NO_CONTENT))
            && (CallsParse(parse, empty, r.output) && BlockCount(prefix, r.output) > 0 ==>
                && Outcome(c).Complete?
                && Outcome(c).stopReason == Some(Reason(r.output, r.status.StatusIncomplete? && r.status.truncated))
                && (Replay.Atoms(Replay.InputItems(stringify, empty, Replay.Assistant, prefix, false,
                                                   ShownAll(Outcome(c).content)))
                    == MeaningOfAll(parse, stringify, empty, prefix, r.output)
                    <==> AllRecoverable(prefix, r.output)))
  {
    var truncated := r.status.StatusIncomplete? && r.status.truncated;
    assert PushJson(prefix, INITIAL, r)
        == PushAll(prefix, INITIAL, [Created] + OutputEvents(r.output) + [Completed(truncated)]);
    var c := CollectAll(parse, empty, Flatten(PushJson(prefix, INITIAL, r).1));
    hide *;
    CollectAllListed(parse, empty, Flatten(PushJson(prefix, INITIAL, r).1));
    if CallsParse(parse, empty, r.output) {
      WholeResponse(parse, stringify, empty, prefix, r.output, truncated);
      ReplayedIffRecoverable(parse, stringify, empty, prefix, r.output);
      if BlockCount(prefix, r.output) > 0 {
        Replay.GroupingKeepsOrder(stringify, empty, Replay.Assistant, prefix, false, ShownAll(Outcome(c).content));
        AtomsShownIs(stringify, empty, prefix, Outcome(c).content);
      }
    } else {
      BrokenResponse(parse, stringify, empty, prefix, r.output, truncated);
      BrokenOutcome(c);
    }
  }

  lemma AtomsShownIs<J>(stringify: J -> string, empty: J, prefix: string, content: seq<Collected<J>>)
    ensures AtomsShown(stringify, empty, prefix, content)
         == Replay.AllBlockAtoms(stringify, empty, Replay.Assistant, prefix, false, ShownAll(content))
  {
  }

  lemma BrokenOutcome<J(!new)>(c: CollectorState<J>)
    requires Consistent(c) && c.error == Some(MALFORMED)
    ensures Outcome(c) == Rejected(MALFORMED)
  {
  }

  // Responses that are not complete

  lemma FailsAtOnce(prefix: string, message: string)
    ensures Fail(prefix, INITIAL, message).1 == [Handled(Event.Failed(message), -1, [Failure(message)])]
    ensures Push(prefix, INITIAL, Event.Failed(message)).1 == [Handled(Event.Failed(message), -1, [Failure(message)])]
  {
    var h := Handled(Event.Failed(message), -1, [Failure(message)]);
    assert [] + [Failure(message)] == [Failure(message)];
    assert EmitFailure(prefix, INITIAL, message) == (INITIAL.(finished := true), [] + [h]);
    assert [] + [h] == [h] && [h] + [] == [h];
  }

  /** What is wrong with a response that cannot be translated. */
  function Refusal(r: Response): string {
    if r.EmptyResponse? then "upstream returned an invalid Responses JSON object"
    else if r.error.Some? then r.error.value
    else if r.status.StatusFailed? then "upstream response failed"
    else "upstream returned a non-terminal Responses JSON object"
  }

  /** Such a response is one failure and nothing else, and no message comes of it. */
  lemma RefusedResponse<J(!new)>(parse: string -> Option<J>, empty: J, prefix: string, r: Response)
    requires r.EmptyResponse? || r.error.Some? || r.status.StatusFailed? || r.status.StatusOther?
    ensures var outs := Flatten(PushJson(prefix, INITIAL, r).1);
            && outs == [Failure(Refusal(r))]
            && Consistent(CollectAll(parse, empty, outs))
            && Outcome(CollectAll(parse, empty, outs))
               == Rejected(if Refusal(r) == "" then "upstream response failed" else Refusal(r))
  {
    hide Push, Fail;
    var m := Refusal(r);
    FailsAtOnce(prefix, m);
    StopReasons.FlattenOne(Handled(Event.Failed(m), -1, [Failure(m)]), []);
    FailureCollected(parse, empty, m);
  }

  lemma FailureCollected<J(!new)>(parse: string -> Option<J>, empty: J, m: string)
    ensures var c := CollectAll(parse, empty, [Failure(m)]);
            && Consistent(c)
            && Outcome(c) == Rejected(if m == "" then "upstream response failed" else m)
  {
    assert [Failure(m)][..0] == [];
    assert CollectAll(parse, empty, [Failure(m)]) == Collect(parse, empty, Initial(), Failure(m));
  }
}
