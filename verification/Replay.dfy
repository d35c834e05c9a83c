/**
 From the blocks of a message back to the input items of the next request. `stringify` prints a JSON
 value and `empty` is the value `{}`.
 */
module Replay {
  import opened Common

  datatype Role = User | Assistant | System

  datatype Content<J> =
    | Text(text: string)
    | Image(url: Option<string>)
    | ToolUse(id: string, name: string, input: Option<J>)
    | ToolResult(toolUseId: string, output: string)
    | ThinkingText(thinking: string, signature: string)
    | Redacted(data: string)
    | Unknown

  datatype Part = InputText(text: string) | OutputText(text: string) | InputImage(url: string)

  datatype InputItem =
    | MessageInput(role: string, parts: seq<Part>)
    | Call(name: string, arguments: string, callId: string)
    | CallOutput(callId: string, output: string)
    | Reasoning(id: Option<string>, summary: seq<string>, encrypted: string)

  function RoleName(role: Role): string {
    match role
    case User => "user"
    case Assistant => "assistant"
    case System => "developer"
  }

  /** The first '#' at or after position `i`; |s| if there is none. */
  function HashFrom(s: string, i: nat): (j: nat)
    requires i <= |s|
    ensures i <= j <= |s| && (j < |s| ==> s[j] == '#') && '#' !in s[i..j]
    decreases |s| - i
  {
    if i == |s| || s[i] == '#' then i
    else
      var j := HashFrom(s, i + 1);
      assert s[i..j] == [s[i]] + s[i + 1..j];
      j
  }

  /** The id of the reasoning item, if the blob carries one, and the opaque content. */
  function SplitReasoningBlob(blob: string): (r: (Option<string>, string)) {
    if "#id=" <= blob && 4 < HashFrom(blob, 4) < |blob| then
      (Some(blob[4..HashFrom(blob, 4)]), blob[HashFrom(blob, 4) + 1..])
    else (None, blob)
  }

  /** What a reasoning block is replayed as: only if this provider made it. */
  function ReplayReasoning(prefix: string, dropAll: bool, blob: string, summary: string): seq<InputItem> {
    if dropAll || blob == "" || prefix == "" || !(prefix <= blob) then []
    else
      var (id, encrypted) := SplitReasoningBlob(blob[|prefix|..]);
      [Reasoning(id, if summary == "" then [] else [summary], encrypted)]
  }

  function TextPart(role: Role, text: string): Part {
    if role == Assistant then OutputText(text) else InputText(text)
  }

  /** The blocks that end a run of text, with what they are replayed as. */
  function Standalone<J>(stringify: J -> string, empty: J, prefix: string, dropAll: bool,
                         b: Content<J>): Option<seq<InputItem>> {
    match b
    case ToolUse(id, name, input) => Some([Call(name, stringify(match input case Some(v) => v case None => empty), id)])
    case ToolResult(id, output) => Some([CallOutput(id, output)])
    case ThinkingText(thinking, signature) => Some(ReplayReasoning(prefix, dropAll, signature, thinking))
    case Redacted(data) => Some(ReplayReasoning(prefix, dropAll, data, ""))
    case _ => None
  }

  function Parts<J>(role: Role, b: Content<J>): seq<Part> {
    match b
    case Text(text) => [TextPart(role, text)]
    case Image(url) => if url.Some? then [InputImage(url.value)] else []
    case _ => []
  }

  function Flushed(role: Role, pending: seq<Part>): seq<InputItem> {
    if pending == [] then [] else [MessageInput(RoleName(role), pending)]
  }

  /** The items after some blocks, and the parts that still wait to become a message. */
  function Translate<J>(stringify: J -> string, empty: J, role: Role, prefix: string, dropAll: bool,
                        blocks: seq<Content<J>>)
    : (seq<InputItem>, seq<Part>)
  {
    if blocks == [] then ([], [])
    else
      var (items, pending) := Translate(stringify, empty, role, prefix, dropAll, blocks[..|blocks| - 1]);
      var b := blocks[|blocks| - 1];
      match Standalone(stringify, empty, prefix, dropAll, b)
      case Some(own) => (items + Flushed(role, pending) + own, [])
      case None => (items, pending + Parts(role, b))
  }

  function InputItems<J>(stringify: J -> string, empty: J, role: Role, prefix: string, dropAll: bool,
                         blocks: seq<Content<J>>)
    : seq<InputItem>
  {
    var (items, pending) := Translate(stringify, empty, role, prefix, dropAll, blocks);
    items + Flushed(role, pending)
  }

  lemma NothingTranslated<J>(stringify: J -> string, empty: J, role: Role, prefix: string, dropAll: bool,
                             blocks: seq<Content<J>>)
    ensures Translate(stringify, empty, role, prefix, dropAll, blocks[..0]) == ([], [])
  {
  }

  lemma TranslateStep<J>(stringify: J -> string, empty: J, role: Role, prefix: string, dropAll: bool,
                         blocks: seq<Content<J>>, i: nat)
    requires i < |blocks|
    ensures var (items, pending) := Translate(stringify, empty, role, prefix, dropAll, blocks[..i]);
            var own := Standalone(stringify, empty, prefix, dropAll, blocks[i]);
            Translate(stringify, empty, role, prefix, dropAll, blocks[..i + 1])
            == if own.Some? then (items + Flushed(role, pending) + own.value, [])
               else (items, pending + Parts(role, blocks[i]))
  {
    assert blocks[..i + 1][..i] == blocks[..i];
    hide Standalone, Flushed, Parts;
  }

  /** The translation of a message's blocks. */
  method MessageToInputItems<J>(stringify: J -> string, empty: J, role: Role, prefix: string, dropAll: bool,
                                blocks: seq<Content<J>>)
    returns (items: seq<InputItem>)
    ensures items == InputItems(stringify, empty, role, prefix, dropAll, blocks)
  {
    hide Translate, SplitReasoningBlob, Flushed;
    NothingTranslated(stringify, empty, role, prefix, dropAll, blocks);
    items := [];
    var pending: seq<Part> := [];
    var i := 0;
    while i < |blocks|
      invariant i <= |blocks|
      invariant (items, pending) == Translate(stringify, empty, role, prefix, dropAll, blocks[..i])
    {
      TranslateStep(stringify, empty, role, prefix, dropAll, blocks, i);
      match blocks[i] {
        case Text(text) => pending := pending + [TextPart(role, text)];
        case Image(url) =>
          if url.Some? {
            pending := pending + [InputImage(url.value)];
          }
          assert pending + [] == pending;
        case ToolUse(id, name, input) =>
          items, pending := items + Flushed(role, pending), [];
          items := items + [Call(name, stringify(if input.Some? then input.value else empty), id)];
        case ToolResult(id, output) =>
          items, pending := items + Flushed(role, pending), [];
          items := items + [CallOutput(id, output)];
        case ThinkingText(thinking, signature) =>
          items, pending := items + Flushed(role, pending), [];
          if !dropAll && signature != "" && prefix != "" && prefix <= signature {
            var (id, encrypted) := SplitReasoningBlob(signature[|prefix|..]);
            items := items + [Reasoning(id, if thinking == "" then [] else [thinking], encrypted)];
          }
          assert items + [] == items;
        case Redacted(data) =>
          items, pending := items + Flushed(role, pending), [];
          if !dropAll && prefix != "" && prefix <= data {
            var (id, encrypted) := SplitReasoningBlob(data[|prefix|..]);
            items := items + [Reasoning(id, [], encrypted)];
          }
          assert items + [] == items;
        case Unknown => assert pending + [] == pending;
      }
      i := i + 1;
    }
    assert blocks[..i] == blocks;
    items := items + Flushed(role, pending);
  }

  // The items, however their parts are grouped

  /** One part of a message, or another item. */
  datatype Atom = PartAtom(role: string, part: Part) | ItemAtom(item: InputItem)

  function PartAtoms(role: string, parts: seq<Part>): seq<Atom> {
    seq(|parts|, i requires 0 <= i < |parts| => PartAtom(role, parts[i]))
  }

  function AtomsOf(item: InputItem): seq<Atom> {
    if item.MessageInput? then PartAtoms(item.role, item.parts) else [ItemAtom(item)]
  }

  function Atoms(items: seq<InputItem>): seq<Atom> {
    if items == [] then [] else Atoms(items[..|items| - 1]) + AtomsOf(items[|items| - 1])
  }

  /** What a block says: its text or its image, in the role of the message. */
  function Spoken<J>(role: Role, b: Content<J>): seq<Atom> {
    var name := match role
                case User => "user"
                case Assistant => "assistant"
                case System => "developer";
    match b
    case Text(text) => [PartAtom(name, if role == Assistant then OutputText(text) else InputText(text))]
    case Image(url) => if url.Some? then [PartAtom(name, InputImage(url.value))] else []
    case _ => []
  }

  /** The item that a tool call is replayed as. */
  function CallOf<J>(stringify: J -> string, empty: J): Content<J> -> seq<InputItem> {
    (b: Content<J>) =>
      if b.ToolUse? then [Call(b.name, stringify(if b.input.Some? then b.input.value else empty), b.id)] else []
  }

  /** The item that a tool result is replayed as. */
  function OutputOf<J>(): Content<J> -> seq<InputItem> {
    (b: Content<J>) => if b.ToolResult? then [CallOutput(b.toolUseId, b.output)] else []
  }

  /** The reasoning item that a block is replayed as, if any. */
  function ReasoningOf<J>(prefix: string, dropAll: bool): Content<J> -> seq<InputItem> {
    (b: Content<J>) => if !dropAll && IsOwn(prefix, b) then [Recovered(prefix, b)] else []
  }

  /** What a single block stands for. */
  function BlockAtoms<J>(stringify: J -> string, empty: J, role: Role, prefix: string, dropAll: bool,
                         b: Content<J>): seq<Atom> {
    match b
    case ToolUse(_, _, _) => ItemAtoms(CallOf(stringify, empty)(b))
    case ToolResult(_, _) => ItemAtoms(OutputOf()(b))
    case ThinkingText(_, _) => ItemAtoms(ReasoningOf(prefix, dropAll)(b))
    case Redacted(_) => ItemAtoms(ReasoningOf(prefix, dropAll)(b))
    case _ => Spoken(role, b)
  }

  function ItemAtoms(items: seq<InputItem>): seq<Atom> {
    seq(|items|, i requires 0 <= i < |items| => ItemAtom(items[i]))
  }

  function AllBlockAtoms<J>(stringify: J -> string, empty: J, role: Role, prefix: string, dropAll: bool,
                            blocks: seq<Content<J>>)
    : seq<Atom>
  {
    if blocks == [] then []
    else
      AllBlockAtoms(stringify, empty, role, prefix, dropAll, blocks[..|blocks| - 1])
      + BlockAtoms(stringify, empty, role, prefix, dropAll, blocks[|blocks| - 1])
  }

  lemma AtomsSnoc(a: seq<InputItem>, i: InputItem)
    ensures Atoms(a + [i]) == Atoms(a) + AtomsOf(i)
  {
    assert (a + [i])[..|a|] == a;
  }

  lemma {:induction false} AtomsConcat(a: seq<InputItem>, b: seq<InputItem>)
    ensures Atoms(a + b) == Atoms(a) + Atoms(b)
    decreases |b|
  {
    if b == [] {
      assert a + b == a;
      assert Atoms(a) + [] == Atoms(a);
    } else {
      hide Atoms, AtomsOf;
      var n := |b| - 1;
      AtomsConcat(a, b[..n]);
      assert b == b[..n] + [b[n]] && a + b == a + b[..n] + [b[n]];
      AtomsSnoc(b[..n], b[n]);
      AtomsSnoc(a + b[..n], b[n]);
      ConcatAssoc(Atoms(a), Atoms(b[..n]), AtomsOf(b[n]));
    }
  }

  lemma AtomsFlushed(role: Role, pending: seq<Part>)
    ensures Atoms(Flushed(role, pending)) == PartAtoms(RoleName(role), pending)
  {
    var items := Flushed(role, pending);
    if pending != [] {
      assert items[..0] == [];
    }
  }

  /** The translation of a block that ends a run of text, or of one that goes on with it. */
  lemma BlockIs<J>(stringify: J -> string, empty: J, role: Role, prefix: string, dropAll: bool, b: Content<J>)
    ensures var own := Standalone(stringify, empty, prefix, dropAll, b);
            BlockAtoms(stringify, empty, role, prefix, dropAll, b)
            == if own.Some? then Atoms(own.value) else PartAtoms(RoleName(role), Parts(role, b))
  {
    hide SplitReasoningBlob;
    var own := Standalone(stringify, empty, prefix, dropAll, b);
    if own.Some? && own.value != [] {
      assert own.value == [own.value[0]];
      OneAtom(own.value[0]);
    }
  }

  lemma OneAtom(item: InputItem)
    requires !item.MessageInput?
    ensures Atoms([item]) == [ItemAtom(item)]
  {
    assert [item][..0] == [];
  }

  /**
   Grouping parts into messages neither loses nor reorders anything: the items and the parts of messages
   are those that the blocks stand for, in order.
   */
  lemma {:induction false} GroupingKeepsOrder<J>(stringify: J -> string, empty: J, role: Role, prefix: string,
                                                 dropAll: bool,
                                                 blocks: seq<Content<J>>)
    ensures Atoms(InputItems(stringify, empty, role, prefix, dropAll, blocks))
         == AllBlockAtoms(stringify, empty, role, prefix, dropAll, blocks)
    decreases |blocks|
  {
    if blocks != [] {
      var init, b := blocks[..|blocks| - 1], blocks[|blocks| - 1];
      GroupingKeepsOrder(stringify, empty, role, prefix, dropAll, init);
      hide Atoms, Standalone, BlockAtoms;
      BlockIs(stringify, empty, role, prefix, dropAll, b);
      var (items, pending) := Translate(stringify, empty, role, prefix, dropAll, init);
      match Standalone(stringify, empty, prefix, dropAll, b) {
        case Some(own) =>
          AtomsConcat(items + Flushed(role, pending), own);
          assert items + Flushed(role, pending) + own + [] == items + Flushed(role, pending) + own;
        case None => GroupParts(role, items, pending, Parts(role, b));
      }
    }
  }

  lemma GroupParts(role: Role, items: seq<InputItem>, pending: seq<Part>, more: seq<Part>)
    ensures Atoms(items + Flushed(role, pending + more))
         == Atoms(items + Flushed(role, pending)) + PartAtoms(RoleName(role), more)
  {
    hide *;
    var name := RoleName(role);
    AtomsThenParts(role, items, pending);
    AtomsThenParts(role, items, pending + more);
    PartAtomsConcat(name, pending, more);
    ConcatAssoc(Atoms(items), PartAtoms(name, pending), PartAtoms(name, more));
  }

  lemma AtomsThenParts(role: Role, items: seq<InputItem>, pending: seq<Part>)
    ensures Atoms(items + Flushed(role, pending)) == Atoms(items) + PartAtoms(RoleName(role), pending)
  {
    AtomsFlushed(role, pending);
    hide *;
    AtomsConcat(items, Flushed(role, pending));
  }

  lemma PartAtomsConcat(role: string, a: seq<Part>, b: seq<Part>)
    ensures PartAtoms(role, a + b) == PartAtoms(role, a) + PartAtoms(role, b)
  {
  }

  function TextParts<J>(role: Role, blocks: seq<Content<J>>): seq<Part>
    requires forall i :: 0 <= i < |blocks| ==> blocks[i].Text?
  {
    seq(|blocks|, i requires 0 <= i < |blocks| => TextPart(role, blocks[i].text))
  }

  lemma {:induction false} OnlyText<J>(stringify: J -> string, empty: J, role: Role, prefix: string, dropAll: bool,
                                       blocks: seq<Content<J>>)
    requires forall i :: 0 <= i < |blocks| ==> blocks[i].Text?
    ensures Translate(stringify, empty, role, prefix, dropAll, blocks) == ([], TextParts(role, blocks))
    decreases |blocks|
  {
    if blocks != [] {
      var n := |blocks| - 1;
      OnlyText(stringify, empty, role, prefix, dropAll, blocks[..n]);
      assert blocks[n].Text?;
      assert TextParts(role, blocks) == TextParts(role, blocks[..n]) + [TextPart(role, blocks[n].text)];
    }
  }

  /** A run of text becomes one message. */
  lemma TextIsOneMessage<J>(stringify: J -> string, empty: J, role: Role, prefix: string, dropAll: bool,
                            blocks: seq<Content<J>>)
    requires blocks != [] && forall i :: 0 <= i < |blocks| ==> blocks[i].Text?
    ensures InputItems(stringify, empty, role, prefix, dropAll, blocks)
         == [MessageInput(RoleName(role), TextParts(role, blocks))]
  {
    OnlyText(stringify, empty, role, prefix, dropAll, blocks);
  }

  // Reasoning

  /** The part of a blob behind the provider prefix, for an item with the given id and content. */
  function BlobBody(id: string, encrypted: string): string {
    (if id != "" then "#id=" + id + "#" else "") + encrypted
  }

  /**
   The blob of an item can be taken apart again exactly if its id contains no '#' and, without an id, its
   content does not look like it had one.
   */
  predicate Separable(id: string, encrypted: string) {
    if id != "" then '#' !in id
    else !("#id=" <= encrypted && '#' in encrypted[4..] && encrypted[4] != '#')
  }

  lemma HashAt(s: string, i: nat, j: nat)
    requires i <= j <= |s| && '#' !in s[i..j] && (j < |s| ==> s[j] == '#')
    ensures HashFrom(s, i) == j
  {
  }

  lemma SplitNamed(id: string, encrypted: string)
    requires id != "" && '#' !in id
    ensures SplitReasoningBlob(BlobBody(id, encrypted)) == (Some(id), encrypted)
  {
    var blob := BlobBody(id, encrypted);
    var n := 4 + |id|;
    assert blob == "#id=" + id + "#" + encrypted;
    assert blob[..4] == "#id=" && blob[4..n] == id && blob[n] == '#' && blob[n + 1..] == encrypted;
    HashAt(blob, 4, n);
  }

  lemma SplitMisnamed(id: string, encrypted: string)
    requires '#' in id
    ensures SplitReasoningBlob(BlobBody(id, encrypted)) != (Some(id), encrypted)
  {
    var blob := BlobBody(id, encrypted);
    var (got, rest) := SplitReasoningBlob(blob);
    if got.Some? {
      assert '#' !in got.value;
    }
  }

  lemma SplitNameless(encrypted: string)
    ensures SplitReasoningBlob(encrypted).0.None? <==> Separable("", encrypted)
    ensures Separable("", encrypted) ==> SplitReasoningBlob(encrypted) == (None, encrypted)
  {
    if "#id=" <= encrypted {
      var h := HashFrom(encrypted, 4);
      assert encrypted[4..|encrypted|] == encrypted[4..];
      assert h < |encrypted| ==> encrypted[4..][h - 4] == '#';
    }
  }

  /** Taking the blob apart gives back the id and the content exactly when they are separable. */
  lemma SplitIffSeparable(id: string, encrypted: string)
    ensures SplitReasoningBlob(BlobBody(id, encrypted)) == (if id == "" then None else Some(id), encrypted)
       <==> Separable(id, encrypted)
  {
    if id == "" {
      assert BlobBody(id, encrypted) == encrypted;
      SplitNameless(encrypted);
    } else if '#' in id {
      SplitMisnamed(id, encrypted);
    } else {
      SplitNamed(id, encrypted);
    }
  }

  // Whose reasoning is replayed

  /** The opaque state that a block carries. */
  function BlobOf<J>(b: Content<J>): Option<string> {
    match b
    case ThinkingText(_, signature) => Some(signature)
    case Redacted(data) => Some(data)
    case _ => None
  }

  /** The block carries the state of a reasoning item that this provider made. */
  predicate IsOwn<J>(prefix: string, b: Content<J>) {
    BlobOf(b).Some? && prefix != "" && prefix <= BlobOf(b).value
  }

  /** The reasoning item that such a block stands for. */
  function Recovered<J>(prefix: string, b: Content<J>): InputItem
    requires IsOwn(prefix, b)
  {
    var (id, encrypted) := SplitReasoningBlob(BlobOf(b).value[|prefix|..]);
    Reasoning(id, if b.ThinkingText? && b.thinking != "" then [b.thinking] else [], encrypted)
  }

  predicate IsReasoning(item: InputItem) { item.Reasoning? }

  predicate IsCall(item: InputItem) { item.Call? }

  predicate IsOutput(item: InputItem) { item.CallOutput? }

  /** The items of one kind among some items. */
  function Among(p: InputItem -> bool, items: seq<InputItem>): seq<InputItem> {
    if items == [] then []
    else
      var item := items[|items| - 1];
      Among(p, items[..|items| - 1]) + (if p(item) then [item] else [])
  }

  /** What each block gives, in order. */
  function Gather<J>(f: Content<J> -> seq<InputItem>, blocks: seq<Content<J>>): seq<InputItem> {
    if blocks == [] then [] else Gather(f, blocks[..|blocks| - 1]) + f(blocks[|blocks| - 1])
  }

  lemma {:induction false} AmongConcat(p: InputItem -> bool, a: seq<InputItem>, b: seq<InputItem>)
    ensures Among(p, a + b) == Among(p, a) + Among(p, b)
    decreases |b|
  {
    if b == [] {
      assert a + b == a;
    } else {
      var n := |b| - 1;
      AmongConcat(p, a, b[..n]);
      assert (a + b)[..|a + b| - 1] == a + b[..n];
    }
  }

  lemma AmongOne(p: InputItem -> bool, item: InputItem)
    ensures Among(p, [item]) == if p(item) then [item] else []
  {
    assert [item][..0] == [];
  }

  /** The kind of item is not a message. */
  ghost predicate IsOwnItem(p: InputItem -> bool) {
    forall role, parts :: !p(MessageInput(role, parts))
  }

  lemma FlushedAmong(p: InputItem -> bool, role: Role, pending: seq<Part>)
    requires IsOwnItem(p)
    ensures Among(p, Flushed(role, pending)) == []
  {
    if pending != [] {
      AmongOne(p, MessageInput(RoleName(role), pending));
    }
  }

  lemma GatherStep<J>(f: Content<J> -> seq<InputItem>, blocks: seq<Content<J>>, n: nat)
    requires n < |blocks|
    ensures Gather(f, blocks[..0]) == []
    ensures Gather(f, blocks[..n + 1]) == Gather(f, blocks[..n]) + f(blocks[n])
  {
    assert blocks[..n + 1][..n] == blocks[..n];
  }

  lemma AmongNone(p: InputItem -> bool)
    ensures Among(p, []) == []
  {
  }

  /** What a block adds to the items of a kind. */
  function Own<J>(stringify: J -> string, empty: J, prefix: string, dropAll: bool, b: Content<J>): seq<InputItem> {
    var own := Standalone(stringify, empty, prefix, dropAll, b);
    if own.Some? then own.value else []
  }

  lemma {:induction false} TranslatedAmong<J(!new)>(p: InputItem -> bool, f: Content<J> -> seq<InputItem>,
                                                    stringify: J -> string, empty: J, role: Role, prefix: string,
                                                    dropAll: bool, blocks: seq<Content<J>>, n: nat)
    requires n <= |blocks| && IsOwnItem(p)
    requires forall b :: Among(p, Own(stringify, empty, prefix, dropAll, b)) == f(b)
    ensures Among(p, Translate(stringify, empty, role, prefix, dropAll, blocks[..n]).0) == Gather(f, blocks[..n])
  {
    hide Translate, Standalone, Flushed, Among, Gather, IsOwnItem;
    AmongNone(p);
    if n == 0 {
      NothingTranslated(stringify, empty, role, prefix, dropAll, blocks);
      assert blocks[..0] == [];
      GatherNone(f);
    } else {
      var m := n - 1;
      TranslatedAmong(p, f, stringify, empty, role, prefix, dropAll, blocks, m);
      TranslateStep(stringify, empty, role, prefix, dropAll, blocks, m);
      GatherStep(f, blocks, m);
      var (items, pending) := Translate(stringify, empty, role, prefix, dropAll, blocks[..m]);
      var own := Standalone(stringify, empty, prefix, dropAll, blocks[m]);
      assert Among(p, Own(stringify, empty, prefix, dropAll, blocks[m])) == f(blocks[m]);
      FlushedAmong(p, role, pending);
      AmongConcat(p, items, Flushed(role, pending));
      assert Among(p, items) + [] == Among(p, items);
      if own.Some? {
        AmongConcat(p, items + Flushed(role, pending), own.value);
      }
    }
  }

  lemma GatherNone<J>(f: Content<J> -> seq<InputItem>)
    ensures Gather(f, []) == []
  {
  }

  lemma ItemsAmong<J(!new)>(p: InputItem -> bool, f: Content<J> -> seq<InputItem>, stringify: J -> string, empty: J,
                            role: Role, prefix: string, dropAll: bool, blocks: seq<Content<J>>)
    requires IsOwnItem(p)
    requires forall b :: Among(p, Own(stringify, empty, prefix, dropAll, b)) == f(b)
    ensures Among(p, InputItems(stringify, empty, role, prefix, dropAll, blocks)) == Gather(f, blocks)
  {
    hide Translate, Standalone, Flushed, Among, Gather, IsOwnItem, Own;
    var (items, pending) := Translate(stringify, empty, role, prefix, dropAll, blocks);
    TranslatedAmong(p, f, stringify, empty, role, prefix, dropAll, blocks, |blocks|);
    assert blocks[..|blocks|] == blocks;
    FlushedAmong(p, role, pending);
    AmongConcat(p, items, Flushed(role, pending));
    assert Among(p, items) + [] == Among(p, items);
  }

  /** What one block adds, by kind. */
  lemma OwnByKind<J>(stringify: J -> string, empty: J, prefix: string, dropAll: bool, b: Content<J>)
    ensures var own := Own(stringify, empty, prefix, dropAll, b);
            && Among(IsCall, own) == CallOf(stringify, empty)(b)
            && Among(IsOutput, own) == OutputOf()(b)
            && Among(IsReasoning, own) == ReasoningOf(prefix, dropAll)(b)
  {
    hide SplitReasoningBlob, Among;
    var own := Own(stringify, empty, prefix, dropAll, b);
    AmongNone(IsCall);
    AmongNone(IsOutput);
    AmongNone(IsReasoning);
    if own != [] {
      assert own == [own[0]];
      AmongOne(IsCall, own[0]);
      AmongOne(IsOutput, own[0]);
      AmongOne(IsReasoning, own[0]);
    }
  }

  /** Every call is replayed, in order, with its id, its name and its input. */
  lemma EveryCallIsReplayed<J(!new)>(stringify: J -> string, empty: J, role: Role, prefix: string, dropAll: bool,
                                     blocks: seq<Content<J>>)
    ensures Among(IsCall, InputItems(stringify, empty, role, prefix, dropAll, blocks))
         == Gather(CallOf(stringify, empty), blocks)
  {
    hide Among, Gather, InputItems, Own, CallOf, OutputOf, ReasoningOf;
    forall b
      ensures Among(IsCall, Own(stringify, empty, prefix, dropAll, b)) == CallOf(stringify, empty)(b)
    {
      OwnByKind(stringify, empty, prefix, dropAll, b);
    }
    ItemsAmong(IsCall, CallOf(stringify, empty), stringify, empty, role, prefix, dropAll, blocks);
  }

  /** Every result is replayed, in order, under the id of the call that it answers. */
  lemma EveryResultIsReplayed<J(!new)>(stringify: J -> string, empty: J, role: Role, prefix: string, dropAll: bool,
                                       blocks: seq<Content<J>>)
    ensures Among(IsOutput, InputItems(stringify, empty, role, prefix, dropAll, blocks)) == Gather(OutputOf(), blocks)
  {
    hide Among, Gather, InputItems, Own, CallOf, OutputOf, ReasoningOf;
    forall b
      ensures Among(IsOutput, Own(stringify, empty, prefix, dropAll, b)) == OutputOf()(b)
    {
      OwnByKind(stringify, empty, prefix, dropAll, b);
    }
    ItemsAmong(IsOutput, OutputOf(), stringify, empty, role, prefix, dropAll, blocks);
  }

  /**
   However a message's blocks are grouped into items, the reasoning items among them are exactly those
   of the blocks whose blob carries the provider's prefix, in order, and none if reasoning is dropped:
   what another provider made, or what carries no opaque state, is never replayed.
   */
  lemma OnlyOwnReasoning<J(!new)>(stringify: J -> string, empty: J, role: Role, prefix: string, dropAll: bool,
                                  blocks: seq<Content<J>>)
    ensures Among(IsReasoning, InputItems(stringify, empty, role, prefix, dropAll, blocks))
         == Gather(ReasoningOf(prefix, dropAll), blocks)
  {
    hide Among, Gather, InputItems, Own, CallOf, OutputOf, ReasoningOf;
    forall b
      ensures Among(IsReasoning, Own(stringify, empty, prefix, dropAll, b)) == ReasoningOf(prefix, dropAll)(b)
    {
      OwnByKind(stringify, empty, prefix, dropAll, b);
    }
    ItemsAmong(IsReasoning, ReasoningOf(prefix, dropAll), stringify, empty, role, prefix, dropAll, blocks);
  }
}
