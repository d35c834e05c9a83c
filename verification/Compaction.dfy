/**
 Dropping old images from a request that is too large. A request body is a tree of which only the
 sizes matter; `shell` is the serialized size of everything around the children of a node.
 */
module Compaction {
  import opened Common

  datatype Kind = Image | ImageUrl | InputImage | Notice | InputNotice | PlainResult | Other

  datatype Block = Leaf(kind: Kind, bytes: nat) | Result(shell: nat, inner: seq<Block>)

  /** `user`: its role; `responsesUser`: it is a user message in the Responses sense. */
  datatype Item = Item(user: bool, responsesUser: bool, shell: nat, content: Option<seq<Block>>)

  datatype Body = Body(shell: nat, messages: Option<seq<Item>>, input: Option<seq<Item>>)

  // Sizes

  /** Brackets, commas and the elements. */
  function ArraySize(n: nat, elements: nat): nat {
    2 + (if n == 0 then 0 else n - 1) + elements
  }

  /** The texts of the elements, one after the other, with commas between them. */
  function Listed(texts: seq<string>): string {
    if |texts| <= 1 then if texts == [] then "" else texts[0]
    else Listed(texts[..|texts| - 1]) + "," + texts[|texts| - 1]
  }

  function TotalLength(texts: seq<string>): nat {
    if texts == [] then 0 else TotalLength(texts[..|texts| - 1]) + |texts[|texts| - 1]|
  }

  /** The size of an array is the length of its JSON text. */
  lemma {:induction false} ArraySizeIsWritten(texts: seq<string>)
    ensures |"[" + Listed(texts) + "]"| == ArraySize(|texts|, TotalLength(texts))
    decreases |texts|
  {
    if |texts| > 1 {
      ArraySizeIsWritten(texts[..|texts| - 1]);
    } else if |texts| == 1 {
      assert TotalLength(texts[..0]) == 0;
    }
  }

  function Size(b: Block): nat
    decreases b
  {
    match b
    case Leaf(_, bytes) => bytes
    case Result(shell, inner) => shell + ArraySize(|inner|, Sizes(inner))
  }

  function Sizes(bs: seq<Block>): nat
    decreases bs
  {
    if bs == [] then 0 else Sizes(bs[..|bs| - 1]) + Size(bs[|bs| - 1])
  }

  function ItemSize(i: Item): nat {
    i.shell + (if i.content.Some? then ArraySize(|i.content.value|, Sizes(i.content.value)) else 0)
  }

  function ItemSizes(items: seq<Item>): nat {
    if items == [] then 0 else ItemSizes(items[..|items| - 1]) + ItemSize(items[|items| - 1])
  }

  function ListSize(items: Option<seq<Item>>): nat {
    if items.Some? then ArraySize(|items.value|, ItemSizes(items.value)) else 0
  }

  function BodySize(body: Body): nat {
    body.shell + ListSize(body.messages) + ListSize(body.input)
  }

  // Places in the body

  /** A block: in which list, in which item, and the way down. */
  datatype Place = Place(inMessages: bool, item: nat, path: seq<nat>)

  function Find(bs: seq<Block>, path: seq<nat>): Option<Block>
    decreases |path|
  {
    if path == [] || path[0] >= |bs| then None
    else if |path| == 1 then Some(bs[path[0]])
    else if bs[path[0]].Result? then Find(bs[path[0]].inner, path[1..])
    else None
  }

  function Put(bs: seq<Block>, path: seq<nat>, b: Block): seq<Block>
    requires Find(bs, path).Some?
    decreases |path|
  {
    if |path| == 1 then bs[path[0] := b]
    else bs[path[0] := Result(bs[path[0]].shell, Put(bs[path[0]].inner, path[1..], b))]
  }

  function ItemsOf(body: Body, inMessages: bool): Option<seq<Item>> {
    if inMessages then body.messages else body.input
  }

  function At(body: Body, p: Place): Option<Block> {
    var items := ItemsOf(body, p.inMessages);
    if items.Some? && p.item < |items.value| && items.value[p.item].content.Some? then
      Find(items.value[p.item].content.value, p.path)
    else None
  }

  function PutItem(items: seq<Item>, i: nat, path: seq<nat>, b: Block): seq<Item>
    requires i < |items| && items[i].content.Some? && Find(items[i].content.value, path).Some?
  {
    items[i := items[i].(content := Some(Put(items[i].content.value, path, b)))]
  }

  function Replace(body: Body, p: Place, b: Block): Body
    requires At(body, p).Some?
  {
    if p.inMessages then body.(messages := Some(PutItem(body.messages.value, p.item, p.path, b)))
    else body.(input := Some(PutItem(body.input.value, p.item, p.path, b)))
  }

  // Candidates

  datatype Candidate = Candidate(place: Place, replacement: Kind, priority: nat, age: nat)

  /** The size of the replacement of an image. */
  datatype Notices = Notices(text: nat, inputText: nat)

  function NoticeFor(n: Notices, c: Candidate): Block {
    if c.replacement == InputNotice then Leaf(InputNotice, n.inputText) else Leaf(Notice, n.text)
  }

  predicate IsResult(b: Block) {
    b.Result? || b.kind == PlainResult
  }

  /** A user message that does not only answer tool calls. */
  predicate IsPrompt(i: Item) {
    i.user && (i.content.None? || exists k :: 0 <= k < |i.content.value| && !IsResult(i.content.value[k]))
  }

  /** The last item for which `p` holds; None if there is none. */
  function LastIndex(items: seq<Item>, p: Item -> bool): (r: Option<nat>)
    ensures r.Some? ==> r.value < |items| && p(items[r.value])
    ensures forall i :: (if r.Some? then r.value + 1 else 0) <= i < |items| ==> !p(items[i])
  {
    if items == [] then None
    else if p(items[|items| - 1]) then Some(|items| - 1)
    else LastIndex(items[..|items| - 1], p)
  }

  function IsUser(): Item -> bool { (i: Item) => i.user }

  function IsResponsesUser(): Item -> bool { (i: Item) => i.responsesUser }

  function IsPromptItem(): Item -> bool { (i: Item) => IsPrompt(i) }

  /** The images among the first `n` blocks, and inside the tool results among them. */
  function Scan(bs: seq<Block>, n: nat, item: nat, way: seq<nat>, inResult: bool): seq<Candidate>
    requires n <= |bs|
    decreases bs, n
  {
    if n == 0 then []
    else
      Scan(bs, n - 1, item, way, inResult)
      + (match bs[n - 1]
         case Leaf(kind, _) =>
           if kind == Image
           then [Candidate(Place(true, item, way + [n - 1]), Notice, if inResult then 0 else 1, item)] else []
         case Result(_, inner) => Scan(inner, |inner|, item, way + [n - 1], true))
  }

  function ScanItem(items: seq<Item>, item: nat, latest: Option<nat>): seq<Candidate>
    requires item < |items|
  {
    if items[item].content.None? || latest == Some(item) then []
    else Scan(items[item].content.value, |items[item].content.value|, item, [], false)
  }

  function ScanItems(items: seq<Item>, n: nat, latest: Option<nat>): seq<Candidate>
    requires n <= |items|
  {
    if n == 0 then [] else ScanItems(items, n - 1, latest) + ScanItem(items, n - 1, latest)
  }

  /** The last image of a tool result. */
  function LastInResult(cs: seq<Candidate>): (r: Option<nat>)
    ensures r.Some? ==> r.value < |cs|
  {
    if cs == [] then None
    else if cs[|cs| - 1].priority == 0 then Some(|cs| - 1)
    else LastInResult(cs[..|cs| - 1])
  }

  /** The newest image of a tool result is the last to go. */
  function Demote(cs: seq<Candidate>): seq<Candidate> {
    match LastInResult(cs)
    case Some(i) => cs[i := cs[i].(priority := 2)]
    case None => cs
  }

  function AnthropicImages(items: seq<Item>): seq<Candidate> {
    Demote(ScanItems(items, |items|, LastIndex(items, IsPromptItem())))
  }

  /** The images of one kind in the content of the items, outside tool results. */
  function FlatImages(bs: seq<Block>, n: nat, kind: Kind, replacement: Kind, inMessages: bool, item: nat)
    : seq<Candidate>
    requires n <= |bs|
  {
    if n == 0 then []
    else
      FlatImages(bs, n - 1, kind, replacement, inMessages, item)
      + (if bs[n - 1].Leaf? && bs[n - 1].kind == kind
         then [Candidate(Place(inMessages, item, [n - 1]), replacement, 1, item)] else [])
  }

  function FlatItems(items: seq<Item>, n: nat, kind: Kind, replacement: Kind, inMessages: bool, latest: Option<nat>)
    : seq<Candidate>
    requires n <= |items|
  {
    if n == 0 then []
    else
      FlatItems(items, n - 1, kind, replacement, inMessages, latest)
      + (if items[n - 1].content.None? || latest == Some(n - 1) then []
         else FlatImages(items[n - 1].content.value, |items[n - 1].content.value|, kind, replacement, inMessages,
                         n - 1))
  }

  function ChatImages(items: seq<Item>): seq<Candidate> {
    FlatItems(items, |items|, ImageUrl, Notice, true, LastIndex(items, IsUser()))
  }

  function ResponsesImages(items: seq<Item>): seq<Candidate> {
    FlatItems(items, |items|, InputImage, InputNotice, false, LastIndex(items, IsResponsesUser()))
  }

  function Candidates(body: Body): seq<Candidate> {
    (if body.messages.Some? then AnthropicImages(body.messages.value) + ChatImages(body.messages.value) else [])
    + (if body.input.Some? then ResponsesImages(body.input.value) else [])
  }

  // Sorting, which keeps the order of equals

  predicate Before(a: Candidate, b: Candidate) {
    a.priority < b.priority || (a.priority == b.priority && a.age <= b.age)
  }

  function Insert(cs: seq<Candidate>, c: Candidate): seq<Candidate> {
    if cs == [] || Before(cs[|cs| - 1], c) then cs + [c] else Insert(cs[..|cs| - 1], c) + [cs[|cs| - 1]]
  }

  function Sort(cs: seq<Candidate>): seq<Candidate> {
    if cs == [] then [] else Insert(Sort(cs[..|cs| - 1]), cs[|cs| - 1])
  }

  // Replacing

  /** The body after the first `k` candidates were replaced. */
  function ReplaceFirst(n: Notices, body: Body, cs: seq<Candidate>, k: nat): Body
    requires k <= |cs|
  {
    if k == 0 then body
    else
      var b := ReplaceFirst(n, body, cs, k - 1);
      if At(b, cs[k - 1].place).Some? then Replace(b, cs[k - 1].place, NoticeFor(n, cs[k - 1])) else b
  }
}
