/**
 The collector that turns a stream of Anthropic events into one message. Parsed JSON values are of
 an abstract type J; `parse` is the JSON parser and `empty` the value `{}`.
 */
module Collector {
  import opened Common
  import opened Translator

  datatype Collected<J> = Collected(block: Block, text: string, thinking: string, signature: string, input: J,
                                    inputJson: string)

  /** `message` holds the stop reason that was reported, if one was; `order` lists the blocks as they came. */
  datatype CollectorState<J> = CollectorState(message: Option<Option<string>>, blocks: map<int, Collected<J>>,
                                              order: seq<int>,
                            stopped: bool, error: Option<string>)

  datatype Result<J> = Complete(stopReason: Option<string>, content: seq<Collected<J>>) | Rejected(message: string)

  function Initial<J>(): CollectorState<J> {
    CollectorState(None, map[], [], false, None)
  }

  const INVALID_BLOCK := "upstream response produced an invalid content block"
  const ORPHAN_DELTA := "upstream response produced an orphan content delta"
  const UNKNOWN_BLOCK := "upstream response stopped an unknown content block"
  const MALFORMED := "upstream response produced malformed tool arguments"
  const EARLY_DELTA := "upstream response produced message_delta before message_start"
  const INCOMPLETE := "upstream response did not produce a complete Anthropic message"
  const NO_CONTENT := "upstream response contained no content blocks"
  const FAILED := "upstream response failed"

  function AddDelta<J>(b: Collected<J>, d: Delta): Collected<J> {
    match d
    case TextPart(s) => b.(text := b.text + s)
    case ThinkingPart(s) => b.(thinking := b.thinking + s)
    case SignaturePart(s) => b.(signature := b.signature + s)
    case JsonPart(s) => b.(inputJson := b.inputJson + s)
  }

  function OnStop<J>(parse: string -> Option<J>, c: CollectorState<J>, i: int): CollectorState<J>
    requires i in c.blocks
  {
    var b := c.blocks[i];
    if !b.block.ToolBlock? || b.inputJson == "" then c
    else
      match parse(b.inputJson)
      case Some(v) => c.(blocks := c.blocks[i := b.(input := v)])
      case None => c.(error := Some(MALFORMED))
  }

  /** One event. */
  function Collect<J>(parse: string -> Option<J>, empty: J, c: CollectorState<J>, o: Out): CollectorState<J> {
    if c.error.Some? || c.stopped then c
    else
      match o
      case MessageStart => c.(message := Some(None))
      case BlockStart(i, b) =>
        if i < 0 || i in c.blocks then c.(error := Some(INVALID_BLOCK))
        else c.(blocks := c.blocks[i := Collected(b, "", "", "", empty, "")], order := c.order + [i])
      case BlockDelta(i, d) =>
        if i !in c.blocks then c.(error := Some(ORPHAN_DELTA))
        else c.(blocks := c.blocks[i := AddDelta(c.blocks[i], d)])
      case BlockStop(i) => if i !in c.blocks then c.(error := Some(UNKNOWN_BLOCK)) else OnStop(parse, c, i)
      case MessageDelta(r) => if c.message.None? then c.(error := Some(EARLY_DELTA)) else c.(message := Some(Some(r)))
      case MessageStop => c.(stopped := true)
      case Failure(m) => c.(error := Some(if m == "" then FAILED else m))
  }

  function CollectAll<J>(parse: string -> Option<J>, empty: J, outs: seq<Out>): CollectorState<J> {
    if outs == [] then Initial()
    else Collect(parse, empty, CollectAll(parse, empty, outs[..|outs| - 1]), outs[|outs| - 1])
  }

  /** Sorting block numbers. */
  function Insert(s: seq<int>, x: int): (r: seq<int>)
    ensures multiset(r) == multiset(s) + multiset{x}
  {
    if s == [] || s[|s| - 1] <= x then s + [x]
    else
      assert s == s[..|s| - 1] + [s[|s| - 1]];
      Insert(s[..|s| - 1], x) + [s[|s| - 1]]
  }

  function Sort(s: seq<int>): (r: seq<int>)
    ensures multiset(r) == multiset(s)
  {
    if s == [] then []
    else
      assert s == s[..|s| - 1] + [s[|s| - 1]];
      Insert(Sort(s[..|s| - 1]), s[|s| - 1])
  }

  predicate Ascending(s: seq<int>) {
    forall i, j :: 0 <= i < j < |s| ==> s[i] <= s[j]
  }

  lemma {:induction false} InsertAscends(s: seq<int>, x: int)
    requires Ascending(s)
    ensures Ascending(Insert(s, x))
    decreases |s|
  {
    if s != [] && s[|s| - 1] > x {
      var init, last := s[..|s| - 1], s[|s| - 1];
      assert s == init + [last];
      InsertAscends(init, x);
      forall k | 0 <= k < |Insert(init, x)|
        ensures Insert(init, x)[k] <= last
      {
        assert Insert(init, x)[k] in multiset(Insert(init, x));
        assert Insert(init, x)[k] in init || Insert(init, x)[k] == x;
      }
      hide Insert;
    }
  }

  /** The numbers are sorted. */
  lemma {:induction false} SortAscends(s: seq<int>)
    ensures Ascending(Sort(s)) && multiset(Sort(s)) == multiset(s)
    decreases |s|
  {
    if s != [] {
      SortAscends(s[..|s| - 1]);
      InsertAscends(Sort(s[..|s| - 1]), s[|s| - 1]);
    }
  }

  /** The blocks in the order of their numbers. */
  function Content<J>(blocks: map<int, Collected<J>>, keys: seq<int>): seq<Collected<J>>
    requires forall i :: 0 <= i < |keys| ==> keys[i] in blocks
  {
    seq(|keys|, i requires 0 <= i < |keys| => blocks[keys[i]])
  }

  ghost predicate Consistent<J(!new)>(c: CollectorState<J>) {
    forall k :: k in c.order <==> k in c.blocks
  }

  lemma SortSame(s: seq<int>, k: int)
    ensures k in Sort(s) <==> k in s
  {
    assert k in Sort(s) <==> k in multiset(Sort(s));
    assert k in s <==> k in multiset(s);
  }

  lemma SortListed<J(!new)>(c: CollectorState<J>)
    requires Consistent(c)
    ensures forall i :: 0 <= i < |Sort(c.order)| ==> Sort(c.order)[i] in c.blocks
  {
    var keys := Sort(c.order);
    forall i | 0 <= i < |keys|
      ensures keys[i] in c.blocks
    {
      assert keys[i] in keys;
      SortSame(c.order, keys[i]);
    }
  }

  function Outcome<J(!new)>(c: CollectorState<J>): Result<J>
    requires Consistent(c)
  {
    if c.error.Some? then Rejected(c.error.value)
    else if c.message.None? || !c.stopped then Rejected(INCOMPLETE)
    else
      SortListed(c);
      if c.order == [] then Rejected(NO_CONTENT)
      else Complete(c.message.value, Content(c.blocks, Sort(c.order)))
  }

  lemma CollectListed<J(!new)>(parse: string -> Option<J>, empty: J, c: CollectorState<J>, o: Out)
    requires Consistent(c)
    ensures Consistent(Collect(parse, empty, c, o))
  {
  }

  class AnthropicMessageCollector<J(!new)> {
    var message: Option<Option<string>>
    var blocks: map<int, Collected<J>>
    var order: seq<int>
    var stopped: bool
    var error: Option<string>
    const parse: string -> Option<J>
    const empty: J

    ghost function View(): CollectorState<J>
      reads this
    {
      CollectorState(message, blocks, order, stopped, error)
    }

    ghost predicate Valid()
      reads this
    {
      Consistent(View())
    }

    constructor (parse: string -> Option<J>, empty: J)
      ensures View() == Initial() && Valid() && this.parse == parse && this.empty == empty
    {
      message, blocks, order, stopped, error := None, map[], [], false, None;
      this.parse, this.empty := parse, empty;
    }

    method Push(o: Out)
      requires Valid()
      modifies this
      ensures View() == Collect(parse, empty, old(View()), o) && Valid()
    {
      CollectListed(parse, empty, View(), o);
      if error.Some? || stopped {
        return;
      }
      match o {
        case MessageStart => message := Some(None);
        case BlockStart(i, b) =>
          if i < 0 || i in blocks {
            error := Some(INVALID_BLOCK);
          } else {
            blocks := blocks[i := Collected(b, "", "", "", empty, "")];
            order := order + [i];
          }
        case BlockDelta(i, d) =>
          if i !in blocks {
            error := Some(ORPHAN_DELTA);
          } else {
            blocks := blocks[i := AddDelta(blocks[i], d)];
          }
        case BlockStop(i) => BlockStopped(i);
        case MessageDelta(r) =>
          if message.None? {
            error := Some(EARLY_DELTA);
          } else {
            message := Some(Some(r));
          }
        case MessageStop => stopped := true;
        case Failure(m) => error := Some(if m == "" then FAILED else m);
      }
    }

    method BlockStopped(i: int)
      requires error.None? && !stopped
      modifies this`blocks, this`error
      ensures View() == Collect(parse, empty, old(View()), BlockStop(i))
    {
      if i !in blocks {
        error := Some(UNKNOWN_BLOCK);
        return;
      }
      var b := blocks[i];
      if !b.block.ToolBlock? || b.inputJson == "" {
        return;
      }
      match parse(b.inputJson) {
        case Some(v) => blocks := blocks[i := b.(input := v)];
        case None => error := Some(MALFORMED);
      }
    }

    method Finish() returns (r: Result<J>)
      requires Valid()
      ensures r == Outcome(View())
    {
      if error.Some? {
        return Rejected(error.value);
      }
      if message.None? || !stopped {
        return Rejected(INCOMPLETE);
      }
      SortListed(View());
      var content := Content(blocks, Sort(order));
      if content == [] {
        assert |Sort(order)| == |multiset(order)|;
        return Rejected(NO_CONTENT);
      }
      return Complete(message.value, content);
    }
  }
}
