/**
 The order that clients of the Anthropic event stream rely on, as an automaton over what the
 translator emits, and the proof that every run of the translator follows it.
 */
module Grammar {
  import opened Common
  import opened Translator

  /** What a content block may hold. */
  datatype Shape = TextShape | ThinkingShape | RedactedShape | ToolShape

  function ShapeOf(b: Block): Shape {
    match b
    case TextBlock => TextShape
    case ThinkingBlock => ThinkingShape
    case RedactedBlock(_) => RedactedShape
    case ToolBlock(_, _) => ToolShape
  }

  /** `bare`: nothing visible was sent yet; `signed`: the signature was sent, which ends the content. */
  datatype OpenBlock = OpenBlock(index: int, shape: Shape, owner: int, bare: bool, signed: bool)

  /** `trailer`: the stop reason was sent and only the stop may follow; `ended`: a terminal event was sent. */
  datatype Scan = Scan(started: bool, next: nat, open: Option<OpenBlock>, trailer: bool, ended: bool)

  const START := Scan(false, 0, None, false, false)

  predicate Fits(b: OpenBlock, d: Delta) {
    match d
    case TextPart(s) => b.shape == TextShape && s != "" && (b.bare ==> !IsBlank(s))
    case ThinkingPart(s) => b.shape == ThinkingShape && !b.signed && s != "" && (b.bare ==> !IsBlank(s))
    case SignaturePart(s) => b.shape == ThinkingShape && !b.signed && !b.bare && s != ""
    case JsonPart(s) => b.shape == ToolShape && s != ""
  }

  /** The event `o`, emitted for item `key`, is allowed next. */
  predicate Allowed(g: Scan, key: int, o: Out) {
    (g.trailer <==> o.MessageStop?)
    && match o
       case MessageStart => !g.started
       case BlockStart(i, b) => g.started && g.open.None? && i == g.next
       case BlockDelta(i, d) => g.open.Some? && g.open.value.index == i && g.open.value.owner == key
           && Fits(g.open.value, d)
       case BlockStop(i) => g.open.Some? && g.open.value.index == i && !g.open.value.bare
       case MessageDelta(_) => g.started && g.open.None? && !g.ended
       case MessageStop => g.open.None? && !g.ended
       case Failure(_) => g.open.None? && !g.ended
  }

  function Next(g: Scan, key: int, o: Out): Scan
    requires Allowed(g, key, o)
  {
    match o
    case MessageStart => g.(started := true)
    case BlockStart(i, b) => g.(open := Some(OpenBlock(i, ShapeOf(b), key, b.TextBlock? || b.ThinkingBlock?, false)),
                                next := g.next + 1)
    case BlockDelta(_, d) => g.(open := Some(g.open.value.(bare := false, signed := d.SignaturePart?)))
    case BlockStop(_) => g.(open := None)
    case MessageDelta(_) => g.(trailer := true)
    case MessageStop => g.(trailer := false, ended := true)
    case Failure(_) => g.(ended := true)
  }

  /** Where a sequence of events leads; None if one of them is not allowed. */
  function Follow(g: Scan, key: int, outs: seq<Out>): Option<Scan>
    decreases |outs|
  {
    if outs == [] then Some(g)
    else if Allowed(g, key, outs[0]) then Follow(Next(g, key, outs[0]), key, outs[1..])
    else None
  }

  function FollowAll(g: Scan, hs: seq<Handled>): Option<Scan>
    decreases |hs|
  {
    if hs == [] then Some(g)
    else
      match Follow(g, hs[0].key, hs[0].out)
      case Some(g1) => FollowAll(g1, hs[1..])
      case None => None
  }

  lemma {:induction false} FollowConcat(g: Scan, key: int, a: seq<Out>, b: seq<Out>)
    requires Follow(g, key, a).Some?
    ensures Follow(g, key, a + b) == Follow(Follow(g, key, a).value, key, b)
    decreases |a|
  {
    if a == [] {
      assert a + b == b;
    } else {
      assert (a + b)[0] == a[0] && (a + b)[1..] == a[1..] + b;
      FollowConcat(Next(g, key, a[0]), key, a[1..], b);
    }
  }

  lemma {:induction false} FollowAllConcat(g: Scan, a: seq<Handled>, b: seq<Handled>)
    requires FollowAll(g, a).Some?
    ensures FollowAll(g, a + b) == FollowAll(FollowAll(g, a).value, b)
    decreases |a|
  {
    if a == [] {
      assert a + b == b;
    } else {
      assert (a + b)[0] == a[0] && (a + b)[1..] == a[1..] + b;
      FollowAllConcat(Follow(g, a[0].key, a[0].out).value, a[1..], b);
    }
  }

  lemma FollowOne(g: Scan, h: Handled)
    ensures FollowAll(g, [h]) == Follow(g, h.key, h.out)
  {
    assert [h][1..] == [];
  }

  // The translator's state and the automaton's

  /** The block of item `k`, which is `st`, if item `k` is the open one. */
  predicate BlockOk(s: State, k: int, st: BlockState) {
    && (st.isOpen ==> s.open == Some(k) && 0 <= st.blockIndex == s.nextIndex - 1 && st.pending == "")
    && (s.open == Some(k) && st.kind != Thinking ==> st.isOpen)
    && IsBlank(st.pending)
    && (st.kind == FunctionCall ==> st.pending == "")
    && (st.argsSent > 0 ==> st.kind == FunctionCall)
  }

  ghost predicate Listed(s: State) {
    && (forall k :: k in s.order <==> k in s.blocks)
    && (forall i, j :: 0 <= i < j < |s.order| ==> s.order[i] != s.order[j])
  }

  ghost predicate Inv(s: State) {
    && (forall k :: k in s.blocks ==> BlockOk(s, k, s.blocks[k]))
    && (s.open.Some? ==> s.open.value in s.blocks)
    && (s.blocks != map[] ==> s.started)
    && Listed(s)
  }

  function ShapeFor(k: Kind): Shape {
    match k
    case Thinking => ThinkingShape
    case Message => TextShape
    case FunctionCall => ToolShape
  }

  function OpenOf(s: State): Option<OpenBlock> {
    if s.open.Some? && s.open.value in s.blocks && s.blocks[s.open.value].isOpen then
      var st := s.blocks[s.open.value];
      Some(OpenBlock(st.blockIndex, ShapeFor(st.kind), s.open.value, false, false))
    else None
  }

  function ScanOf(s: State): Scan {
    Scan(s.started, s.nextIndex, OpenOf(s), false, s.finished)
  }

  /** From `s` to `s1` while `out` was emitted for item `key`. */
  ghost predicate Steps(s: State, key: int, out: seq<Out>, s1: State) {
    Inv(s1) && Follow(ScanOf(s), key, out) == Some(ScanOf(s1))
  }

  ghost predicate Goes(s: State, hs: seq<Handled>, s1: State) {
    Inv(s1) && FollowAll(ScanOf(s), hs) == Some(ScanOf(s1))
  }

  // One event

  lemma Follow1(g: Scan, key: int, a: Out)
    requires Allowed(g, key, a)
    ensures Follow(g, key, [a]) == Some(Next(g, key, a))
  {
    assert [a][1..] == [];
  }

  lemma Follow2(g: Scan, key: int, a: Out, b: Out)
    requires Allowed(g, key, a) && Allowed(Next(g, key, a), key, b)
    ensures Follow(g, key, [a, b]) == Some(Next(Next(g, key, a), key, b))
  {
    assert [a, b][1..] == [b];
    Follow1(Next(g, key, a), key, b);
  }

  lemma StepsConcat(s: State, key: int, a: seq<Out>, s1: State, b: seq<Out>, s2: State)
    requires Steps(s, key, a, s1) && Steps(s1, key, b, s2)
    ensures Steps(s, key, a + b, s2)
  {
    FollowConcat(ScanOf(s), key, a, b);
  }

  lemma GoesConcat(s: State, a: seq<Handled>, s1: State, b: seq<Handled>, s2: State)
    requires Goes(s, a, s1) && Goes(s1, b, s2)
    ensures Goes(s, a + b, s2)
  {
    FollowAllConcat(ScanOf(s), a, b);
  }

  lemma StepGoes(s: State, h: Handled, s1: State)
    requires Steps(s, h.key, h.out, s1)
    ensures Goes(s, [h], s1)
  {
    FollowOne(ScanOf(s), h);
  }

  lemma SetBlockListed(s: State, k: int, st: BlockState)
    requires Listed(s)
    ensures Listed(SetBlock(s, k, st))
  {
    if k !in s.blocks {
      assert k !in s.order;
    }
  }

  lemma EnsureStartSteps(s: State, key: int)
    requires Inv(s)
    ensures var (s1, out) := EnsureStart(s);
            Steps(s, key, out, s1) && s1 == s.(started := true)
  {
    if !s.started {
      Follow1(ScanOf(s), key, MessageStart);
    }
  }

  lemma CloseForOtherSteps(s: State, k: int)
    requires Inv(s)
    ensures var (s1, out) := CloseForOther(s, k);
            && Steps(s, k, out, s1)
            && (s1.open == None || s1.open == Some(k) == s.open)
            && s1.blocks.Keys == s.blocks.Keys
            && (k in s.blocks ==> s1.blocks[k] == s.blocks[k])
            && s1.nextIndex == s.nextIndex && s1.started == s.started
  {
    hide Steps, Inv, BlockOk;
    if s.open.Some? && s.open != Some(k) {
      CloseOpenSteps(s, k);
    } else {
      NoSteps(s, k);
    }
  }

  lemma CloseOpenSteps(s: State, k: int)
    requires Inv(s) && s.open.Some? && s.open != Some(k)
    ensures s.open.value in s.blocks
    ensures var (s1, out) := CloseForOther(s, k);
            Steps(s, k, out, s1)
  {
    var j := s.open.value;
    assert BlockOk(s, j, s.blocks[j]);
    if s.blocks[j].isOpen {
      SetBlockListed(s, j, s.blocks[j].(isOpen := false));
      Follow1(ScanOf(s), k, BlockStop(s.blocks[j].blockIndex));
    }
  }

  /** `s` once the block `st` of item `k` was started. */
  function Begun(s: State, k: int, st: BlockState): State {
    SetBlock(s, k, st).(nextIndex := s.nextIndex + 1, open := Some(k))
  }

  /** The new open block of item `k`. */
  predicate Beginning(s: State, k: int, st: BlockState) {
    && st.isOpen && st.blockIndex == s.nextIndex && st.pending == "" && st.argsSent == 0
    && s.started && OpenOf(s) == None && (s.open.Some? ==> s.open == Some(k))
  }

  lemma BegunInv(s: State, k: int, st: BlockState)
    requires Inv(s) && Beginning(s, k, st)
    ensures Inv(Begun(s, k, st))
    ensures ScanOf(Begun(s, k, st))
         == ScanOf(s).(open := Some(OpenBlock(s.nextIndex, ShapeFor(st.kind), k, false, false)),
                       next := s.nextIndex + 1)
  {
    SetBlockListed(s, k, st);
    hide Listed;
    forall j | j in s.blocks && j != k
      ensures BlockOk(Begun(s, k, st), j, s.blocks[j])
    {
      assert BlockOk(s, j, s.blocks[j]);
    }
    hide IsBlank;
  }

  lemma BeginToolSteps(s: State, k: int, st: BlockState, b: Block)
    requires Inv(s) && Beginning(s, k, st) && st.kind == FunctionCall && b.ToolBlock?
    ensures Steps(s, k, [BlockStart(s.nextIndex, b)], Begun(s, k, st))
  {
    BegunInv(s, k, st);
    Follow1(ScanOf(s), k, BlockStart(s.nextIndex, b));
  }

  lemma BeginSpokenSteps(s: State, k: int, st: BlockState, b: Block, d: Delta)
    requires Inv(s) && Beginning(s, k, st)
    requires (st.kind == Message && b.TextBlock? && d.TextPart?)
             || (st.kind == Thinking && b.ThinkingBlock? && d.ThinkingPart?)
    requires !IsBlank(d.s)
    ensures Steps(s, k, [BlockStart(s.nextIndex, b), BlockDelta(s.nextIndex, d)], Begun(s, k, st))
  {
    BegunInv(s, k, st);
    Follow2(ScanOf(s), k, BlockStart(s.nextIndex, b), BlockDelta(s.nextIndex, d));
  }

  lemma RegisterInv(s: State, k: int, kind: Kind)
    requires Inv(s) && k !in s.blocks && s.started
    ensures Steps(s, k, [], SetBlock(s, k, BlockState(-1, kind, false, 0, "")))
  {
    SetBlockListed(s, k, BlockState(-1, kind, false, 0, ""));
  }

  lemma RegisterSteps(s0: State, k: int, start: seq<Out>, s: State, kind: Kind)
    requires Steps(s0, k, start, s) && k !in s.blocks && s.started
    ensures Steps(s0, k, start, SetBlock(s, k, BlockState(-1, kind, false, 0, "")))
  {
    hide Follow, Inv, SetBlock, ScanOf;
    RegisterInv(s, k, kind);
    StepsConcat(s0, k, start, s, [], SetBlock(s, k, BlockState(-1, kind, false, 0, "")));
    assert start + [] == start;
  }

  /** A change of a block's state that does not start or stop it. */
  lemma TouchSteps(s: State, k: int, st: BlockState)
    requires Inv(s) && k in s.blocks && BlockOk(s, k, st)
    requires st.isOpen == s.blocks[k].isOpen && st.blockIndex == s.blocks[k].blockIndex && st.kind == s.blocks[k].kind
    ensures Inv(SetBlock(s, k, st)) && ScanOf(SetBlock(s, k, st)) == ScanOf(s)
  {
  }

  lemma StoppedInv(s: State, k: int, st: BlockState)
    requires Inv(s) && k in s.blocks && !st.isOpen && st.kind == s.blocks[k].kind && st.pending == ""
    requires st.argsSent > 0 ==> st.kind == FunctionCall
    ensures Inv(Release(SetBlock(s, k, st), k))
    ensures ScanOf(Release(SetBlock(s, k, st), k)) == ScanOf(s).(open := if s.open == Some(k) then None else OpenOf(s))
  {
    SetBlockListed(s, k, st);
  }

  lemma TurnToToolUse(s: State, k: int, out: seq<Out>, s1: State)
    requires Steps(s, k, out, s1)
    ensures Steps(s, k, out, s1.(hasToolUse := true))
  {
  }

  lemma OnItemAddedSteps(s0: State, k: int, item: Item)
    requires Inv(s0)
    ensures var (s1, out) := OnItemAdded(s0, k, item);
            Steps(s0, k, out, s1)
  {
    hide CloseForOther, Follow, ToolId, ScanOf;
    EnsureStartSteps(s0, k);
    var (s, start) := EnsureStart(s0);
    if k !in s.blocks {
      match item.kind {
        case ReasoningItem => RegisterSteps(s0, k, start, s, Thinking);
        case MessageItem => RegisterSteps(s0, k, start, s, Message);
        case OtherItem =>
        case FunctionCallItem => ToolAddedSteps(s0, k, item);
      }
    }
  }

  lemma ToolAddedSteps(s0: State, k: int, item: Item)
    requires Inv(s0) && k !in s0.blocks && item.kind == FunctionCallItem
    ensures var (s1, out) := OnItemAdded(s0, k, item);
            Steps(s0, k, out, s1)
  {
    hide CloseForOther, Follow, Inv, ToolId;
    EnsureStartSteps(s0, k);
    var (s, start) := EnsureStart(s0);
    CloseForOtherSteps(s, k);
    var (s1, close) := CloseForOther(s, k);
    var st := BlockState(s1.nextIndex, FunctionCall, true, 0, "");
    var b := ToolBlock(ToolId(item, s1.nextIndex), item.name);
    BeginToolSteps(s1, k, st, b);
    StepsConcat(s0, k, start, s, close, s1);
    StepsConcat(s0, k, start + close, s1, [BlockStart(s1.nextIndex, b)], Begun(s1, k, st));
    TurnToToolUse(s0, k, start + close + [BlockStart(s1.nextIndex, b)], Begun(s1, k, st));
  }

  lemma TextStartSteps(s: State, k: int, pending: string)
    requires Inv(s) && k in s.blocks && s.blocks[k].kind == Message && !s.blocks[k].isOpen && !IsBlank(pending)
    ensures var (s1, close) := CloseForOther(s, k);
            var i := s1.nextIndex;
            var begun := s.blocks[k].(pending := "", blockIndex := i, isOpen := true);
            Steps(s, k, close + [BlockStart(i, TextBlock), BlockDelta(i, TextPart(pending))], Begun(s1, k, begun))
  {
    hide CloseForOther, Follow, IsBlank, ScanOf;
    CloseForOtherSteps(s, k);
    var (s1, close) := CloseForOther(s, k);
    var i := s1.nextIndex;
    var begun := s.blocks[k].(pending := "", blockIndex := i, isOpen := true);
    assert s.started;
    BeginSpokenSteps(s1, k, begun, TextBlock, TextPart(pending));
    StepsConcat(s, k, close, s1, [BlockStart(i, TextBlock), BlockDelta(i, TextPart(pending))], Begun(s1, k, begun));
  }

  lemma OnTextDeltaSteps(s: State, k: int, delta: string)
    requires Inv(s)
    ensures var (s1, out) := OnTextDelta(s, k, delta);
            Steps(s, k, out, s1)
  {
    hide CloseForOther, IsBlank, SetBlock, ScanOf;
    NoSteps(s, k);
    if k in s.blocks && s.blocks[k].kind == Message && delta != "" {
      var st := s.blocks[k];
      var pending := st.pending + delta;
      if st.isOpen {
        TextGoesOn(s, k, delta);
      } else if IsBlank(pending) {
        TouchSteps(s, k, st.(pending := pending));
        NoSteps(SetBlock(s, k, st.(pending := pending)), k);
      } else {
        TextStartSteps(s, k, pending);
      }
    }
  }

  lemma TextGoesOn(s: State, k: int, delta: string)
    requires Inv(s) && k in s.blocks && s.blocks[k].kind == Message && s.blocks[k].isOpen && delta != ""
    ensures Steps(s, k, [BlockDelta(s.blocks[k].blockIndex, TextPart(delta))], s)
  {
    assert BlockOk(s, k, s.blocks[k]);
    Follow1(ScanOf(s), k, BlockDelta(s.blocks[k].blockIndex, TextPart(delta)));
    hide Follow;
  }

  lemma OnSummaryDeltaSteps(s: State, k: int, delta: string)
    requires Inv(s)
    ensures var (s1, out) := OnSummaryDelta(s, k, delta);
            Steps(s, k, out, s1)
  {
    hide Steps, Inv, CloseForOther, IsBlank;
    NoSteps(s, k);
    if k in s.blocks && s.blocks[k].kind == Thinking {
      if !s.blocks[k].isOpen {
        SummaryStartSteps(s, k, delta);
      } else if delta != "" {
        SummaryMoreSteps(s, k, delta);
      }
    }
  }

  lemma NoSteps(s: State, k: int)
    requires Inv(s)
    ensures Steps(s, k, [], s)
  {
  }

  lemma SummaryMoreSteps(s: State, k: int, delta: string)
    requires Inv(s) && k in s.blocks && s.blocks[k].kind == Thinking && s.blocks[k].isOpen && delta != ""
    ensures Steps(s, k, [BlockDelta(s.blocks[k].blockIndex, ThinkingPart(delta))], s)
  {
    assert BlockOk(s, k, s.blocks[k]);
    Follow1(ScanOf(s), k, BlockDelta(s.blocks[k].blockIndex, ThinkingPart(delta)));
  }

  /** Thinking that is not shown yet: held back as long as it is blank. */
  lemma SummaryStartSteps(s: State, k: int, delta: string)
    requires Inv(s) && k in s.blocks && s.blocks[k].kind == Thinking && !s.blocks[k].isOpen
    ensures var (s1, close) := CloseForOther(s, k);
            var s2 := s1.(open := Some(k));
            var st := s.blocks[k];
            var pending := st.pending + delta;
            var i := s2.nextIndex;
            if IsBlank(pending) then Steps(s, k, close, SetBlock(s2, k, st.(pending := pending)))
            else Steps(s, k, close + [BlockStart(i, ThinkingBlock), BlockDelta(i, ThinkingPart(pending))],
                       Begun(s2, k, st.(pending := "", blockIndex := i, isOpen := true)))
  {
    hide CloseForOther, Follow, IsBlank;
    CloseForOtherSteps(s, k);
    var (s1, close) := CloseForOther(s, k);
    var s2 := s1.(open := Some(k));
    var st := s.blocks[k];
    var pending := st.pending + delta;
    var i := s2.nextIndex;
    assert s.started && Steps(s, k, close, s2);
    if IsBlank(pending) {
      TouchSteps(s2, k, st.(pending := pending));
    } else {
      var begun := st.(pending := "", blockIndex := i, isOpen := true);
      BeginSpokenSteps(s2, k, begun, ThinkingBlock, ThinkingPart(pending));
      hide Inv, Steps;
      StepsConcat(s, k, close, s2, [BlockStart(i, ThinkingBlock), BlockDelta(i, ThinkingPart(pending))],
                  Begun(s2, k, begun));
    }
  }

  lemma OnArgsDeltaSteps(s: State, k: int, delta: string)
    requires Inv(s)
    ensures var (s1, out) := OnArgsDelta(s, k, delta);
            Steps(s, k, out, s1)
  {
    if k in s.blocks && s.blocks[k].kind == FunctionCall && s.blocks[k].isOpen && delta != "" {
      var st := s.blocks[k];
      Follow1(ScanOf(s), k, BlockDelta(st.blockIndex, JsonPart(delta)));
      TouchSteps(s, k, st.(argsSent := st.argsSent + |delta|));
    }
  }

  /** The last content of the open block of item `k`, if there is any, and its stop. */
  lemma StopSteps(s: State, k: int, d: Option<Delta>)
    requires Inv(s) && k in s.blocks && s.blocks[k].isOpen
    requires d.Some? ==> Fits(OpenOf(s).value, d.value)
    ensures Follow(ScanOf(s), k, (if d.None? then [] else [BlockDelta(s.blocks[k].blockIndex, d.value)])
                                 + [BlockStop(s.blocks[k].blockIndex)])
         == Some(ScanOf(s).(open := None))
  {
    var i := s.blocks[k].blockIndex;
    assert BlockOk(s, k, s.blocks[k]);
    match d {
      case None =>
        assert [] + [BlockStop(i)] == [BlockStop(i)];
        Follow1(ScanOf(s), k, BlockStop(i));
      case Some(delta) =>
        assert [BlockDelta(i, delta)] + [BlockStop(i)] == [BlockDelta(i, delta), BlockStop(i)];
        Follow2(ScanOf(s), k, BlockDelta(i, delta), BlockStop(i));
    }
  }

  lemma RedactedSteps(s: State, k: int, blob: string)
    requires Inv(s) && k in s.blocks && OpenOf(s) == None && (s.open.Some? ==> s.open == Some(k))
    requires s.blocks[k].kind == Thinking
    ensures var i := s.nextIndex;
            Steps(s, k, [BlockStart(i, RedactedBlock(blob)), BlockStop(i)],
                  Release(SetBlock(s, k, s.blocks[k].(blockIndex := i, pending := "")).(nextIndex := i + 1), k))
  {
    hide Follow, Inv;
    var i := s.nextIndex;
    RedactedInv(s, k);
    RedactedFollows(s, k, blob);
  }

  lemma RedactedFollows(s: State, k: int, blob: string)
    requires Inv(s) && k in s.blocks && OpenOf(s) == None
    ensures var i := s.nextIndex;
            Follow(ScanOf(s), k, [BlockStart(i, RedactedBlock(blob)), BlockStop(i)])
            == Some(ScanOf(s).(next := i + 1))
  {
    Follow2(ScanOf(s), k, BlockStart(s.nextIndex, RedactedBlock(blob)), BlockStop(s.nextIndex));
    hide Follow;
  }

  lemma RedactedInv(s: State, k: int)
    requires Inv(s) && k in s.blocks && OpenOf(s) == None && (s.open.Some? ==> s.open == Some(k))
    requires s.blocks[k].kind == Thinking
    ensures var i := s.nextIndex;
            var s1 := Release(SetBlock(s, k, s.blocks[k].(blockIndex := i, pending := "")).(nextIndex := i + 1), k);
            Inv(s1) && ScanOf(s1) == ScanOf(s).(next := i + 1)
  {
    hide Listed;
    assert BlockOk(s, k, s.blocks[k]);
    SetBlockListed(s, k, s.blocks[k].(blockIndex := s.nextIndex, pending := ""));
    RelistedSame(SetBlock(s, k, s.blocks[k].(blockIndex := s.nextIndex, pending := "")), k);
  }

  lemma RelistedSame(s: State, k: int)
    requires Listed(s)
    ensures Listed(Release(s.(nextIndex := s.nextIndex + 1), k))
  {
  }

  lemma OnThinkingDoneSteps(prefix: string, s: State, k: int, item: Item)
    requires Inv(s) && k in s.blocks && s.blocks[k].kind == Thinking
    ensures var (s1, out) := OnThinkingDone(prefix, s, k, item);
            Steps(s, k, out, s1)
  {
    var st := s.blocks[k];
    var blob := ReasoningBlob(prefix, item);
    assert BlockOk(s, k, st);
    if st.isOpen {
      StoppedInv(s, k, st.(isOpen := false, pending := ""));
      StopSteps(s, k, if blob == "" then None else Some(SignaturePart(blob)));
    } else if blob != "" {
      CloseForOtherSteps(s, k);
      var (s1, close) := CloseForOther(s, k);
      hide CloseForOther, Follow, ReasoningBlob;
      RedactedSteps(s1, k, blob);
      StepsConcat(s, k, close, s1, [BlockStart(s1.nextIndex, RedactedBlock(blob)), BlockStop(s1.nextIndex)],
                  OnThinkingDone(prefix, s, k, item).0);
    } else {
      StoppedInv(s, k, st.(pending := ""));
    }
  }

  lemma OnItemDoneSteps(prefix: string, s: State, k: int, item: Item)
    requires Inv(s)
    ensures var (s1, out) := OnItemDone(prefix, s, k, item);
            Steps(s, k, out, s1)
  {
    hide OnThinkingDone, ArgsTail, SetBlock, Release, ScanOf, Follow;
    NoSteps(s, k);
    if k in s.blocks {
      var st := s.blocks[k];
      if st.kind == Thinking {
        OnThinkingDoneSteps(prefix, s, k, item);
      } else if st.isOpen {
        ItemEndSteps(s, k, if st.kind == FunctionCall then ArgsTail(st.argsSent, item.arguments) else "");
      }
    }
  }

  /** The end of an open block, after what is left of its arguments. */
  lemma ItemEndSteps(s: State, k: int, tail: string)
    requires Inv(s) && k in s.blocks && s.blocks[k].isOpen && s.blocks[k].kind != Thinking
    requires tail != "" ==> s.blocks[k].kind == FunctionCall
    ensures var st := s.blocks[k];
            Steps(s, k, (if tail == "" then [] else [BlockDelta(st.blockIndex, JsonPart(tail))])
                        + [BlockStop(st.blockIndex)],
                  Release(SetBlock(s, k, st.(isOpen := false, argsSent := st.argsSent + |tail|)), k))
  {
    hide Follow, SetBlock, Release;
    var st := s.blocks[k];
    assert BlockOk(s, k, st);
    StoppedInv(s, k, st.(isOpen := false, argsSent := st.argsSent + |tail|));
    StopSteps(s, k, if tail == "" then None else Some(JsonPart(tail)));
  }

  /** Processing one event keeps the order. */
  lemma StepOnSteps(prefix: string, s: State, e: Event)
    requires Inv(s)
    ensures var (s1, h) := StepOn(prefix, s, e);
            Goes(s, [h], s1)
  {
    var (s1, h) := StepOn(prefix, s, e);
    var k := KeyOf(s, e);
    match e {
      case Created => EnsureStartSteps(s, k);
      case ItemAdded(_, item) => OnItemAddedSteps(s, k, item);
      case TextDelta(_, delta) => OnTextDeltaSteps(s, k, delta);
      case SummaryDelta(_, delta) => OnSummaryDeltaSteps(s, k, delta);
      case ArgsDelta(_, delta) => OnArgsDeltaSteps(s, k, delta);
      case ItemDone(_, item) => OnItemDoneSteps(prefix, s, k, item);
      case _ =>
    }
    StepGoes(s, h, s1);
  }
}
