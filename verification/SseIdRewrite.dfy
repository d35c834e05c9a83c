/**
 Rewriting the tool-call ids of an event stream, line by line, as its bytes come in. JSON is abstract:
 `toolId` gives the id of the tool call that a JSON text starts, if it starts one, and `withId` the
 text with another id.
 */
module SseIdRewrite {
  import opened Common
  import opened LineTransform
  import opened ThreadIds
  import opened IdRewriter

  const SPACE: Byte := 0x20
  const TAB: Byte := 0x09
  const BRACE: Byte := 0x7b

  /** `data:` */
  const DATA: seq<Byte> := [0x64, 0x61, 0x74, 0x61, 0x3a]

  /** `data: ` */
  const DATA_PREFIX: seq<Byte> := [0x64, 0x61, 0x74, 0x61, 0x3a, 0x20]

  const BYTE_ORDER_MARK: seq<Byte> := [0xef, 0xbb, 0xbf]

  /** `"content_block_start"`, with its quotes. */
  const MARKER: seq<Byte> := [0x22, 0x63, 0x6f, 0x6e, 0x74, 0x65, 0x6e, 0x74, 0x5f, 0x62, 0x6c, 0x6f, 0x63, 0x6b, 0x5f,
                              0x73, 0x74, 0x61, 0x72, 0x74, 0x22]

  const SCAN_WINDOW := 512

  function SkipBlanks(line: seq<Byte>, i: nat, end: nat): (j: nat)
    requires i <= end <= |line|
    ensures i <= j <= end && (j < end ==> line[j] != SPACE && line[j] != TAB)
    ensures forall k :: i <= k < j ==> line[k] == SPACE || line[k] == TAB
    decreases end - i
  {
    if i < end && (line[i] == SPACE || line[i] == TAB) then SkipBlanks(line, i + 1, end) else i
  }

  predicate Contains(b: seq<Byte>, part: seq<Byte>) {
    exists i :: 0 <= i <= |b| - |part| && b[i..][..|part|] == part
  }

  /** The place of the JSON text of a line that may start a block. */
  function Payload(line: seq<Byte>): Option<(nat, nat)> {
    var end := |line| - |Ending(line)|;
    if end <= |DATA_PREFIX| || line[..|DATA|] != DATA then None
    else
      var i := SkipBlanks(line, |DATA|, end);
      var start := if i + 2 < end && line[i..i + 3] == BYTE_ORDER_MARK then i + 3 else i;
      if start >= end || line[start] != BRACE then None
      else if Contains(line[start..Min(end, start + SCAN_WINDOW)], MARKER) then Some((start, end))
      else None
  }

  lemma PayloadInside(line: seq<Byte>)
    ensures Payload(line).Some? ==> Payload(line).value.0 < Payload(line).value.1 <= |line|
  {
  }

  /** The JSON text of a line that may start a block. */
  function TextOf(line: seq<Byte>): Option<seq<Byte>> {
    PayloadInside(line);
    match Payload(line)
    case None => None
    case Some((start, end)) => Some(line[start..end])
  }

  /** The rewriter's ids in use and how many it renamed, and the cache. */
  datatype St = St(used: set<string>, renameCount: nat, cache: Cache)

  datatype Json = Json(toolId: seq<Byte> -> Option<string>, withId: (seq<Byte>, string) -> seq<Byte>)

  function ToolIdOf(json: Json, line: seq<Byte>): Option<string> {
    if TextOf(line).Some? then json.toolId(TextOf(line).value) else None
  }

  function RewriteLine(json: Json, thread: string, s: St, line: seq<Byte>): (St, seq<Byte>) {
    match ToolIdOf(json, line)
    case None => (s, line)
    case Some(id) =>
      var r := Resolved(id, Taken(s.used, s.cache, thread));
      (St(s.used + {r}, s.renameCount + (if r == id then 0 else 1),
          if thread == "" then s.cache else AddId(s.cache, thread, r)),
       if r == id then line else DATA_PREFIX + json.withId(TextOf(line).value, r) + Ending(line))
  }

  function Rewriting(json: Json, thread: string): Rewrite<St> {
    (s: St, line: seq<Byte>) => RewriteLine(json, thread, s, line)
  }

  // What a line says after it was rewritten

  /** The bytes of a text of ASCII characters. */
  function Ascii(s: string): seq<Byte> {
    seq(|s|, i requires 0 <= i < |s| => s[i] as int % 256)
  }

  lemma Texts()
    ensures DATA == Ascii("data:") && DATA_PREFIX == Ascii("data: ") && MARKER == Ascii("\"content_block_start\"")
  {
  }

  /** A text that may start a block: an object that says so early on. */
  predicate MayStartBlock(text: seq<Byte>) {
    && text != [] && text[0] == 0x7b
    && Contains(text[..Min(|text|, 512)], Ascii("\"content_block_start\""))
  }

  /** Such a text on one line. */
  predicate Visible(text: seq<Byte>) {
    MayStartBlock(text) && NEWLINE !in text && text[|text| - 1] != RETURN
  }

  lemma EndingOf(body: seq<Byte>, e: seq<Byte>)
    requires e in {[], [NEWLINE], [RETURN, NEWLINE]}
    requires body != [] ==> body[|body| - 1] != NEWLINE && body[|body| - 1] != RETURN
    ensures Ending(body + e) == e
  {
    var line := body + e;
    if e == [] {
      assert line == body;
    } else if e == [NEWLINE] {
      assert line[|line| - 1] == NEWLINE && (body != [] ==> line[|line| - 2] == body[|body| - 1]);
    } else {
      assert line[|line| - 1] == NEWLINE && line[|line| - 2] == RETURN;
    }
  }

  predicate AllBlank(b: seq<Byte>) {
    forall i :: 0 <= i < |b| ==> b[i] == SPACE || b[i] == TAB
  }

  /** The line is `data:`, blanks, possibly a byte order mark, the text, and the line's ending. */
  ghost predicate Shows(line: seq<Byte>, text: seq<Byte>) {
    exists blanks, mark ::
      && AllBlank(blanks) && mark in {[], [0xef, 0xbb, 0xbf]}
      && line == Ascii("data:") + blanks + mark + text + Ending(line)
  }

  lemma SkipsBlanks(line: seq<Byte>, i: nat, end: nat)
    requires i <= end <= |line|
    ensures AllBlank(line[i..SkipBlanks(line, i, end)])
  {
    hide SkipBlanks;
  }

  /** Where the parts of a line are. */
  lemma PayloadParts(line: seq<Byte>) returns (i: nat)
    requires Payload(line).Some?
    ensures var (start, end) := Payload(line).value;
            && |DATA| <= i <= start < end == |line| - |Ending(line)|
            && line[..|DATA|] == DATA && AllBlank(line[|DATA|..i]) && line[i..start] in {[], BYTE_ORDER_MARK}
            && line[start] == BRACE && Contains(line[start..Min(end, start + SCAN_WINDOW)], MARKER)
  {
    hide Contains, Ending, SkipBlanks, AllBlank;
    var end := |line| - |Ending(line)|;
    i := SkipBlanks(line, |DATA|, end);
    SkipsBlanks(line, |DATA|, end);
    assert line[i..i] == [];
  }

  lemma Assembled(line: seq<Byte>, i: nat, start: nat, end: nat)
    requires 5 <= i <= start <= end <= |line|
    ensures line == line[..5] + line[5..i] + line[i..start] + line[start..end] + line[end..]
  {
  }

  /** What is read of a line is shown by it, and may start a block. */
  lemma ReadIsShown(line: seq<Byte>)
    requires TextOf(line).Some?
    ensures Shows(line, TextOf(line).value) && MayStartBlock(TextOf(line).value)
  {
    hide Contains, Ending, Payload, AllBlank, Ascii;
    Texts();
    var i := PayloadParts(line);
    var (start, end) := Payload(line).value;
    var text := line[start..end];
    Assembled(line, i, start, end);
    assert line == DATA + line[|DATA|..i] + line[i..start] + text + Ending(line);
    assert text[..Min(|text|, SCAN_WINDOW)] == line[start..Min(end, start + SCAN_WINDOW)];
  }

  lemma {:induction false} SkippedBlanks(line: seq<Byte>, i: nat, n: nat, end: nat)
    requires i <= n < end <= |line| && AllBlank(line[i..n]) && line[n] != SPACE && line[n] != TAB
    ensures SkipBlanks(line, i, end) == n
    decreases n - i
  {
    if i < n {
      assert line[i..n][0] == line[i] && line[i + 1..n] == line[i..n][1..];
      SkippedBlanks(line, i + 1, n, end);
    }
  }

  lemma TakenApart(a: seq<Byte>, b: seq<Byte>, c: seq<Byte>, d: seq<Byte>, e: seq<Byte>)
    ensures var line := a + b + c + d + e;
            var i, j, k := |a| + |b|, |a| + |b| + |c|, |a| + |b| + |c| + |d|;
            && |line| == k + |e|
            && line[..|a|] == a && line[|a|..i] == b && line[i..j] == c && line[j..k] == d
  {
  }

  /** The text of a line is where it is looked for. */
  lemma FoundAt(line: seq<Byte>, i: nat, start: nat, end: nat)
    requires |DATA| <= i <= start < end == |line| - |Ending(line)| && end > |DATA_PREFIX|
    requires line[..|DATA|] == DATA && AllBlank(line[|DATA|..i]) && line[i] != SPACE && line[i] != TAB
    requires line[i..start] == BYTE_ORDER_MARK || (start == i && line[i] == BRACE)
    requires line[start] == BRACE && Contains(line[start..Min(end, start + SCAN_WINDOW)], MARKER)
    ensures Payload(line) == Some((start, end))
  {
    hide Contains, Ending, SkipBlanks, AllBlank;
    SkippedBlanks(line, |DATA|, i, end);
    if start == i && i + 2 < end {
      assert line[i..i + 3][0] == BRACE;
    }
  }

  /** And every line that shows such a text is read. */
  lemma ShownIsRead(line: seq<Byte>, blanks: seq<Byte>, mark: seq<Byte>, text: seq<Byte>)
    requires AllBlank(blanks) && mark in {[], BYTE_ORDER_MARK} && line == DATA + blanks + mark + text + Ending(line)
    requires MayStartBlock(text)
    ensures TextOf(line) == Some(text)
  {
    hide Ending, Contains, Payload, AllBlank, Ascii;
    Texts();
    var e := Ending(line);
    var i := |DATA| + |blanks|;
    var start := i + |mark|;
    var end := start + |text|;
    MarkerFits(text);
    TakenApart(DATA, blanks, mark, text, e);
    assert line[start..end] == text && line[start] == text[0];
    assert mark != [] ==> line[i] == line[i..start][0];
    assert line[start..Min(end, start + SCAN_WINDOW)] == text[..Min(|text|, SCAN_WINDOW)];
    FoundAt(line, i, start, end);
  }

  lemma MarkerFits(text: seq<Byte>)
    requires MayStartBlock(text)
    ensures |text| >= |MARKER|
  {
  }

  lemma EndsAsText(text: seq<Byte>)
    requires Visible(text)
    ensures MayStartBlock(text)
    ensures var body := DATA_PREFIX + text; body[|body| - 1] != NEWLINE && body[|body| - 1] != RETURN
  {
    hide Contains, Ascii;
    var body := DATA_PREFIX + text;
    assert body[|body| - 1] == text[|text| - 1] && text[|text| - 1] in text;
  }

  lemma BlankLine()
    ensures AllBlank([SPACE]) && DATA_PREFIX == DATA + [SPACE] + []
  {
  }

  /** A data line with a visible JSON text is recognized, and its text is that text. */
  lemma DataLineIsRead(text: seq<Byte>, e: seq<Byte>)
    requires Visible(text) && e in {[], [NEWLINE], [RETURN, NEWLINE]}
    ensures TextOf(DATA_PREFIX + text + e) == Some(text)
  {
    hide *;
    EndsAsText(text);
    EndingOf(DATA_PREFIX + text, e);
    BlankLine();
    ShownIsRead(DATA_PREFIX + text + e, [SPACE], [], text);
  }

  /** A line is read exactly if it shows a text that may start a block. */
  lemma ReadsExactly(line: seq<Byte>, text: seq<Byte>)
    ensures TextOf(line) == Some(text) <==> Shows(line, text) && MayStartBlock(text)
  {
    hide TextOf, MayStartBlock, Ending, Ascii;
    Texts();
    if TextOf(line) == Some(text) {
      ReadIsShown(line);
    }
    if Shows(line, text) && MayStartBlock(text) {
      var blanks, mark :| AllBlank(blanks) && mark in {[], [0xef, 0xbb, 0xbf]}
                          && line == Ascii("data:") + blanks + mark + text + Ending(line);
      ShownIsRead(line, blanks, mark, text);
    }
  }

  lemma EndingKinds(line: seq<Byte>)
    ensures Ending(line) in {[], [NEWLINE], [RETURN, NEWLINE]}
  {
  }

  /**
   Whoever reads the line that is passed on finds in it an id that was not taken, provided that the
   JSON library writes what it reads and the text it writes is visible.
   */
  lemma LineCarriesNewId(json: Json, thread: string, s: St, line: seq<Byte>)
    requires ToolIdOf(json, line).Some?
    requires var r := Resolved(ToolIdOf(json, line).value, Taken(s.used, s.cache, thread));
             var text := json.withId(TextOf(line).value, r);
             Visible(text) && json.toolId(text) == Some(r)
    ensures var (s1, line1) := RewriteLine(json, thread, s, line);
            && ToolIdOf(json, line1).Some?
            && ToolIdOf(json, line1).value !in Taken(s.used, s.cache, thread)
            && ToolIdOf(json, line1).value in s1.used
  {
    var id := ToolIdOf(json, line).value;
    var r := Resolved(id, Taken(s.used, s.cache, thread));
    ResolvedIsNew(id, Taken(s.used, s.cache, thread));
    if r != id {
      EndingKinds(line);
      DataLineIsRead(json.withId(TextOf(line).value, r), Ending(line));
    }
    hide Resolved, Payload, Ending, Taken;
  }

  // Line endings

  /** The JSON library writes one line. */
  ghost predicate WritesOneLine(json: Json) {
    forall text, id :: NEWLINE !in json.withId(text, id) && !EndsInReturn(json.withId(text, id))
  }

  predicate EndsInReturn(b: seq<Byte>) {
    b != [] && b[|b| - 1] == RETURN
  }

  lemma RewrittenLine(text: seq<Byte>, e: seq<Byte>)
    requires NEWLINE !in text && !EndsInReturn(text) && e in {[], [NEWLINE], [RETURN, NEWLINE]}
    ensures var line := DATA_PREFIX + text + e;
            IsLine(line) && Ending(line) == e
  {
    var body := DATA_PREFIX + text;
    assert body[|body| - 1] == if text == [] then SPACE else text[|text| - 1];
    EndingOf(body, e);
    var line := body + e;
    forall k | 0 <= k < |line| - 1
      ensures line[k] != NEWLINE
    {
      assert line[k] == if k < 6 then DATA_PREFIX[k] else if k < |body| then text[k - 6] else RETURN;
    }
  }

  /** A line that is rewritten is one line again, and ends as it ended. */
  lemma RewritingKeepsLines(json: Json, thread: string)
    requires WritesOneLine(json)
    ensures KeepsLines(Rewriting(json, thread))
  {
    hide IsLine, Ending, TextOf, Resolved, Taken;
    forall s: St, line | IsLine(line)
      ensures IsLine(Rewriting(json, thread)(s, line).1)
      ensures Ending(Rewriting(json, thread)(s, line).1) == Ending(line)
    {
      if ToolIdOf(json, line).Some? {
        var r := Resolved(ToolIdOf(json, line).value, Taken(s.used, s.cache, thread));
        EndingKinds(line);
        RewrittenLine(json.withId(TextOf(line).value, r), Ending(line));
      }
    }
  }

  /**
   However the stream is cut, if its lines fit, its output has as many lines, each of which ends as
   the line that it stands for: no event runs into another.
   */
  lemma EndingsAreKept(json: Json, thread: string, s: St, chunks: seq<seq<Byte>>)
    requires WritesOneLine(json) && LinesFit(Join(chunks))
    ensures var before, after := LinesOf(Join(chunks)), LinesOf(Streamed(Rewriting(json, thread), s, chunks).1);
            |after| == |before| && forall k :: 0 <= k < |after| ==> Ending(after[k]) == Ending(before[k])
  {
    hide KeepsLines, LinesFit, Ending, LinesOf, Streamed, Join;
    RewritingKeepsLines(json, thread);
    LinesKeepEndings(Rewriting(json, thread), s, chunks);
  }

  // Streams in which no id is renamed

  /** A line whose id is free, or that has none, stays as it is, and only a line whose id is taken is counted. */
  lemma RenamesIffTaken(json: Json, thread: string, s: St, line: seq<Byte>)
    ensures var (s1, line1) := RewriteLine(json, thread, s, line);
            var taken := ToolIdOf(json, line).Some? && ToolIdOf(json, line).value in Taken(s.used, s.cache, thread);
            && s1.renameCount == s.renameCount + (if taken then 1 else 0)
            && (!taken ==> line1 == line)
  {
    hide TextOf, Taken;
  }

  function Renames(): St -> nat {
    (s: St) => s.renameCount
  }

  /**
   With or without lines over the limit, and however it is cut: a stream over which the rewriter
   renames no id comes out byte for byte.
   */
  lemma UnrenamedStream(json: Json, thread: string, s: St, chunks: seq<seq<Byte>>)
    requires Streamed(Rewriting(json, thread), s, chunks).0.renameCount == s.renameCount
    ensures Streamed(Rewriting(json, thread), s, chunks).1 == Join(chunks)
  {
    hide RewriteLine, Streamed, Join;
    forall t, line
      ensures Renames()(t) <= Renames()(Rewriting(json, thread)(t, line).0)
      ensures Renames()(Rewriting(json, thread)(t, line).0) == Renames()(t) ==>
                Rewriting(json, thread)(t, line).1 == line
    {
      RenamesIffTaken(json, thread, t, line);
    }
    UncountedStream(Rewriting(json, thread), Renames(), s, chunks);
  }

  // The transform

  class ToolUseIdRewriteTransform {
    var pending: seq<Byte>
    const rewriter: ToolUseIdDedupeRewriter
    const json: Json

    constructor (rewriter: ToolUseIdDedupeRewriter, json: Json)
      ensures this.rewriter == rewriter && this.json == json && pending == []
    {
      this.rewriter, this.json, pending := rewriter, json, [];
    }

    ghost function State(): St
      reads rewriter, rewriter.cache
    {
      St(rewriter.usedIds, rewriter.renameCount, rewriter.cache.entries)
    }

    method RewriteSseLine(line: seq<Byte>) returns (out: seq<Byte>)
      modifies rewriter, rewriter.cache
      ensures (State(), out) == RewriteLine(json, rewriter.thread, old(State()), line)
    {
      var text := TextOf(line);
      if text.None? {
        return line;
      }
      var id := json.toolId(text.value);
      if id.None? {
        return line;
      }
      var r := rewriter.Resolve(id.value);
      if r == id.value {
        return line;
      }
      return DATA_PREFIX + json.withId(text.value, r) + Ending(line);
    }

    method Transform(chunk: seq<Byte>) returns (out: seq<Byte>)
      modifies this, rewriter, rewriter.cache
      ensures (State(), pending, out)
           == OnChunk(Rewriting(json, rewriter.thread), old(State()), old(pending), chunk)
    {
      hide Lines, NewlineAt, RewriteLine;
      var buf := pending + chunk;
      ghost var rewrite := Rewriting(json, rewriter.thread);
      var start := 0;
      out := [];
      assert buf[0..] == buf;
      var nl := FindNewline(buf, start);
      ghost var all := Lines(rewrite, State(), buf);
      assert [] + all.2 == all.2;
      while nl < |buf|
        invariant start <= nl <= |buf| && nl == start + NewlineAt(buf[start..])
        invariant var (s, rest, more) := Lines(rewrite, State(), buf[start..]); (s, rest, out + more) == all
        decreases |buf| - start
      {
        ghost var before := out;
        LinesStep(rewrite, State(), buf[start..]);
        assert buf[start..][..nl - start + 1] == buf[start..nl + 1] && buf[start..][nl - start + 1..] == buf[nl + 1..];
        var line := RewriteSseLine(buf[start..nl + 1]);
        out := out + line;
        ConcatAssoc(before, line, Lines(rewrite, State(), buf[nl + 1..]).2);
        start := nl + 1;
        nl := FindNewline(buf, start);
      }
      var rest := buf[start..];
      LinesEnd(rewrite, State(), rest);
      assert out + [] == out;
      if |rest| > MAX_PENDING_LINE_BYTES {
        out := out + rest;
        pending := [];
      } else {
        pending := rest;
      }
    }

    method Flush() returns (out: seq<Byte>)
      modifies this, rewriter, rewriter.cache
      ensures (State(), out) == OnFlush(Rewriting(json, rewriter.thread), old(State()), old(pending)) && pending == []
    {
      out := [];
      if |pending| > 0 {
        out := RewriteSseLine(pending);
        pending := [];
      }
    }
  }

  method FindNewline(buf: seq<Byte>, start: nat) returns (i: nat)
    requires start <= |buf|
    ensures i == start + NewlineAt(buf[start..])
  {
    i := start;
    while i < |buf| && buf[i] != NEWLINE
      invariant start <= i <= |buf|
      invariant start + NewlineAt(buf[start..]) == i + NewlineAt(buf[i..])
    {
      assert buf[i..][1..] == buf[i + 1..];
      i := i + 1;
    }
  }
}
