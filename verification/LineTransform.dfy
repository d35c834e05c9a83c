/**
 Rewriting a byte stream line by line: how the stream is cut into chunks does not matter. `rewrite`
 turns a line, with or without its newline, into another, and may change a state of type S.
 */
module LineTransform {
  import opened Common

  type Byte = x: int | 0 <= x < 256

  const NEWLINE: Byte := 10
  const RETURN: Byte := 13
  const MAX_PENDING_LINE_BYTES := 4 * 1024 * 1024

  /** The position of the first newline; |b| if there is none. */
  function NewlineAt(b: seq<Byte>): (i: nat)
    ensures i <= |b| && (i < |b| ==> b[i] == NEWLINE) && NEWLINE !in b[..i]
  {
    if b == [] || b[0] == NEWLINE then 0
    else
      var i := NewlineAt(b[1..]);
      assert b[..i + 1] == [b[0]] + b[1..][..i];
      i + 1
  }

  type Rewrite<!S> = (S, seq<Byte>) -> (S, seq<Byte>)

  /** What is left of `b` behind its last newline, and the rewriting of the lines before. */
  function Lines<S>(rewrite: Rewrite<S>, s: S, b: seq<Byte>): (r: (S, seq<Byte>, seq<Byte>))
    ensures NEWLINE !in r.1 && |r.1| <= |b|
    decreases |b|
  {
    var i := NewlineAt(b);
    if i == |b| then
      assert b[..i] == b;
      (s, b, [])
    else
      var (s1, out) := rewrite(s, b[..i + 1]);
      var (s2, rest, more) := Lines(rewrite, s1, b[i + 1..]);
      (s2, rest, out + more)
  }

  lemma LinesStep<S>(rewrite: Rewrite<S>, s: S, b: seq<Byte>)
    requires NewlineAt(b) < |b|
    ensures var i := NewlineAt(b);
            var (s1, out) := rewrite(s, b[..i + 1]);
            var (s2, rest, more) := Lines(rewrite, s1, b[i + 1..]);
            Lines(rewrite, s, b) == (s2, rest, out + more)
  {
    hide NewlineAt;
  }

  lemma LinesEnd<S>(rewrite: Rewrite<S>, s: S, b: seq<Byte>)
    requires NewlineAt(b) == |b|
    ensures Lines(rewrite, s, b) == (s, b, [])
  {
    hide NewlineAt;
  }

  /** The rewriting of a whole stream. */
  function Whole<S>(rewrite: Rewrite<S>, s: S, b: seq<Byte>): (S, seq<Byte>) {
    var (s1, rest, out) := Lines(rewrite, s, b);
    if rest == [] then (s1, out)
    else
      var (s2, last) := rewrite(s1, rest);
      (s2, out + last)
  }

  // The transform

  /** One chunk: the new state, the new pending bytes, and the output. A line that grows too long is let through. */
  function OnChunk<S>(rewrite: Rewrite<S>, s: S, pending: seq<Byte>, chunk: seq<Byte>): (S, seq<Byte>, seq<Byte>) {
    var (s1, rest, out) := Lines(rewrite, s, pending + chunk);
    if |rest| > MAX_PENDING_LINE_BYTES then (s1, [], out + rest) else (s1, rest, out)
  }

  function OnFlush<S>(rewrite: Rewrite<S>, s: S, pending: seq<Byte>): (S, seq<Byte>) {
    if pending == [] then (s, []) else rewrite(s, pending)
  }

  function Chunks<S>(rewrite: Rewrite<S>, s: S, chunks: seq<seq<Byte>>): (S, seq<Byte>, seq<Byte>) {
    if chunks == [] then (s, [], [])
    else
      var (s1, pending, out) := Chunks(rewrite, s, chunks[..|chunks| - 1]);
      var (s2, rest, more) := OnChunk(rewrite, s1, pending, chunks[|chunks| - 1]);
      (s2, rest, out + more)
  }

  /** All chunks and the end of the stream. */
  function Streamed<S>(rewrite: Rewrite<S>, s: S, chunks: seq<seq<Byte>>): (S, seq<Byte>) {
    var (s1, pending, out) := Chunks(rewrite, s, chunks);
    var (s2, last) := OnFlush(rewrite, s1, pending);
    (s2, out + last)
  }

  function Join(chunks: seq<seq<Byte>>): seq<Byte> {
    if chunks == [] then [] else Join(chunks[..|chunks| - 1]) + chunks[|chunks| - 1]
  }

  // Cutting a stream in two

  lemma NewlineInFirst(a: seq<Byte>, b: seq<Byte>)
    requires NewlineAt(a) < |a|
    ensures NewlineAt(a + b) == NewlineAt(a)
  {
    FirstNewline(a + b, NewlineAt(a));
    assert (a + b)[..NewlineAt(a)] == a[..NewlineAt(a)];
  }

  lemma FirstNewline(b: seq<Byte>, i: nat)
    requires i < |b| && b[i] == NEWLINE && NEWLINE !in b[..i]
    ensures NewlineAt(b) == i
  {
    var j := NewlineAt(b);
    assert j < |b| ==> b[j] == NEWLINE;
  }

  /** Rewriting in two parts: what the first part left over is put before the second. */
  lemma {:induction false} LinesSplit<S>(rewrite: Rewrite<S>, s: S, a: seq<Byte>, b: seq<Byte>)
    ensures var (s1, rest, out) := Lines(rewrite, s, a);
            var (s2, last, more) := Lines(rewrite, s1, rest + b);
            Lines(rewrite, s, a + b) == (s2, last, out + more)
    decreases |a|
  {
    var i := NewlineAt(a);
    if i == |a| {
      var more := Lines(rewrite, s, a + b).2;
      assert [] + more == more;
    } else {
      NewlineInFirst(a, b);
      assert (a + b)[..i + 1] == a[..i + 1] && (a + b)[i + 1..] == a[i + 1..] + b;
      var (s1, out) := rewrite(s, a[..i + 1]);
      LinesSplit(rewrite, s1, a[i + 1..], b);
      var (s2, rest, outs) := Lines(rewrite, s1, a[i + 1..]);
      ConcatAssoc(out, outs, Lines(rewrite, s2, rest + b).2);
    }
  }

  // Chunks

  /** No line is longer than the limit: not before its newline, nor the last one, which has none. */
  ghost predicate LinesFit(b: seq<Byte>) {
    forall i, j :: 0 <= i <= j <= |b| && NEWLINE !in b[i..j] ==> j - i <= 4194304
  }

  /** What is left over is the end of what was read. */
  lemma {:induction false} RestIsSuffix<S>(rewrite: Rewrite<S>, s: S, b: seq<Byte>)
    ensures var rest := Lines(rewrite, s, b).1;
            b[|b| - |rest|..] == rest
    decreases |b|
  {
    hide Lines, NewlineAt;
    var i := NewlineAt(b);
    if i < |b| {
      LinesStep(rewrite, s, b);
      var s1 := rewrite(s, b[..i + 1]).0;
      RestIsSuffix(rewrite, s1, b[i + 1..]);
      var n := |Lines(rewrite, s1, b[i + 1..]).1|;
      assert b[|b| - n..] == b[i + 1..][|b| - (i + 1) - n..];
    } else {
      LinesEnd(rewrite, s, b);
    }
  }

  lemma FitPrefix(a: seq<Byte>, b: seq<Byte>)
    requires LinesFit(a + b)
    ensures LinesFit(a)
  {
    forall i, j | 0 <= i <= j <= |a| && NEWLINE !in a[i..j]
      ensures j - i <= MAX_PENDING_LINE_BYTES
    {
      assert (a + b)[i..j] == a[i..j];
    }
  }

  lemma RestFits<S>(rewrite: Rewrite<S>, s: S, b: seq<Byte>)
    requires LinesFit(b)
    ensures |Lines(rewrite, s, b).1| <= MAX_PENDING_LINE_BYTES
  {
    RestIsSuffix(rewrite, s, b);
    var rest := Lines(rewrite, s, b).1;
    assert b[|b| - |rest|..|b|] == rest;
  }

  /** As long as every line fits, the chunks so far have been rewritten as if they had come at once. */
  lemma {:induction false} ChunksAreLines<S>(rewrite: Rewrite<S>, s: S, chunks: seq<seq<Byte>>)
    requires LinesFit(Join(chunks))
    ensures Chunks(rewrite, s, chunks) == Lines(rewrite, s, Join(chunks))
    decreases |chunks|
  {
    if chunks != [] {
      var init, last := chunks[..|chunks| - 1], chunks[|chunks| - 1];
      FitPrefix(Join(init), last);
      RestFits(rewrite, s, Join(init) + last);
      hide LinesFit;
      ChunksAreLines(rewrite, s, init);
      LinesSplit(rewrite, s, Join(init), last);
      hide Lines;
    }
  }

  /** However the stream is cut into chunks: if every line fits, the output is the rewriting of the whole stream. */
  lemma ChunksDoNotMatter<S>(rewrite: Rewrite<S>, s: S, chunks: seq<seq<Byte>>)
    requires LinesFit(Join(chunks))
    ensures Streamed(rewrite, s, chunks) == Whole(rewrite, s, Join(chunks))
  {
    ChunksAreLines(rewrite, s, chunks);
    var out := Lines(rewrite, s, Join(chunks)).2;
    assert out + [] == out;
  }

  // Lines and their endings

  /** The newline that ends a line, with the carriage return before it. */
  function Ending(line: seq<Byte>): (e: seq<Byte>)
    ensures |e| <= |line| && line[|line| - |e|..] == e
  {
    var n := |line|;
    if n == 0 || line[n - 1] != NEWLINE then []
    else if n >= 2 && line[n - 2] == RETURN then
      assert line[n - 2..] == [line[n - 2], line[n - 1]];
      [RETURN, NEWLINE]
    else
      assert line[n - 1..] == [line[n - 1]];
      [NEWLINE]
  }

  /** One line, with or without its newline. */
  predicate IsLine(b: seq<Byte>) {
    b != [] && NEWLINE !in b[..|b| - 1]
  }

  /** The lines of a stream. */
  function LinesOf(b: seq<Byte>): seq<seq<Byte>>
    decreases |b|
  {
    if b == [] then []
    else
      var i := NewlineAt(b);
      if i == |b| then [b] else [b[..i + 1]] + LinesOf(b[i + 1..])
  }

  /** One line after the other, rewritten. */
  function RewriteAll<S>(rewrite: Rewrite<S>, s: S, lines: seq<seq<Byte>>): seq<seq<Byte>> {
    if lines == [] then []
    else
      var (s1, out) := rewrite(s, lines[0]);
      [out] + RewriteAll(rewrite, s1, lines[1..])
  }

  /** A line is rewritten to one line that ends the same way. */
  ghost predicate KeepsLines<S(!new)>(rewrite: Rewrite<S>) {
    forall s, line :: IsLine(line) ==> IsLine(rewrite(s, line).1) && Ending(rewrite(s, line).1) == Ending(line)
  }

  lemma FirstLine(line: seq<Byte>, rest: seq<Byte>)
    requires IsLine(line) && Ending(line) != []
    ensures LinesOf(line + rest) == [line] + LinesOf(rest)
  {
    var i := |line| - 1;
    var all := line + rest;
    assert all[..i] == line[..i] && all[i] == line[i];
    FirstNewline(all, i);
    assert all[..i + 1] == line && all[i + 1..] == rest;
  }

  lemma LastLine(line: seq<Byte>)
    requires IsLine(line) && Ending(line) == []
    ensures LinesOf(line) == [line]
  {
    var n := |line| - 1;
    assert line == line[..n] + [line[n]] && NEWLINE !in line;
    NoNewline(line);
  }

  lemma {:induction false} NoNewline(b: seq<Byte>)
    requires NEWLINE !in b
    ensures NewlineAt(b) == |b|
    decreases |b|
  {
    if b != [] {
      NoNewline(b[1..]);
    }
  }

  lemma EndedLine(b: seq<Byte>, i: nat)
    requires i < |b| && b[i] == NEWLINE && NEWLINE !in b[..i]
    ensures IsLine(b[..i + 1]) && Ending(b[..i + 1]) != []
  {
    var line := b[..i + 1];
    assert line[..i] == b[..i] && line[i] == NEWLINE;
  }

  lemma OpenLine(b: seq<Byte>)
    requires b != [] && NEWLINE !in b
    ensures IsLine(b) && Ending(b) == []
  {
    var n := |b| - 1;
    assert b == b[..n] + [b[n]];
    assert b[n] in b;
  }

  lemma CutIsLine(b: seq<Byte>)
    requires b != []
    ensures var i := NewlineAt(b);
            if i < |b| then IsLine(b[..i + 1]) && Ending(b[..i + 1]) != [] else IsLine(b) && Ending(b) == []
  {
    hide NewlineAt, Ending, IsLine;
    var i := NewlineAt(b);
    if i < |b| {
      EndedLine(b, i);
    } else {
      assert b[..i] == b;
      OpenLine(b);
    }
  }

  lemma WholeStep<S>(rewrite: Rewrite<S>, s: S, b: seq<Byte>)
    requires NewlineAt(b) < |b|
    ensures var i := NewlineAt(b);
            var (s1, out) := rewrite(s, b[..i + 1]);
            Whole(rewrite, s, b).1 == out + Whole(rewrite, s1, b[i + 1..]).1
  {
    hide NewlineAt, Lines;
    LinesStep(rewrite, s, b);
    var i := NewlineAt(b);
    var (s1, out) := rewrite(s, b[..i + 1]);
    var (s2, rest, more) := Lines(rewrite, s1, b[i + 1..]);
    if rest != [] {
      ConcatAssoc(out, more, rewrite(s2, rest).1);
    }
  }

  lemma WholeEnd<S>(rewrite: Rewrite<S>, s: S, b: seq<Byte>)
    requires NewlineAt(b) == |b|
    ensures Whole(rewrite, s, b).1 == if b == [] then [] else rewrite(s, b).1
  {
    hide NewlineAt, Lines;
    LinesEnd(rewrite, s, b);
    if b != [] {
      assert [] + rewrite(s, b).1 == rewrite(s, b).1;
    }
  }

  lemma {:induction false} LinesOfStep(b: seq<Byte>)
    ensures LinesOf([]) == []
    ensures b != [] ==>
              LinesOf(b)
              == if NewlineAt(b) == |b| then [b] else [b[..NewlineAt(b) + 1]] + LinesOf(b[NewlineAt(b) + 1..])
  {
    hide NewlineAt;
  }

  lemma RewriteFirst<S>(rewrite: Rewrite<S>, s: S, line: seq<Byte>, rest: seq<seq<Byte>>)
    ensures RewriteAll(rewrite, s, []) == []
    ensures RewriteAll(rewrite, s, [line] + rest)
         == [rewrite(s, line).1] + RewriteAll(rewrite, rewrite(s, line).0, rest)
  {
    assert ([line] + rest)[1..] == rest;
  }

  /** A rewriting that keeps lines rewrites the lines of a stream one by one. */
  lemma {:induction false} LineByLine<S(!new)>(rewrite: Rewrite<S>, s: S, b: seq<Byte>)
    requires KeepsLines(rewrite)
    ensures LinesOf(Whole(rewrite, s, b).1) == RewriteAll(rewrite, s, LinesOf(b))
    decreases |b|
  {
    hide LinesOf, RewriteAll, Whole, NewlineAt, IsLine, Ending;
    LinesOfStep(b);
    var i := NewlineAt(b);
    if b == [] {
      WholeEnd(rewrite, s, b);
      RewriteFirst(rewrite, s, [], []);
    } else if i == |b| {
      CutIsLine(b);
      WholeEnd(rewrite, s, b);
      LastLine(rewrite(s, b).1);
      RewriteFirst(rewrite, s, b, []);
      RewriteFirst(rewrite, rewrite(s, b).0, b, []);
      assert [b] + [] == [b];
    } else {
      CutIsLine(b);
      WholeStep(rewrite, s, b);
      var (s1, out) := rewrite(s, b[..i + 1]);
      LineByLine(rewrite, s1, b[i + 1..]);
      FirstLine(out, Whole(rewrite, s1, b[i + 1..]).1);
      RewriteFirst(rewrite, s, b[..i + 1], LinesOf(b[i + 1..]));
    }
  }

  /** Lines that are rewritten one by one end as before. */
  ghost predicate SameEndings(before: seq<seq<Byte>>, after: seq<seq<Byte>>) {
    |after| == |before| && forall k :: 0 <= k < |after| ==> Ending(after[k]) == Ending(before[k])
  }

  lemma {:induction false} RewriteKeepsEndings<S(!new)>(rewrite: Rewrite<S>, s: S, lines: seq<seq<Byte>>)
    requires KeepsLines(rewrite) && forall k :: 0 <= k < |lines| ==> IsLine(lines[k])
    ensures SameEndings(lines, RewriteAll(rewrite, s, lines))
    decreases |lines|
  {
    hide Ending, IsLine;
    if lines != [] {
      RewriteKeepsEndings(rewrite, rewrite(s, lines[0]).0, lines[1..]);
    }
  }

  lemma {:induction false} LinesAreLines(b: seq<Byte>)
    ensures forall k :: 0 <= k < |LinesOf(b)| ==> IsLine(LinesOf(b)[k])
    decreases |b|
  {
    hide IsLine, Ending, NewlineAt;
    if b != [] {
      CutIsLine(b);
      if NewlineAt(b) < |b| {
        LinesAreLines(b[NewlineAt(b) + 1..]);
      }
    }
  }

  /** If every line fits, the output has as many lines as the input, and they end the same way. */
  lemma LinesKeepEndings<S(!new)>(rewrite: Rewrite<S>, s: S, chunks: seq<seq<Byte>>)
    requires KeepsLines(rewrite) && LinesFit(Join(chunks))
    ensures SameEndings(LinesOf(Join(chunks)), LinesOf(Streamed(rewrite, s, chunks).1))
  {
    hide KeepsLines, LinesFit, SameEndings, LinesOf, Whole, Streamed, Join;
    ChunksDoNotMatter(rewrite, s, chunks);
    LineByLine(rewrite, s, Join(chunks));
    LinesAreLines(Join(chunks));
    RewriteKeepsEndings(rewrite, s, LinesOf(Join(chunks)));
  }

  // Streams in which nothing is rewritten

  /** The lines that are rewritten all stay as they are. */
  ghost predicate StaysLines<S>(rewrite: Rewrite<S>, s: S, b: seq<Byte>)
    decreases |b|
  {
    var i := NewlineAt(b);
    i < |b| ==> rewrite(s, b[..i + 1]).1 == b[..i + 1] && StaysLines(rewrite, rewrite(s, b[..i + 1]).0, b[i + 1..])
  }

  ghost predicate Stays<S>(rewrite: Rewrite<S>, s: S, chunks: seq<seq<Byte>>) {
    if chunks == [] then true
    else
      var (s1, pending, _) := Chunks(rewrite, s, chunks[..|chunks| - 1]);
      Stays(rewrite, s, chunks[..|chunks| - 1]) && StaysLines(rewrite, s1, pending + chunks[|chunks| - 1])
  }

  /** No line of the stream, nor its end, is changed. */
  ghost predicate NothingRewritten<S>(rewrite: Rewrite<S>, s: S, chunks: seq<seq<Byte>>) {
    var (s1, pending, _) := Chunks(rewrite, s, chunks);
    Stays(rewrite, s, chunks) && (pending != [] ==> rewrite(s1, pending).1 == pending)
  }

  lemma {:induction false} SameLines<S>(rewrite: Rewrite<S>, s: S, b: seq<Byte>)
    requires StaysLines(rewrite, s, b)
    ensures Lines(rewrite, s, b).2 + Lines(rewrite, s, b).1 == b
    decreases |b|
  {
    hide Lines, NewlineAt;
    var i := NewlineAt(b);
    if i == |b| {
      LinesEnd(rewrite, s, b);
      assert [] + b == b;
    } else {
      LinesStep(rewrite, s, b);
      var (s1, out) := rewrite(s, b[..i + 1]);
      SameLines(rewrite, s1, b[i + 1..]);
      var (_, rest, more) := Lines(rewrite, s1, b[i + 1..]);
      ConcatAssoc(out, more, rest);
      assert b[..i + 1] + b[i + 1..] == b;
    }
  }

  lemma {:induction false} SameChunks<S>(rewrite: Rewrite<S>, s: S, chunks: seq<seq<Byte>>)
    requires Stays(rewrite, s, chunks)
    ensures Chunks(rewrite, s, chunks).2 + Chunks(rewrite, s, chunks).1 == Join(chunks)
    decreases |chunks|
  {
    if chunks != [] {
      var init, last := chunks[..|chunks| - 1], chunks[|chunks| - 1];
      SameChunks(rewrite, s, init);
      var (s1, pending, out) := Chunks(rewrite, s, init);
      SameLines(rewrite, s1, pending + last);
      var (s2, rest, more) := Lines(rewrite, s1, pending + last);
      assert Chunks(rewrite, s, chunks)
             == (if |rest| > MAX_PENDING_LINE_BYTES then (s2, [], out + (more + rest)) else (s2, rest, out + more));
      hide Lines, Chunks, Stays, StaysLines;
      ConcatAssoc(out, more, rest);
      ConcatAssoc(out, pending, last);
      assert out + (more + rest) + [] == out + (more + rest);
    }
  }

  /** With or without lines that are too long: a stream in which nothing is rewritten comes out byte for byte. */
  lemma UntouchedStream<S>(rewrite: Rewrite<S>, s: S, chunks: seq<seq<Byte>>)
    requires NothingRewritten(rewrite, s, chunks)
    ensures Streamed(rewrite, s, chunks).1 == Join(chunks)
  {
    SameChunks(rewrite, s, chunks);
  }

  // Rewritings that count what they change

  /** `count` never falls, and a line for which it does not grow stays as it is. */
  ghost predicate Counts<S(!new)>(rewrite: Rewrite<S>, count: S -> nat) {
    forall s, line ::
      && count(s) <= count(rewrite(s, line).0)
      && (count(rewrite(s, line).0) == count(s) ==> rewrite(s, line).1 == line)
  }

  lemma {:induction false} CountLines<S(!new)>(rewrite: Rewrite<S>, count: S -> nat, s: S, b: seq<Byte>)
    requires Counts(rewrite, count)
    ensures count(s) <= count(Lines(rewrite, s, b).0)
    ensures count(Lines(rewrite, s, b).0) == count(s) ==> StaysLines(rewrite, s, b)
    decreases |b|
  {
    hide Lines, NewlineAt;
    var i := NewlineAt(b);
    if i == |b| {
      LinesEnd(rewrite, s, b);
    } else {
      LinesStep(rewrite, s, b);
      CountLines(rewrite, count, rewrite(s, b[..i + 1]).0, b[i + 1..]);
    }
  }

  lemma {:induction false} CountChunks<S(!new)>(rewrite: Rewrite<S>, count: S -> nat, s: S, chunks: seq<seq<Byte>>)
    requires Counts(rewrite, count)
    ensures count(s) <= count(Chunks(rewrite, s, chunks).0)
    ensures count(Chunks(rewrite, s, chunks).0) == count(s) ==> Stays(rewrite, s, chunks)
    decreases |chunks|
  {
    if chunks != [] {
      var init, last := chunks[..|chunks| - 1], chunks[|chunks| - 1];
      CountChunks(rewrite, count, s, init);
      var (s1, pending, _) := Chunks(rewrite, s, init);
      CountLines(rewrite, count, s1, pending + last);
      hide Counts, Lines, StaysLines;
    }
  }

  /** If nothing was counted over a whole stream, however it was cut, it comes out byte for byte. */
  lemma UncountedStream<S(!new)>(rewrite: Rewrite<S>, count: S -> nat, s: S, chunks: seq<seq<Byte>>)
    requires Counts(rewrite, count) && count(Streamed(rewrite, s, chunks).0) == count(s)
    ensures Streamed(rewrite, s, chunks).1 == Join(chunks)
  {
    var (s1, pending, _) := Chunks(rewrite, s, chunks);
    CountChunks(rewrite, count, s, chunks);
    if pending != [] {
      assert count(s1) <= count(rewrite(s1, pending).0);
    }
    assert NothingRewritten(rewrite, s, chunks);
    hide Chunks, Stays, Counts, Join;
    UntouchedStream(rewrite, s, chunks);
  }
}
