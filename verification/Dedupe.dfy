/**
 Making tool-call ids unique: the n-th call of an id, for n > 1, gets a fresh id, and so
 does the n-th result for that id.
 */
module Dedupe {
  import opened Common
  import opened Decimals
  import opened Messages
  import opened FreshIds

  /** `${id}_` */
  function Stem(id: Id): string {
    id + "_"
  }

  // Occurrences

  function Occ(s: seq<Id>, x: Id): nat {
    multiset(s)[x]
  }

  function CallIds(bs: seq<Block>): seq<Id> {
    if bs == [] then []
    else CallIds(bs[..|bs| - 1]) + if IsToolUse(bs[|bs| - 1]) then [bs[|bs| - 1].id] else []
  }

  /** The ids of all calls in the first `n` messages, in order. */
  function CallSeq(ms: seq<Message>, n: nat): seq<Id>
    requires n <= |ms|
  {
    if n == 0 then [] else CallSeq(ms, n - 1) + CallIds(AssistantBlocks(ms[n - 1]))
  }

  /** How many calls of `x` precede block `b` of message `i` in the history. */
  function CallsSoFar(ms: seq<Message>, x: Id, i: nat, b: nat): nat
    requires i < |ms| && b <= |AssistantBlocks(ms[i])|
  {
    Occ(CallSeq(ms, i), x) + CallCount(AssistantBlocks(ms[i])[..b], x)
  }

  /** How many results for `x` precede block `b` of message `j` in the history. */
  function ResultsSoFar(ms: seq<Message>, x: Id, j: nat, b: nat): nat
    requires j < |ms| && b <= |UserBlocks(ms[j])|
  {
    |ResultsIn(ms, x, 0, j)| + |Results(UserBlocks(ms[j])[..b], x)|
  }

  type Renames = map<(Id, nat), Id>

  /** The ids in use and the new names, after giving every repeated call in `calls` a fresh id. */
  function Renaming(calls: seq<Id>, used: set<Id>): (set<Id>, Renames) {
    if calls == [] then (used, map[])
    else
      var rest := calls[..|calls| - 1];
      var x := calls[|calls| - 1];
      var n := Occ(rest, x) + 1;
      var (u, t) := Renaming(rest, used);
      if n == 1 then (u, t) else (u + {Fresh(Stem(x), n, u)}, t[(x, n) := Fresh(Stem(x), n, u)])
  }

  function AllIds(calls: seq<Id>): set<Id> {
    set x | x in calls
  }

  function RenamesOf(ms: seq<Message>): Renames {
    var calls := CallSeq(ms, |ms|);
    Renaming(calls, AllIds(calls)).1
  }

  /** The name of the n-th occurrence of `x`. */
  function NewName(t: Renames, x: Id, n: nat): Id {
    if (x, n) in t then t[(x, n)] else x
  }

  function DedupedBlock(ms: seq<Message>, t: Renames, i: nat, b: nat): Block
    requires i < |ms| && ms[i].Msg? && ms[i].content.Blocks? && b < |ms[i].content.blocks|
  {
    var block := ms[i].content.blocks[b];
    if ms[i].role == Assistant && IsToolUse(block) then
      ToolUse(NewName(t, block.id, CallsSoFar(ms, block.id, i, b) + 1), block.input)
    else if ms[i].role == User && IsToolResult(block) then
      ToolResult(NewName(t, block.id, ResultsSoFar(ms, block.id, i, b) + 1), block.output)
    else block
  }

  function DedupedMessage(ms: seq<Message>, t: Renames, i: nat): Message
    requires i < |ms|
  {
    var m := ms[i];
    if m.Msg? && m.content.Blocks? then
      m.(content := Blocks(seq(|m.content.blocks|,
                               b requires 0 <= b < |m.content.blocks| => DedupedBlock(ms, t, i, b))))
    else m
  }

  function AllDeduped(ms: seq<Message>, t: Renames): seq<Message> {
    seq(|ms|, i requires 0 <= i < |ms| => DedupedMessage(ms, t, i))
  }

  predicate HasDuplicate(calls: seq<Id>) {
    exists x :: x in calls && Occ(calls, x) > 1
  }

  /** The history with unique call ids, or None when they are unique already. */
  function DedupeIds(ms: seq<Message>): Option<seq<Message>> {
    if HasDuplicate(CallSeq(ms, |ms|)) then Some(AllDeduped(ms, RenamesOf(ms))) else None
  }

  function Deduped(ms: seq<Message>): seq<Message> {
    match DedupeIds(ms)
    case None => ms
    case Some(out) => out
  }

  // The renaming

  /** Exactly the repeated calls are renamed, to pairwise different ids that were not in use. */
  ghost predicate GoodRenames(calls: seq<Id>, used0: set<Id>, used: set<Id>, t: Renames) {
    && used0 <= used
    && (forall x, n :: (x, n) in t <==> 2 <= n <= Occ(calls, x))
    && (forall k :: k in t ==> t[k] in used && t[k] !in used0)
    && (forall k, l :: k in t && l in t && t[k] == t[l] ==> k == l)
  }

  lemma OccStep(s: seq<Id>, x: Id)
    ensures forall y :: Occ(s + [x], y) == Occ(s, y) + if y == x then 1 else 0
  {
  }

  lemma RenamingKeeps(rest: seq<Id>, x: Id, used0: set<Id>, used: set<Id>, t: Renames)
    requires GoodRenames(rest, used0, used, t)
    ensures var n := Occ(rest, x) + 1;
            if n == 1 then GoodRenames(rest + [x], used0, used, t)
            else GoodRenames(rest + [x], used0, used + {Fresh(Stem(x), n, used)}, t[(x, n) := Fresh(Stem(x), n, used)])
  {
    hide Fresh, Occ;
    OccStep(rest, x);
    var k := FreshIsFirst(Stem(x), Occ(rest, x) + 1, used);
  }

  lemma {:induction false} RenamingGood(calls: seq<Id>, used0: set<Id>)
    ensures var (used, t) := Renaming(calls, used0); GoodRenames(calls, used0, used, t)
  {
    hide Fresh, GoodRenames;
    if calls == [] {
      NoRenames(used0);
    } else {
      var rest := calls[..|calls| - 1];
      RenamingGood(rest, used0);
      var (u, t) := Renaming(rest, used0);
      RenamingKeeps(rest, calls[|calls| - 1], used0, u, t);
      assert calls == rest + [calls[|calls| - 1]];
    }
  }

  lemma NoRenames(used0: set<Id>)
    ensures GoodRenames([], used0, used0, map[])
  {
  }

  /** `name` is `id`, an underscore, and a number from `n` on. */
  ghost predicate IsNumbered(name: Id, id: Id, n: nat) {
    exists k :: n <= k && name == id + "_" + Decimal(k)
  }

  ghost predicate AllNumbered(t: Renames) {
    forall x, n :: (x, n) in t ==> IsNumbered(t[(x, n)], x, n)
  }

  lemma {:induction false} RenamingNumbers(calls: seq<Id>, used: set<Id>)
    ensures AllNumbered(Renaming(calls, used).1)
    decreases |calls|
  {
    if calls != [] {
      var rest, x := calls[..|calls| - 1], calls[|calls| - 1];
      RenamingNumbers(rest, used);
      var (u, t) := Renaming(rest, used);
      var n := Occ(rest, x) + 1;
      hide Renaming, Occ, Fresh, IsNumbered;
      var k := FreshIsFirst(Stem(x), n, u);
      FreshIsNumbered(x, n, k, u);
    }
  }

  lemma FreshIsNumbered(x: Id, n: nat, k: nat, used: set<Id>)
    requires n <= k && Fresh(Stem(x), n, used) == Suffixed(Stem(x), k)
    ensures IsNumbered(Fresh(Stem(x), n, used), x, n)
  {
    assert Suffixed(Stem(x), k) == x + "_" + Decimal(k);
  }

  /** The first call of an id keeps it; the n-th gets the id with a number that is at least n. */
  lemma NamesAreNumbered(calls: seq<Id>, x: Id, n: nat)
    requires 1 <= n <= Occ(calls, x)
    ensures var name := NewName(Renaming(calls, AllIds(calls)).1, x, n);
            if n == 1 then name == x else IsNumbered(name, x, n)
  {
    hide Renaming, Occ, IsNumbered;
    RenamingGood(calls, AllIds(calls));
    RenamingNumbers(calls, AllIds(calls));
  }

  ghost predicate ValidName(calls: seq<Id>, x: Id, n: nat) {
    1 <= n <= Occ(calls, x)
  }

  /** Different occurrences get different names. */
  lemma NamesDiffer(calls: seq<Id>, x: Id, m: nat, y: Id, n: nat)
    requires ValidName(calls, x, m) && ValidName(calls, y, n)
    requires var t := Renaming(calls, AllIds(calls)).1; NewName(t, x, m) == NewName(t, y, n)
    ensures x == y && m == n
  {
    RenamingGood(calls, AllIds(calls));
    assert x in calls && y in calls;
  }
}
