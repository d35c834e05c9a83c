/**
 Making the tool-call ids of response streams unique: within each stream, and across the streams of
 a thread as long as the thread's cache has lost nothing.
 */
module IdRewriter {
  import opened Decimals
  import opened FreshIds
  import opened ThreadIds

  /** The id under which `id` is passed on, when `taken` are not to be used again. */
  function Resolved(id: string, taken: set<string>): (r: string)
    ensures r == id <==> id !in taken
  {
    if id !in taken then id
    else
      FreshIsLonger(id + "_dup", 2, taken);
      Fresh(id + "_dup", 2, taken)
  }

  lemma FreshIsLonger(stem: string, n: nat, used: set<string>)
    ensures |Fresh(stem, n, used)| > |stem|
  {
    var k := FreshIsFirst(stem, n, used);
  }

  /** The id passed on is one that is not taken. */
  lemma ResolvedIsNew(id: string, taken: set<string>)
    ensures Resolved(id, taken) !in taken
  {
    var k := FreshIsFirst(id + "_dup", 2, taken);
  }

  /** An id that is taken gets the first number, from 2 on, that makes it free. */
  lemma ResolvedIsNumbered(id: string, taken: set<string>) returns (k: nat)
    requires id in taken
    ensures 2 <= k && Resolved(id, taken) == id + "_dup" + Decimal(k)
    ensures forall j :: 2 <= j < k ==> id + "_dup" + Decimal(j) in taken
  {
    k := FreshIsFirst(id + "_dup", 2, taken);
    forall j | 2 <= j < k
      ensures id + "_dup" + Decimal(j) in taken
    {
      assert Suffixed(id + "_dup", j) in taken;
    }
  }

  function SetOf(ids: seq<string>): set<string> {
    set x | x in ids
  }

  /**
   What a stream's rewriter avoids: what it used, and what the thread's cache holds; without a thread there
   is no cache.
   */
  function Taken(used: set<string>, c: Cache, thread: string): set<string> {
    used + (if thread == "" then {} else SetOf(IdsOf(c, thread)))
  }

  // The rewriter of one stream

  class ToolUseIdDedupeRewriter {
    var usedIds: set<string>
    var renameCount: nat
    const cache: ThreadIdCache
    const thread: string

    constructor (historyIds: set<string>, cache: ThreadIdCache, thread: string)
      ensures usedIds == historyIds && renameCount == 0 && this.cache == cache && this.thread == thread
    {
      usedIds, renameCount := historyIds, 0;
      this.cache, this.thread := cache, thread;
    }

    method Seen(id: string) returns (r: bool)
      ensures r <==> id in Taken(usedIds, cache.entries, thread)
    {
      if id in usedIds {
        return true;
      }
      if thread == "" {
        return false;
      }
      var ids := cache.Ids(thread);
      return id in ids;
    }

    method Observe(id: string)
      modifies cache
      ensures cache.entries == if thread == "" then old(cache.entries) else AddId(old(cache.entries), thread, id)
    {
      if thread != "" {
        cache.Add(thread, id);
      }
    }

    method Resolve(id: string) returns (r: string)
      modifies this, cache
      ensures r == Resolved(id, Taken(old(usedIds), old(cache.entries), thread))
      ensures usedIds == old(usedIds) + {r}
      ensures cache.entries == if thread == "" then old(cache.entries) else AddId(old(cache.entries), thread, r)
      ensures renameCount == old(renameCount) + (if r == id then 0 else 1)
    {
      ghost var taken := Taken(usedIds, cache.entries, thread);
      var seen := Seen(id);
      if !seen {
        usedIds := usedIds + {id};
        Observe(id);
        return id;
      }
      var k := 2;
      var candidate := Suffixed(id + "_dup", k);
      ghost var first := FreshIsFirst(id + "_dup", 2, taken);
      seen := Seen(candidate);
      while seen
        invariant 2 <= k <= first && candidate == Suffixed(id + "_dup", k)
        invariant usedIds == old(usedIds) && cache.entries == old(cache.entries) && renameCount == old(renameCount)
        invariant seen <==> candidate in taken
        decreases first - k
      {
        k := k + 1;
        candidate := Suffixed(id + "_dup", k);
        seen := Seen(candidate);
      }
      assert candidate == Fresh(id + "_dup", 2, taken);
      usedIds := usedIds + {candidate};
      renameCount := renameCount + 1;
      Observe(candidate);
      return candidate;
    }
  }

  // All streams

  /** `seed`: the ids of the stream's history when it began; `emitted`: what was passed on, in order. */
  datatype Stream = Stream(thread: string, seed: set<string>, used: set<string>, emitted: seq<string>)

  /** `lost`: the threads of which the cache has lost an id. */
  datatype World = World(cache: Cache, streams: map<nat, Stream>, lost: set<string>)

  const EMPTY := World([], map[], {})

  datatype Step =
    | Begin(n: nat, thread: string, requested: seq<string>)
    | Observe(n: nat, id: string)

  function Except(ids: seq<string>, known: seq<string>): seq<string> {
    if ids == [] then []
    else Except(ids[..|ids| - 1], known) + (if ids[|ids| - 1] in known then [] else [ids[|ids| - 1]])
  }

  /** The ids that a new stream avoids: those of the request and then the others of the cache. */
  function SeedOf(c: Cache, thread: string, requested: seq<string>): seq<string> {
    requested + (if thread == "" then [] else Except(IdsOf(c, thread), requested))
  }

  lemma {:induction false} ExceptHolds(ids: seq<string>, known: seq<string>, x: string)
    ensures x in Except(ids, known) <==> x in ids && x !in known
    decreases |ids|
  {
    if ids != [] {
      var n := |ids| - 1;
      ExceptHolds(ids[..n], known, x);
      assert ids == ids[..n] + [ids[n]];
    }
  }

  /** The threads that lose an id when one is added. */
  ghost function Losers(c: Cache, thread: string, id: string): set<string> {
    set i | 0 <= i < |c| && Loses(c, thread, id, c[i].thread) :: c[i].thread
  }

  ghost function AddOne(w: World, thread: string, id: string): World {
    if thread == "" then w
    else w.(cache := AddId(w.cache, thread, id), lost := w.lost + Losers(w.cache, thread, id))
  }

  ghost function AddSeed(w: World, thread: string, ids: seq<string>): World {
    if ids == [] then w else AddOne(AddSeed(w, thread, ids[..|ids| - 1]), thread, ids[|ids| - 1])
  }

  ghost function Take(w: World, step: Step): World {
    match step
    case Begin(n, thread, requested) =>
      if n in w.streams then w
      else
        var seed := SeedOf(w.cache, thread, requested);
        AddSeed(w, thread, seed).(streams := w.streams[n := Stream(thread, SetOf(seed), SetOf(seed), [])])
    case Observe(n, id) =>
      if n !in w.streams then w
      else
        var s := w.streams[n];
        var r := Resolved(id, Taken(s.used, w.cache, s.thread));
        AddOne(w, s.thread, r).(streams := w.streams[n := s.(used := s.used + {r}, emitted := s.emitted + [r])])
  }

  ghost function Run(steps: seq<Step>): World {
    if steps == [] then EMPTY else Take(Run(steps[..|steps| - 1]), steps[|steps| - 1])
  }

  // What holds in every run

  /** One stream never emits an id twice, nor one of its history, whatever was evicted. */
  ghost predicate StreamOk(s: Stream) {
    && Distinct(s.emitted)
    && s.seed <= s.used
    && (forall x :: x in s.emitted ==> x in s.used && x !in s.seed)
  }

  ghost predicate Cached(c: Cache, s: Stream) {
    && (forall x :: x in s.emitted ==> x in IdsOf(c, s.thread))
    && (forall x :: x in s.seed ==> x in IdsOf(c, s.thread))
  }

  /** Two streams have no emitted id in common, unless their thread lost an id. */
  ghost predicate Apart(s: Stream, t: Stream) {
    forall x :: x in s.emitted ==> x !in t.emitted
  }

  /** Streams of the same thread, of which nothing was lost. */
  predicate Rivals(w: World, m: nat, n: nat)
    requires m in w.streams && n in w.streams
  {
    w.streams[m].thread == w.streams[n].thread != "" && w.streams[m].thread !in w.lost
  }

  ghost predicate WorldOk(w: World) {
    && CacheOk(w.cache)
    && (forall n :: n in w.streams ==> StreamOk(w.streams[n]))
    && (forall n :: n in w.streams && w.streams[n].thread != "" && w.streams[n].thread !in w.lost ==>
          Cached(w.cache, w.streams[n]))
    && (forall m, n :: m in w.streams && n in w.streams && m != n && Rivals(w, m, n) ==>
          Apart(w.streams[m], w.streams[n]))
  }

  lemma LosersAre(c: Cache, thread: string, id: string, t: string)
    requires t !in Losers(c, thread, id)
    ensures !Loses(c, thread, id, t)
  {
    var p := Position(c, t);
    if p < |c| {
      assert c[p].thread == t;
    } else {
      assert IdsOf(c, t) == [];
    }
  }

  lemma AddOneKeeps(w: World, thread: string, id: string, t: string)
    requires CacheOk(w.cache) && t !in AddOne(w, thread, id).lost
    ensures t !in w.lost
    ensures forall x :: x in IdsOf(w.cache, t) ==> x in IdsOf(AddOne(w, thread, id).cache, t)
  {
    if thread != "" {
      LosersAre(w.cache, thread, id, t);
      NothingLost(w.cache, thread, id, t);
    }
  }

  lemma AddOneOk(w: World, thread: string, id: string)
    requires WorldOk(w)
    ensures WorldOk(AddOne(w, thread, id))
    ensures thread != "" ==> id in IdsOf(AddOne(w, thread, id).cache, thread)
  {
    var w1 := AddOne(w, thread, id);
    if thread != "" {
      AddIdKeepsBounds(w.cache, thread, id);
    }
    hide AddId, StreamOk, Losers, CacheOk, Apart, IdsOf;
    forall n | n in w1.streams && w1.streams[n].thread != "" && w1.streams[n].thread !in w1.lost
      ensures Cached(w1.cache, w1.streams[n])
    {
      AddOneKeeps(w, thread, id, w1.streams[n].thread);
      assert Cached(w.cache, w.streams[n]);
    }
    RivalsStay(w, w1);
    hide Cached, AddOne;
  }

  lemma RivalsStay(w: World, w1: World)
    requires WorldOk(w) && w1.streams == w.streams && w.lost <= w1.lost
    ensures forall m, n :: m in w1.streams && n in w1.streams && m != n && Rivals(w1, m, n) ==>
              Apart(w1.streams[m], w1.streams[n])
  {
    hide Apart, Cached, StreamOk, CacheOk;
    forall m, n | m in w1.streams && n in w1.streams && m != n && Rivals(w1, m, n)
      ensures Apart(w1.streams[m], w1.streams[n])
    {
      assert Rivals(w, m, n);
    }
  }

  lemma {:induction false} AddSeedOk(w: World, thread: string, ids: seq<string>)
    requires WorldOk(w)
    ensures WorldOk(AddSeed(w, thread, ids)) && AddSeed(w, thread, ids).streams == w.streams
    ensures thread != "" && thread !in AddSeed(w, thread, ids).lost
            ==> forall x :: x in ids ==> x in IdsOf(AddSeed(w, thread, ids).cache, thread)
    decreases |ids|
  {
    if ids != [] {
      hide WorldOk;
      var init, id := ids[..|ids| - 1], ids[|ids| - 1];
      AddSeedOk(w, thread, init);
      var w1 := AddSeed(w, thread, init);
      AddOneOk(w1, thread, id);
      WorldCache(w1);
      var w2 := AddOne(w1, thread, id);
      if thread != "" && thread !in w2.lost {
        AddOneKeeps(w1, thread, id, thread);
        forall x | x in ids
          ensures x in IdsOf(w2.cache, thread)
        {
          if x != id {
            assert x in init;
          }
        }
      }
    }
  }

  lemma WorldCache(w: World)
    requires WorldOk(w)
    ensures CacheOk(w.cache)
  {
  }

  lemma NewStreamKeeps(w: World, n: nat, s: Stream)
    requires WorldOk(w) && n !in w.streams && s.emitted == [] && s.used == s.seed
    requires s.thread != "" && s.thread !in w.lost ==> forall x :: x in s.seed ==> x in IdsOf(w.cache, s.thread)
    ensures WorldOk(w.(streams := w.streams[n := s]))
  {
    hide CacheOk, IdsOf;
    var w1 := w.(streams := w.streams[n := s]);
    forall m, k | m in w1.streams && k in w1.streams && m != k && Rivals(w1, m, k)
      ensures Apart(w1.streams[m], w1.streams[k])
    {
      if m != n && k != n {
        assert Rivals(w, m, k);
      }
    }
  }

  /** A stream avoids the ids of its request and everything that the cache then held of its thread. */
  lemma BeginAvoids(w: World, n: nat, thread: string, requested: seq<string>, x: string)
    requires n !in w.streams
    ensures var w1 := Take(w, Begin(n, thread, requested));
            && n in w1.streams
            && (x in w1.streams[n].seed <==> x in requested || (thread != "" && x in IdsOf(w.cache, thread)))
  {
    hide AddSeed, Except;
    ExceptHolds(IdsOf(w.cache, thread), requested, x);
  }

  lemma BeginKeeps(w: World, n: nat, thread: string, requested: seq<string>)
    requires WorldOk(w)
    ensures WorldOk(Take(w, Begin(n, thread, requested)))
  {
    if n !in w.streams {
      var seed := SeedOf(w.cache, thread, requested);
      AddSeedOk(w, thread, seed);
      var w1 := AddSeed(w, thread, seed);
      hide AddSeed, SeedOf, CacheOk, IdsOf;
      NewStreamKeeps(w1, n, Stream(thread, SetOf(seed), SetOf(seed), []));
    }
  }

  /** The id that is passed on is in no stream's output or history, as far as the cache knows. */
  lemma EmittedIsNew(w: World, n: nat, id: string)
    requires WorldOk(w) && n in w.streams
    ensures var s := w.streams[n];
            var r := Resolved(id, Taken(s.used, w.cache, s.thread));
            && r !in s.used && r !in s.emitted && r !in s.seed
            && (s.thread != "" && s.thread !in w.lost ==>
                forall m :: m in w.streams && w.streams[m].thread == s.thread ==>
                  r !in w.streams[m].emitted && r !in w.streams[m].seed)
  {
    var s := w.streams[n];
    var taken := Taken(s.used, w.cache, s.thread);
    ResolvedIsNew(id, taken);
    hide Resolved;
    assert StreamOk(s);
    if s.thread != "" && s.thread !in w.lost {
      forall m | m in w.streams && w.streams[m].thread == s.thread
        ensures Resolved(id, taken) !in w.streams[m].emitted && Resolved(id, taken) !in w.streams[m].seed
      {
        assert Cached(w.cache, w.streams[m]);
      }
    }
  }

  lemma ObserveKeeps(w: World, n: nat, id: string)
    requires WorldOk(w) && n in w.streams
    ensures WorldOk(Take(w, Observe(n, id)))
  {
    var s := w.streams[n];
    var r := Resolved(id, Taken(s.used, w.cache, s.thread));
    EmittedIsNew(w, n, id);
    AddOneOk(w, s.thread, r);
    hide Resolved, Taken;
    var w1 := AddOne(w, s.thread, r);
    EmitKeeps(w, w1, n, r);
  }

  lemma EmitKeeps(w: World, w1: World, n: nat, r: string)
    requires WorldOk(w) && WorldOk(w1) && n in w.streams && w1.streams == w.streams && w.lost <= w1.lost
    requires var s := w.streams[n];
             && r !in s.used && r !in s.emitted && r !in s.seed
             && (s.thread != "" ==> r in IdsOf(w1.cache, s.thread))
             && (s.thread != "" && s.thread !in w.lost ==>
                 forall m :: m in w.streams && w.streams[m].thread == s.thread ==> r !in w.streams[m].emitted)
    ensures var s := w.streams[n];
            WorldOk(w1.(streams := w.streams[n := s.(used := s.used + {r}, emitted := s.emitted + [r])]))
  {
    var s := w.streams[n];
    var s1 := s.(used := s.used + {r}, emitted := s.emitted + [r]);
    var w2 := w1.(streams := w.streams[n := s1]);
    assert StreamOk(s);
    assert StreamOk(s1);
    forall m | m in w2.streams && w2.streams[m].thread != "" && w2.streams[m].thread !in w2.lost
      ensures Cached(w2.cache, w2.streams[m])
    {
      assert Cached(w1.cache, w1.streams[m]);
    }
    hide StreamOk, CacheOk, IdsOf;
    forall m, k | m in w2.streams && k in w2.streams && m != k && Rivals(w2, m, k)
      ensures Apart(w2.streams[m], w2.streams[k])
    {
      assert Rivals(w1, m, k) && Apart(w1.streams[m], w1.streams[k]);
    }
  }

  /**
   Over every interleaving of any number of streams of any threads: the cache keeps its bounds, one
   stream never repeats an id or passes on one of its history, and as long as a thread's ids were not
   evicted, its streams never pass on the same id.
   */
  lemma {:induction false} EveryInterleaving(steps: seq<Step>)
    ensures WorldOk(Run(steps))
    decreases |steps|
  {
    if steps != [] {
      var init, step := steps[..|steps| - 1], steps[|steps| - 1];
      EveryInterleaving(init);
      match step {
        case Begin(n, thread, requested) => BeginKeeps(Run(init), n, thread, requested);
        case Observe(n, id) => if n in Run(init).streams { ObserveKeeps(Run(init), n, id); }
      }
    }
  }

  /** What a client of a thread sees: no id twice, in whichever streams. */
  lemma NoIdTwice(steps: seq<Step>, m: nat, n: nat, i: nat, j: nat)
    requires var w := Run(steps);
             && m in w.streams && n in w.streams && i < |w.streams[m].emitted| && j < |w.streams[n].emitted|
             && w.streams[m].thread == w.streams[n].thread && (m != n || i != j)
    requires m != n ==> Run(steps).streams[m].thread != "" && Run(steps).streams[m].thread !in Run(steps).lost
    ensures Run(steps).streams[m].emitted[i] != Run(steps).streams[n].emitted[j]
    ensures Run(steps).streams[m].emitted[i] !in Run(steps).streams[m].seed
  {
    EveryInterleaving(steps);
    var w := Run(steps);
    hide Run;
    assert StreamOk(w.streams[m]);
    assert w.streams[m].emitted[i] in w.streams[m].emitted;
    if m != n {
      assert Rivals(w, m, n) && Apart(w.streams[m], w.streams[n]);
    } else {
      var first, second := if i < j then i else j, if i < j then j else i;
      assert w.streams[m].emitted[first] != w.streams[m].emitted[second];
    }
  }
}
