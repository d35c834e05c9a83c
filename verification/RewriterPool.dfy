/**
 The rewriters of all streams as objects that share one cache: whatever is called on whichever, the
 whole takes the step that the specification of all streams describes.
 */
module RewriterPool {
  import opened ThreadIds
  import opened IdRewriter

  class Pool {
    const cache: ThreadIdCache
    var rewriters: map<nat, ToolUseIdDedupeRewriter>
    /** The specification's state, with what every stream has passed on and which threads lost ids. */
    ghost var world: World

    /** The objects are what the specification says, each its own, and all its invariants hold. */
    ghost predicate Valid()
      reads this, cache, rewriters.Values
    {
      && cache.entries == world.cache
      && rewriters.Keys == world.streams.Keys
      && (forall n :: n in rewriters ==> Agrees(rewriters[n], world.streams[n]))
      && (forall m, n :: m in rewriters && n in rewriters && m != n ==> rewriters[m] != rewriters[n])
      && WorldOk(world)
    }

    ghost predicate Agrees(rewriter: ToolUseIdDedupeRewriter, s: Stream)
      reads rewriter
    {
      rewriter.cache == cache && rewriter.thread == s.thread && rewriter.usedIds == s.used
    }

    constructor ()
      ensures Valid() && world == EMPTY && fresh(cache)
    {
      cache := new ThreadIdCache();
      rewriters := map[];
      world := EMPTY;
      new;
      EveryInterleaving([]);
    }

    /** What a new stream avoids: the ids of the request, and the cached ones that are not among them. */
    method CollectSeed(thread: string, requested: seq<string>) returns (seed: seq<string>)
      ensures seed == SeedOf(cache.entries, thread, requested)
    {
      seed := requested;
      if thread != "" {
        var cached := cache.Ids(thread);
        for i := 0 to |cached|
          invariant seed == requested + Except(cached[..i], requested)
        {
          assert cached[..i + 1][..i] == cached[..i];
          if cached[i] !in requested {
            seed := seed + [cached[i]];
          }
        }
        assert cached[..|cached|] == cached;
      }
    }

    /** The seed of a new stream is cached for its thread. */
    method Remember(thread: string, seed: seq<string>)
      requires cache.entries == world.cache
      modifies cache
      ensures cache.entries == AddSeed(world, thread, seed).cache
    {
      hide AddOne, AddId;
      if thread != "" {
        for i := 0 to |seed|
          invariant cache.entries == AddSeed(world, thread, seed[..i]).cache
        {
          assert seed[..i + 1][..i] == seed[..i];
          AddOneCache(AddSeed(world, thread, seed[..i]), thread, seed[i]);
          cache.Add(thread, seed[i]);
        }
        assert seed[..|seed|] == seed;
      } else {
        NoThread(world, seed);
      }
    }

    /** A stream begins; `n` numbers it and `requested` are the ids of its request. */
    method Begin(n: nat, thread: string, requested: seq<string>)
      requires Valid() && n !in rewriters
      modifies this, cache
      ensures Valid() && world == Take(old(world), Step.Begin(n, thread, requested))
      ensures rewriters.Keys == old(rewriters.Keys) + {n}
    {
      hide WorldOk, AddSeed, SeedOf;
      BeginKeeps(world, n, thread, requested);
      var seed := CollectSeed(thread, requested);
      Remember(thread, seed);
      var rewriter := new ToolUseIdDedupeRewriter(SetOf(seed), cache, thread);
      AddSeedStreams(world, thread, seed);
      world := Take(world, Step.Begin(n, thread, requested));
      rewriters := rewriters[n := rewriter];
    }

    /** A tool call of stream `n` is passed on under the id `r`. */
    method Resolve(n: nat, id: string) returns (r: string)
      requires Valid() && n in rewriters
      modifies this`world, cache, rewriters[n]
      ensures Valid() && world == Take(old(world), Step.Observe(n, id))
      ensures world.streams[n].emitted == old(world).streams[n].emitted + [r]
      ensures r !in old(world).streams[n].emitted && r !in old(world).streams[n].seed
      ensures var thread := old(world).streams[n].thread;
              thread != "" && thread !in old(world).lost ==>
                forall m :: m in old(world).streams && old(world).streams[m].thread == thread ==>
                  r !in old(world).streams[m].emitted && r !in old(world).streams[m].seed
    {
      hide WorldOk, Resolved, Taken, AddId;
      EmittedIsNew(world, n, id);
      ObserveKeeps(world, n, id);
      var thread := rewriters[n].thread;
      r := rewriters[n].Resolve(id);
      AddOneCache(world, thread, r);
      world := Take(world, Step.Observe(n, id));
    }
  }

  lemma AddOneCache(w: World, thread: string, id: string)
    ensures AddOne(w, thread, id).cache == if thread == "" then w.cache else AddId(w.cache, thread, id)
    ensures AddOne(w, thread, id).streams == w.streams
  {
    hide AddId;
  }

  lemma {:induction false} NoThread(w: World, ids: seq<string>)
    ensures AddSeed(w, "", ids) == w
    decreases |ids|
  {
    if ids != [] {
      NoThread(w, ids[..|ids| - 1]);
    }
  }

  lemma {:induction false} AddSeedStreams(w: World, thread: string, ids: seq<string>)
    ensures AddSeed(w, thread, ids).streams == w.streams
    decreases |ids|
  {
    if ids != [] {
      hide AddOne;
      AddSeedStreams(w, thread, ids[..|ids| - 1]);
      AddOneCache(AddSeed(w, thread, ids[..|ids| - 1]), thread, ids[|ids| - 1]);
    }
  }
}
