/**
 The ids seen in each thread, in a cache that is bounded in threads and in ids per thread. Threads
 are evicted in the order in which they were first seen.
 */
module ThreadIds {

  datatype Entry = Entry(thread: string, ids: seq<string>)

  /** Oldest thread first; in each, oldest id first. */
  type Cache = seq<Entry>

  const MAX_CACHED_THREADS := 1024
  const MAX_IDS_PER_THREAD := 8192

  /** The position of a thread; |c| if it is not cached. */
  function Position(c: Cache, thread: string): (i: nat)
    ensures i <= |c| && (i < |c| ==> c[i].thread == thread)
    ensures forall j :: 0 <= j < i ==> c[j].thread != thread
  {
    if c == [] || c[0].thread == thread then 0 else 1 + Position(c[1..], thread)
  }

  function IdsOf(c: Cache, thread: string): seq<string> {
    if Position(c, thread) < |c| then c[Position(c, thread)].ids else []
  }

  function TrimThreads(c: Cache): Cache {
    if |c| > MAX_CACHED_THREADS then c[|c| - MAX_CACHED_THREADS..] else c
  }

  function AddTo(ids: seq<string>, id: string): seq<string> {
    if id in ids then ids
    else if |ids| + 1 > MAX_IDS_PER_THREAD then (ids + [id])[1..]
    else ids + [id]
  }

  /** The cache once it has an entry for the thread. */
  function WithThread(c: Cache, thread: string): Cache {
    if Position(c, thread) < |c| then c else TrimThreads(c + [Entry(thread, [])])
  }

  function PutIds(c: Cache, i: nat, ids: seq<string>): Cache
    requires i < |c|
  {
    c[i := Entry(c[i].thread, ids)]
  }

  function AddId(c: Cache, thread: string, id: string): Cache {
    var c1 := WithThread(c, thread);
    var i := Position(c1, thread);
    if i < |c1| then PutIds(c1, i, AddTo(c1[i].ids, id)) else c1
  }

  function AddAll(c: Cache, thread: string, ids: seq<string>): Cache {
    if ids == [] then c else AddId(AddAll(c, thread, ids[..|ids| - 1]), thread, ids[|ids| - 1])
  }

  // The bounds

  predicate Distinct<T(==)>(s: seq<T>) {
    forall i, j :: 0 <= i < j < |s| ==> s[i] != s[j]
  }

  function Threads(c: Cache): seq<string> {
    seq(|c|, i requires 0 <= i < |c| => c[i].thread)
  }

  predicate CacheOk(c: Cache) {
    && |c| <= 1024
    && Distinct(Threads(c))
    && forall i :: 0 <= i < |c| ==> |c[i].ids| <= 8192 && Distinct(c[i].ids)
  }

  lemma AtPosition(c: Cache, i: nat)
    requires i < |c| && Distinct(Threads(c))
    ensures Position(c, c[i].thread) == i
  {
    var j := Position(c, c[i].thread);
    assert Threads(c)[i] == c[i].thread;
    if j < |c| {
      assert Threads(c)[j] == c[j].thread;
    }
  }

  lemma Absent(c: Cache, thread: string)
    requires forall i :: 0 <= i < |c| ==> c[i].thread != thread
    ensures Position(c, thread) == |c| && IdsOf(c, thread) == []
  {
  }

  lemma AppendOk(c: Cache, thread: string)
    requires Distinct(Threads(c)) && Position(c, thread) == |c|
    ensures Distinct(Threads(c + [Entry(thread, [])]))
  {
    var all := c + [Entry(thread, [])];
    forall i, j | 0 <= i < j < |all|
      ensures Threads(all)[i] != Threads(all)[j]
    {
      if j < |c| {
        assert Threads(c)[i] != Threads(c)[j];
      } else {
        assert c[i].thread != thread;
      }
    }
  }

  lemma DistinctSuffix<T>(s: seq<T>, d: nat)
    requires d <= |s| && Distinct(s)
    ensures Distinct(s[d..])
  {
  }

  lemma TrimOk(all: Cache)
    requires all != [] && Distinct(Threads(all))
    requires forall i :: 0 <= i < |all| ==> |all[i].ids| <= MAX_IDS_PER_THREAD && Distinct(all[i].ids)
    ensures CacheOk(TrimThreads(all)) && TrimThreads(all) != []
    ensures TrimThreads(all)[|TrimThreads(all)| - 1] == all[|all| - 1]
  {
    var c := TrimThreads(all);
    var d := |all| - |c|;
    DistinctSuffix(Threads(all), d);
    assert Threads(c) == Threads(all)[d..];
    assert c == all[d..];
    hide TrimThreads, Distinct;
  }

  lemma WithThreadOk(c: Cache, thread: string)
    requires CacheOk(c)
    ensures var c1 := WithThread(c, thread);
            CacheOk(c1) && Position(c1, thread) < |c1| && IdsOf(c1, thread) == IdsOf(c, thread)
  {
    if Position(c, thread) == |c| {
      AppendOk(c, thread);
      TrimOk(c + [Entry(thread, [])]);
      var c1 := WithThread(c, thread);
      hide TrimThreads;
      AtPosition(c1, |c1| - 1);
    }
  }

  lemma AddToOk(ids: seq<string>, id: string)
    requires |ids| <= MAX_IDS_PER_THREAD && Distinct(ids)
    ensures |AddTo(ids, id)| <= MAX_IDS_PER_THREAD && Distinct(AddTo(ids, id))
    ensures id in AddTo(ids, id)
    ensures forall x :: x in AddTo(ids, id) ==> x in ids || x == id
  {
    if id !in ids {
      assert (ids + [id])[|ids|] == id;
      var r := AddTo(ids, id);
      assert r[|r| - 1] == id;
      assert Distinct(ids + [id]);
    }
  }

  lemma PutIdsOk(c: Cache, i: nat, ids: seq<string>)
    requires CacheOk(c) && i < |c| && |ids| <= MAX_IDS_PER_THREAD && Distinct(ids)
    ensures CacheOk(PutIds(c, i, ids))
    ensures Threads(PutIds(c, i, ids)) == Threads(c)
    ensures forall t :: IdsOf(PutIds(c, i, ids), t) == if t == c[i].thread then ids else IdsOf(c, t)
  {
    var c1 := PutIds(c, i, ids);
    assert Threads(c1) == Threads(c);
    forall t
      ensures IdsOf(c1, t) == if t == c[i].thread then ids else IdsOf(c, t)
    {
      AtPosition(c, i);
      AtPosition(c1, i);
      var p := Position(c, t);
      if p < |c| {
        AtPosition(c1, p);
      } else {
        assert forall j :: 0 <= j < |c1| ==> c1[j].thread == c[j].thread;
        Absent(c1, t);
      }
    }
  }

  /**
   The cache stays within its bounds and always retains the id just added; threads keep their place,
   so that the oldest thread is evicted even if it was just used.
   */
  lemma AddIdKeepsBounds(c: Cache, thread: string, id: string)
    requires CacheOk(c)
    ensures var c1 := AddId(c, thread, id);
            && CacheOk(c1)
            && id in IdsOf(c1, thread)
            && (forall x :: x in IdsOf(c1, thread) ==> x in IdsOf(c, thread) || x == id)
            && Threads(c1) == Threads(WithThread(c, thread))
  {
    WithThreadOk(c, thread);
    var c1 := WithThread(c, thread);
    var i := Position(c1, thread);
    hide WithThread, Position;
    AddToOk(c1[i].ids, id);
    PutIdsOk(c1, i, AddTo(c1[i].ids, id));
    hide AddTo, PutIds;
  }

  /** What adding an id evicts is the oldest id of the thread or the ids of the oldest thread. */
  predicate Loses(c: Cache, thread: string, id: string, t: string) {
    exists i :: 0 <= i < |IdsOf(c, t)| && IdsOf(c, t)[i] !in IdsOf(AddId(c, thread, id), t)
  }

  lemma NothingLost(c: Cache, thread: string, id: string, t: string)
    requires !Loses(c, thread, id, t)
    ensures forall x :: x in IdsOf(c, t) ==> x in IdsOf(AddId(c, thread, id), t)
  {
    hide AddId, IdsOf;
  }

  /** Below the limits nothing is lost. */
  lemma NothingLostBelowTheLimits(c: Cache, thread: string, id: string, t: string)
    requires CacheOk(c)
    requires |c| < 1024 || Position(c, thread) < |c|
    requires t == thread ==> |IdsOf(c, t)| < 8192
    ensures !Loses(c, thread, id, t)
  {
    WithThreadOk(c, thread);
    var c1 := WithThread(c, thread);
    var i := Position(c1, thread);
    WithThreadLoses(c, thread, t);
    hide WithThread, Position;
    AddToOk(c1[i].ids, id);
    PutIdsOk(c1, i, AddTo(c1[i].ids, id));
    hide IdsOf, PutIds;
  }

  lemma WithThreadLoses(c: Cache, thread: string, t: string)
    requires CacheOk(c) && (|c| < 1024 || Position(c, thread) < |c|)
    ensures IdsOf(WithThread(c, thread), t) == IdsOf(c, t)
  {
    if Position(c, thread) == |c| {
      WithThreadOk(c, thread);
      var c1 := c + [Entry(thread, [])];
      assert WithThread(c, thread) == c1;
      var p := Position(c, t);
      if p < |c| {
        assert c1[p] == c[p];
        AtPosition(c1, p);
      } else if t != thread {
        Absent(c1, t);
      }
    }
  }

  // What goes at the limits

  lemma WithThreadExactly(c: Cache, thread: string, t: string)
    requires CacheOk(c) && Position(c, thread) == |c|
    ensures var c1 := WithThread(c, thread);
            && Threads(c1)
               == (if |c| == 1024 then Threads(c)[1..] else Threads(c)) + [thread]
            && IdsOf(c1, t) == if |c| == 1024 && t == c[0].thread then [] else IdsOf(c, t)
  {
    hide Position, TrimThreads, Distinct;
    WithThreadOk(c, thread);
    var d := if |c| == MAX_CACHED_THREADS then 1 else 0;
    TrimIs(c, thread, d);
    assert WithThread(c, thread) == c[d..] + [Entry(thread, [])];
    TailIds(c, thread, t, d);
  }

  lemma TrimIs(c: Cache, thread: string, d: nat)
    requires |c| <= MAX_CACHED_THREADS && d == if |c| == MAX_CACHED_THREADS then 1 else 0
    ensures TrimThreads(c + [Entry(thread, [])]) == c[d..] + [Entry(thread, [])]
  {
  }

  lemma TailIds(c: Cache, thread: string, t: string, d: nat)
    requires CacheOk(c) && Position(c, thread) == |c| && d <= 1 && d <= |c|
    requires Distinct(Threads(c[d..] + [Entry(thread, [])]))
    ensures var c1 := c[d..] + [Entry(thread, [])];
            && Threads(c1) == Threads(c)[d..] + [thread]
            && IdsOf(c1, t) == if d == 1 && t == c[0].thread then [] else IdsOf(c, t)
  {
    hide Distinct, CacheOk, Position;
    var c1 := c[d..] + [Entry(thread, [])];
    var p := Position(c, t);
    if t == thread {
      AtPosition(c1, |c1| - 1);
      NotTheFirst(c, thread);
    } else if d <= p < |c| {
      assert c1[p - d] == c[p];
      AtPosition(c1, p - d);
      FirstIsNot(c, p, d);
    } else {
      FirstIsGone(c, t, d);
      assert forall i :: 0 <= i < |c1| - 1 ==> c1[i] == c[i + d];
      Absent(c1, t);
    }
  }

  lemma NotTheFirst(c: Cache, thread: string)
    requires Position(c, thread) == |c|
    ensures |c| > 0 ==> c[0].thread != thread
  {
  }

  lemma FirstIsNot(c: Cache, p: nat, d: nat)
    requires CacheOk(c) && d <= p < |c|
    ensures d == 1 ==> c[p].thread != c[0].thread
  {
    assert d == 1 ==> Threads(c)[p] != Threads(c)[0];
  }

  lemma FirstIsGone(c: Cache, t: string, d: nat)
    requires CacheOk(c) && d <= 1 && !(d <= Position(c, t) < |c|)
    ensures forall i :: d <= i < |c| ==> c[i].thread != t
    ensures Position(c, t) == |c| || (d == 1 && |c| > 0 && t == c[0].thread)
  {
    forall i | d <= i < |c|
      ensures c[i].thread != t
    {
      AtPosition(c, i);
    }
  }

  /**
   Exactly what adding an id evicts: the oldest thread, if another one takes its place in a full
   cache; and the oldest id of the thread, if its list is full.
   */
  lemma OnlyTheOldestGoes(c: Cache, thread: string, id: string, t: string)
    requires CacheOk(c)
    ensures var c1 := AddId(c, thread, id);
            var full := Position(c, thread) == |c| == 1024;
            var ids := IdsOf(c, thread);
            && Threads(c1)
               == (if Position(c, thread) < |c| then Threads(c)
                   else (if full then Threads(c)[1..] else Threads(c)) + [thread])
            && IdsOf(c1, t)
               == (if t == thread then
                     if id in ids then ids else if |ids| == 8192 then ids[1..] + [id] else ids + [id]
                   else if full && t == c[0].thread then [] else IdsOf(c, t))
  {
    WithThreadOk(c, thread);
    if Position(c, thread) == |c| {
      WithThreadExactly(c, thread, t);
    }
    var c1 := WithThread(c, thread);
    var i := Position(c1, thread);
    hide WithThread, Position;
    AddToOk(c1[i].ids, id);
    PutIdsOk(c1, i, AddTo(c1[i].ids, id));
    hide PutIds;
  }

  class ThreadIdCache {
    var entries: Cache

    constructor ()
      ensures entries == []
    {
      entries := [];
    }

    method Find(thread: string) returns (i: nat)
      ensures i == Position(entries, thread)
    {
      i := 0;
      while i < |entries| && entries[i].thread != thread
        invariant i <= |entries| && Position(entries, thread) == i + Position(entries[i..], thread)
      {
        assert entries[i..][1..] == entries[i + 1..];
        i := i + 1;
      }
    }

    /** Evict the oldest threads as long as there are too many. */
    method EvictThreads()
      modifies this
      ensures entries == TrimThreads(old(entries))
    {
      while |entries| > MAX_CACHED_THREADS
        invariant |entries| <= |old(entries)| && entries == old(entries)[|old(entries)| - |entries|..]
        invariant |old(entries)| > MAX_CACHED_THREADS ==> |entries| >= MAX_CACHED_THREADS
        invariant |old(entries)| <= MAX_CACHED_THREADS ==> entries == old(entries)
      {
        entries := entries[1..];
      }
    }

    method Add(thread: string, id: string)
      modifies this
      ensures entries == AddId(old(entries), thread, id)
    {
      var i := Find(thread);
      if i == |entries| {
        entries := entries + [Entry(thread, [])];
        EvictThreads();
        i := Find(thread);
      }
      hide Position;
      if i < |entries| && id !in entries[i].ids {
        var ids := entries[i].ids + [id];
        if |ids| > MAX_IDS_PER_THREAD {
          ids := ids[1..];
        }
        entries := entries[i := Entry(entries[i].thread, ids)];
      }
    }

    method Ids(thread: string) returns (ids: seq<string>)
      ensures ids == IdsOf(entries, thread)
    {
      var i := Find(thread);
      ids := if i < |entries| then entries[i].ids else [];
    }
  }
}
