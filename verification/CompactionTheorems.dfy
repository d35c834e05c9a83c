/** What compaction drops, and that its estimate is exact. */
module CompactionTheorems {
  import opened Common
  import opened Compaction

  // Sizes

  lemma {:induction false} SizesUpdate(bs: seq<Block>, i: nat, b: Block)
    requires i < |bs|
    ensures Sizes(bs[i := b]) == Sizes(bs) - Size(bs[i]) + Size(b)
    decreases |bs|
  {
    var n := |bs| - 1;
    var cs := bs[i := b];
    if i == n {
      assert cs[..n] == bs[..n];
    } else {
      assert cs[..n] == bs[..n][i := b] && cs[n] == bs[n];
      SizesUpdate(bs[..n], i, b);
    }
  }

  lemma {:induction false} PutSize(bs: seq<Block>, path: seq<nat>, b: Block)
    requires Find(bs, path).Some?
    ensures |Put(bs, path, b)| == |bs|
    ensures Sizes(Put(bs, path, b)) == Sizes(bs) - Size(Find(bs, path).value) + Size(b)
    decreases |path|
  {
    var was := bs[path[0]];
    if |path| == 1 {
      SizesUpdate(bs, path[0], b);
    } else {
      PutSize(was.inner, path[1..], b);
      SizesUpdate(bs, path[0], Result(was.shell, Put(was.inner, path[1..], b)));
    }
  }

  lemma {:induction false} ItemSizesUpdate(items: seq<Item>, i: nat, item: Item)
    requires i < |items|
    ensures ItemSizes(items[i := item]) == ItemSizes(items) - ItemSize(items[i]) + ItemSize(item)
    decreases |items|
  {
    var n := |items| - 1;
    var js := items[i := item];
    if i == n {
      assert js[..n] == items[..n];
    } else {
      assert js[..n] == items[..n][i := item] && js[n] == items[n];
      ItemSizesUpdate(items[..n], i, item);
    }
  }

  /** Replacing a block changes the serialized size by the difference of the two sizes. */
  lemma ReplaceSize(body: Body, p: Place, b: Block)
    requires At(body, p).Some?
    ensures BodySize(Replace(body, p, b)) == BodySize(body) - Size(At(body, p).value) + Size(b)
  {
    var items := ItemsOf(body, p.inMessages).value;
    var item := items[p.item];
    PutSize(item.content.value, p.path, b);
    ItemSizesUpdate(items, p.item, item.(content := Some(Put(item.content.value, p.path, b))));
    hide Put, Find, Sizes, ItemSizes;
  }

  // Other places

  predicate IsLeaf(b: Option<Block>) {
    b.Some? && b.value.Leaf?
  }

  lemma {:induction false} PutElsewhere(bs: seq<Block>, p: seq<nat>, q: seq<nat>, b: Block)
    requires IsLeaf(Find(bs, p)) && IsLeaf(Find(bs, q)) && b.Leaf? && p != q
    ensures Find(Put(bs, p, b), q) == Find(bs, q)
    decreases |p|
  {
    assert p == [p[0]] + p[1..] && q == [q[0]] + q[1..];
    if p[0] == q[0] && |p| > 1 {
      PutElsewhere(bs[p[0]].inner, p[1..], q[1..], b);
    }
  }

  lemma {:induction false} PutHere(bs: seq<Block>, p: seq<nat>, b: Block)
    requires Find(bs, p).Some?
    ensures Find(Put(bs, p, b), p) == Some(b)
    decreases |p|
  {
    if |p| > 1 {
      PutHere(bs[p[0]].inner, p[1..], b);
    }
  }

  lemma ReplaceElsewhere(body: Body, p: Place, q: Place, b: Block)
    requires IsLeaf(At(body, p)) && IsLeaf(At(body, q)) && b.Leaf? && p != q
    ensures At(Replace(body, p, b), q) == At(body, q)
  {
    if p.inMessages == q.inMessages && p.item == q.item {
      PutElsewhere(ItemsOf(body, p.inMessages).value[p.item].content.value, p.path, q.path, b);
    }
    hide Find, Put;
  }

  lemma ReplaceHere(body: Body, p: Place, b: Block)
    requires At(body, p).Some?
    ensures At(Replace(body, p, b), p) == Some(b)
  {
    PutHere(ItemsOf(body, p.inMessages).value[p.item].content.value, p.path, b);
    hide Find, Put;
  }

  // The candidates

  /** The image that a candidate stands for. */
  predicate IsImage(k: Kind) {
    k == Image || k == ImageUrl || k == InputImage
  }

  ghost predicate Stands(body: Body, c: Candidate) {
    IsLeaf(At(body, c.place)) && IsImage(At(body, c.place).value.kind)
  }

  predicate Distinct(cs: seq<Candidate>) {
    forall i, j :: 0 <= i < j < |cs| ==> cs[i].place != cs[j].place
  }

  // The candidates of one list of blocks

  /** `c` stands for an image of the given kind among the first `n` blocks, or below one of them. */
  ghost predicate Below(bs: seq<Block>, n: nat, inMessages: bool, item: nat, kind: Kind, way: seq<nat>, c: Candidate) {
    && c.place.inMessages == inMessages && c.place.item == item && c.age == item
    && |way| < |c.place.path| && c.place.path[..|way|] == way && c.place.path[|way|] < n
    && IsLeaf(Find(bs, c.place.path[|way|..])) && Find(bs, c.place.path[|way|..]).value.kind == kind
  }

  lemma BelowMore(bs: seq<Block>, m: nat, n: nat, inMessages: bool, item: nat, kind: Kind, way: seq<nat>, c: Candidate)
    requires m <= n && Below(bs, m, inMessages, item, kind, way, c)
    ensures Below(bs, n, inMessages, item, kind, way, c)
  {
  }

  lemma BelowLength(bs: seq<Block>, n: nat, inMessages: bool, item: nat, kind: Kind, way: seq<nat>, c: Candidate)
    requires Below(bs, n, inMessages, item, kind, way, c)
    ensures |way| < |c.place.path|
  {
  }

  lemma BelowDeeper(bs: seq<Block>, m: nat, n: nat, inMessages: bool, item: nat, kind: Kind, way: seq<nat>,
                    c: Candidate)
    requires m < n <= |bs| && bs[m].Result?
    requires Below(bs[m].inner, |bs[m].inner|, inMessages, item, kind, way + [m], c)
    ensures Below(bs, n, inMessages, item, kind, way, c)
  {
    var p := c.place.path;
    assert p[..|way|] == p[..|way| + 1][..|way|] == way;
    assert p[|way|] == p[..|way| + 1][|way|] == m;
    assert p[|way|..][1..] == p[|way| + 1..];
  }

  lemma BelowLeaf(bs: seq<Block>, m: nat, inMessages: bool, item: nat, kind: Kind, way: seq<nat>, c: Candidate)
    requires m < |bs| && bs[m].Leaf? && bs[m].kind == kind
    requires c.place == Place(inMessages, item, way + [m]) && c.age == item
    ensures Below(bs, m + 1, inMessages, item, kind, way, c)
  {
    assert c.place.path[|way|..] == [m];
  }

  lemma {:induction false} ScanBelow(bs: seq<Block>, n: nat, item: nat, way: seq<nat>, inResult: bool, c: Candidate)
    requires n <= |bs| && c in Scan(bs, n, item, way, inResult)
    ensures Below(bs, n, true, item, Image, way, c)
    ensures c.priority == if inResult || |way| + 1 < |c.place.path| then 0 else 1
    decreases bs, n
  {
    hide Below, Find, Scan, ScanOne;
    if n == 0 {
      NothingToScan(bs, item, way, inResult);
    } else {
      ScanMore(bs, n, item, way, inResult);
      if c in Scan(bs, n - 1, item, way, inResult) {
        ScanBelow(bs, n - 1, item, way, inResult, c);
        BelowMore(bs, n - 1, n, true, item, Image, way, c);
      } else if bs[n - 1].Leaf? {
        ScanOneLeaf(bs[n - 1], n - 1, item, way, inResult, c);
        BelowLeaf(bs, n - 1, true, item, Image, way, c);
      } else {
        var inner := bs[n - 1].inner;
        ScanOneResult(bs[n - 1], n - 1, item, way, inResult);
        ScanBelow(inner, |inner|, item, way + [n - 1], true, c);
        BelowLength(inner, |inner|, true, item, Image, way + [n - 1], c);
        BelowDeeper(bs, n - 1, n, true, item, Image, way, c);
      }
    }
  }

  lemma NothingToScan(bs: seq<Block>, item: nat, way: seq<nat>, inResult: bool)
    ensures Scan(bs, 0, item, way, inResult) == []
  {
  }

  lemma ScanOneLeaf(b: Block, n: nat, item: nat, way: seq<nat>, inResult: bool, c: Candidate)
    requires b.Leaf? && c in ScanOne(b, n, item, way, inResult)
    ensures b.kind == Image && c == Candidate(Place(true, item, way + [n]), Notice, if inResult then 0 else 1, item)
  {
  }

  predicate Apart(a: seq<Candidate>, b: seq<Candidate>) {
    forall c, d :: c in a && d in b ==> c.place != d.place
  }

  lemma DistinctConcat(a: seq<Candidate>, b: seq<Candidate>)
    requires Distinct(a) && Distinct(b) && Apart(a, b)
    ensures Distinct(a + b)
  {
    var all := a + b;
    forall i, j | 0 <= i < j < |all|
      ensures all[i].place != all[j].place
    {
      if i < |a| <= j {
        assert all[i] in a && all[j] in b;
      }
    }
  }

  /** The images of block `n` itself. */
  function ScanOne(b: Block, n: nat, item: nat, way: seq<nat>, inResult: bool): seq<Candidate> {
    match b
    case Leaf(kind, _) =>
      if kind == Image then [Candidate(Place(true, item, way + [n]), Notice, if inResult then 0 else 1, item)] else []
    case Result(_, inner) => Scan(inner, |inner|, item, way + [n], true)
  }

  lemma {:induction false} ScanDistinct(bs: seq<Block>, n: nat, item: nat, way: seq<nat>, inResult: bool)
    requires n <= |bs|
    ensures Distinct(Scan(bs, n, item, way, inResult))
    decreases bs, n
  {
    if n > 0 {
      var before, here := Scan(bs, n - 1, item, way, inResult), ScanOne(bs[n - 1], n - 1, item, way, inResult);
      ScanDistinct(bs, n - 1, item, way, inResult);
      if bs[n - 1].Result? {
        ScanDistinct(bs[n - 1].inner, |bs[n - 1].inner|, item, way + [n - 1], true);
      }
      forall c, d | c in before && d in here
        ensures c.place != d.place
      {
        ScanBelow(bs, n - 1, item, way, inResult, c);
        ScanOneAt(bs, n - 1, item, way, inResult, d);
      }
      DistinctConcat(before, here);
    }
  }

  lemma ScanOneAt(bs: seq<Block>, n: nat, item: nat, way: seq<nat>, inResult: bool, d: Candidate)
    requires n < |bs| && d in ScanOne(bs[n], n, item, way, inResult)
    ensures |way| < |d.place.path| && d.place.path[|way|] == n
  {
    if bs[n].Result? {
      ScanBelow(bs[n].inner, |bs[n].inner|, item, way + [n], true, d);
      assert d.place.path[|way|] == d.place.path[..|way| + 1][|way|];
    }
  }

  lemma {:induction false} FlatBelow(bs: seq<Block>, n: nat, kind: Kind, replacement: Kind, inMessages: bool,
                                     item: nat, c: Candidate)
    requires n <= |bs| && c in FlatImages(bs, n, kind, replacement, inMessages, item)
    ensures Below(bs, n, inMessages, item, kind, [], c) && c.priority == 1 && |c.place.path| == 1
  {
    if c in FlatImages(bs, n - 1, kind, replacement, inMessages, item) {
      FlatBelow(bs, n - 1, kind, replacement, inMessages, item, c);
    } else {
      assert c.place.path == [n - 1];
      assert c.place.path[0..] == [n - 1];
    }
  }

  lemma {:induction false} FlatDistinct(bs: seq<Block>, n: nat, kind: Kind, replacement: Kind, inMessages: bool,
                                        item: nat)
    requires n <= |bs|
    ensures Distinct(FlatImages(bs, n, kind, replacement, inMessages, item))
  {
    if n > 0 {
      FlatDistinct(bs, n - 1, kind, replacement, inMessages, item);
      forall c | c in FlatImages(bs, n - 1, kind, replacement, inMessages, item)
        ensures c.place != Place(inMessages, item, [n - 1])
      {
        FlatBelow(bs, n - 1, kind, replacement, inMessages, item, c);
      }
    }
  }

  // The candidates of a list of items

  /** `c` stands for an image of one of the first `n` items, except the one that is kept. */
  ghost predicate Among(items: seq<Item>, n: nat, inMessages: bool, kind: Kind, latest: Option<nat>, c: Candidate) {
    && c.place.item < n && c.place.item < |items| && latest != Some(c.place.item)
    && items[c.place.item].content.Some?
    && var bs := items[c.place.item].content.value;
       Below(bs, |bs|, inMessages, c.place.item, kind, [], c)
  }

  lemma {:induction false} ScanAmong(items: seq<Item>, n: nat, latest: Option<nat>, c: Candidate)
    requires n <= |items| && c in ScanItems(items, n, latest)
    ensures Among(items, n, true, Image, latest, c)
    ensures c.priority == if |c.place.path| > 1 then 0 else 1
  {
    hide ScanItems, ScanItem, Below;
    if n == 0 {
      NothingScanned(items, latest);
    } else {
      ScanItemsSnoc(items, n, latest);
      if c in ScanItems(items, n - 1, latest) {
        ScanAmong(items, n - 1, latest, c);
      } else {
        ScanItemBelow(items, n - 1, latest, c);
      }
    }
  }

  lemma ScanItemBelow(items: seq<Item>, m: nat, latest: Option<nat>, c: Candidate)
    requires m < |items| && c in ScanItem(items, m, latest)
    ensures c.place.item == m && Among(items, m + 1, true, Image, latest, c)
    ensures c.priority == if |c.place.path| > 1 then 0 else 1
  {
    hide Scan, Below;
    var bs := items[m].content.value;
    ScanBelow(bs, |bs|, m, [], false, c);
    BelowItem(bs, |bs|, m, Image, [], c);
  }

  lemma BelowItem(bs: seq<Block>, n: nat, item: nat, kind: Kind, way: seq<nat>, c: Candidate)
    requires Below(bs, n, true, item, kind, way, c)
    ensures c.place.item == item
  {
  }

  lemma NothingScanned(items: seq<Item>, latest: Option<nat>)
    ensures ScanItems(items, 0, latest) == []
  {
  }

  lemma NoneDistinct()
    ensures Distinct([])
  {
  }

  lemma ScanItemsSnoc(items: seq<Item>, n: nat, latest: Option<nat>)
    requires 0 < n <= |items|
    ensures ScanItems(items, n, latest) == ScanItems(items, n - 1, latest) + ScanItem(items, n - 1, latest)
  {
  }

  lemma {:induction false} ScanItemsDistinct(items: seq<Item>, n: nat, latest: Option<nat>)
    requires n <= |items|
    ensures Distinct(ScanItems(items, n, latest))
  {
    hide *;
    if n == 0 {
      NothingScanned(items, latest);
      NoneDistinct();
    } else {
      ScanItemsDistinct(items, n - 1, latest);
      ScanItemsSnoc(items, n, latest);
      ScanItemDistinct(items, n - 1, latest);
      ScanApart(items, n, latest);
      DistinctConcat(ScanItems(items, n - 1, latest), ScanItem(items, n - 1, latest));
    }
  }

  lemma ScanItemDistinct(items: seq<Item>, m: nat, latest: Option<nat>)
    requires m < |items|
    ensures Distinct(ScanItem(items, m, latest))
  {
    if items[m].content.Some? {
      ScanDistinct(items[m].content.value, |items[m].content.value|, m, [], false);
    }
    hide Scan;
  }

  lemma ScanApart(items: seq<Item>, n: nat, latest: Option<nat>)
    requires 0 < n <= |items|
    ensures Apart(ScanItems(items, n - 1, latest), ScanItem(items, n - 1, latest))
  {
    hide Below, ScanItems, ScanItem, Find;
    forall c, d | c in ScanItems(items, n - 1, latest) && d in ScanItem(items, n - 1, latest)
      ensures c.place != d.place
    {
      ScanAmong(items, n - 1, latest, c);
      ScanItemAt(items, n - 1, latest, d);
    }
  }

  lemma ScanItemAt(items: seq<Item>, m: nat, latest: Option<nat>, d: Candidate)
    requires m < |items| && d in ScanItem(items, m, latest)
    ensures d.place.item == m
  {
    ScanBelow(items[m].content.value, |items[m].content.value|, m, [], false, d);
  }

  lemma {:induction false} FlatAmong(items: seq<Item>, n: nat, kind: Kind, replacement: Kind, inMessages: bool,
                                     latest: Option<nat>, c: Candidate)
    requires n <= |items| && c in FlatItems(items, n, kind, replacement, inMessages, latest)
    ensures Among(items, n, inMessages, kind, latest, c) && c.priority == 1 && |c.place.path| == 1
  {
    hide FlatImages, Below, Find;
    if c in FlatItems(items, n - 1, kind, replacement, inMessages, latest) {
      FlatAmong(items, n - 1, kind, replacement, inMessages, latest, c);
    } else {
      var bs := items[n - 1].content.value;
      FlatBelow(bs, |bs|, kind, replacement, inMessages, n - 1, c);
    }
  }

  lemma NothingFlat(items: seq<Item>, kind: Kind, replacement: Kind, inMessages: bool, latest: Option<nat>)
    ensures Distinct(FlatItems(items, 0, kind, replacement, inMessages, latest))
  {
  }

  lemma {:induction false} FlatItemsDistinct(items: seq<Item>, n: nat, kind: Kind, replacement: Kind,
                                             inMessages: bool, latest: Option<nat>)
    requires n <= |items|
    ensures Distinct(FlatItems(items, n, kind, replacement, inMessages, latest))
  {
    hide FlatImages, Below, Find, Distinct;
    if n == 0 {
      NothingFlat(items, kind, replacement, inMessages, latest);
    } else {
      FlatItemsDistinct(items, n - 1, kind, replacement, inMessages, latest);
      if items[n - 1].content.Some? && latest != Some(n - 1) {
        var bs := items[n - 1].content.value;
        var before, here := FlatItems(items, n - 1, kind, replacement, inMessages, latest),
                            FlatImages(bs, |bs|, kind, replacement, inMessages, n - 1);
        FlatDistinct(bs, |bs|, kind, replacement, inMessages, n - 1);
        ItemsApart(items, n, kind, replacement, inMessages, latest);
        DistinctConcat(before, here);
      } else {
        var before := FlatItems(items, n - 1, kind, replacement, inMessages, latest);
        assert before + [] == before;
      }
    }
  }

  lemma ItemsApart(items: seq<Item>, n: nat, kind: Kind, replacement: Kind, inMessages: bool, latest: Option<nat>)
    requires 0 < n <= |items| && items[n - 1].content.Some?
    ensures var bs := items[n - 1].content.value;
            Apart(FlatItems(items, n - 1, kind, replacement, inMessages, latest),
                  FlatImages(bs, |bs|, kind, replacement, inMessages, n - 1))
  {
    hide FlatItems, FlatImages, Below, Find;
    var bs := items[n - 1].content.value;
    forall c, d | c in FlatItems(items, n - 1, kind, replacement, inMessages, latest)
                  && d in FlatImages(bs, |bs|, kind, replacement, inMessages, n - 1)
      ensures c.place != d.place
    {
      FlatAmong(items, n - 1, kind, replacement, inMessages, latest, c);
      FlatBelow(bs, |bs|, kind, replacement, inMessages, n - 1, d);
    }
  }

  // The newest image of a tool result

  lemma {:induction false} LastInResultIs(cs: seq<Candidate>)
    ensures match LastInResult(cs)
            case Some(i) => cs[i].priority == 0 && forall j :: i < j < |cs| ==> cs[j].priority != 0
            case None => forall j :: 0 <= j < |cs| ==> cs[j].priority != 0
  {
    if cs != [] && cs[|cs| - 1].priority != 0 {
      LastInResultIs(cs[..|cs| - 1]);
    }
  }

  /** At most one candidate has priority 2, and it is the last one in a tool result. */
  lemma DemoteOne(cs: seq<Candidate>)
    requires forall c :: c in cs ==> c.priority <= 1
    ensures |Demote(cs)| == |cs|
    ensures forall i :: 0 <= i < |cs| ==>
              && Demote(cs)[i].place == cs[i].place && Demote(cs)[i].age == cs[i].age
              && Demote(cs)[i].priority == if LastInResult(cs) == Some(i) then 2 else cs[i].priority
  {
  }

  // Nothing is missed

  lemma {:induction false} ScanFinds(bs: seq<Block>, n: nat, item: nat, way: seq<nat>, inResult: bool, path: seq<nat>)
    returns (c: Candidate)
    requires n <= |bs| && path != [] && path[0] < n
    requires IsLeaf(Find(bs, path)) && Find(bs, path).value.kind == Image
    ensures c in Scan(bs, n, item, way, inResult) && c.place == Place(true, item, way + path)
    decreases bs, n
  {
    hide Scan, Find, ScanOne;
    ScanMore(bs, n, item, way, inResult);
    if path[0] < n - 1 {
      c := ScanFinds(bs, n - 1, item, way, inResult, path);
    } else if |path| == 1 {
      c := ScanFindsLeaf(bs, n, item, way, inResult, path);
    } else {
      FindDeeper(bs, path);
      var inner := bs[n - 1].inner;
      FoundPath(inner, path[1..]);
      c := ScanFinds(inner, |inner|, item, way + [n - 1], true, path[1..]);
      ScanOneResult(bs[n - 1], n - 1, item, way, inResult);
      assert way + [n - 1] + path[1..] == way + path;
    }
  }

  lemma FindDeeper(bs: seq<Block>, path: seq<nat>)
    requires |path| > 1 && Find(bs, path).Some?
    ensures path[0] < |bs| && bs[path[0]].Result? && Find(bs, path) == Find(bs[path[0]].inner, path[1..])
  {
  }

  lemma ScanOneResult(b: Block, n: nat, item: nat, way: seq<nat>, inResult: bool)
    requires b.Result?
    ensures ScanOne(b, n, item, way, inResult) == Scan(b.inner, |b.inner|, item, way + [n], true)
  {
  }

  lemma ScanFindsLeaf(bs: seq<Block>, n: nat, item: nat, way: seq<nat>, inResult: bool, path: seq<nat>)
    returns (c: Candidate)
    requires 0 < n <= |bs| && |path| == 1 && path[0] == n - 1
    requires IsLeaf(Find(bs, path)) && Find(bs, path).value.kind == Image
    ensures c in ScanOne(bs[n - 1], n - 1, item, way, inResult) && c.place == Place(true, item, way + path)
  {
    assert path == [n - 1];
    c := Candidate(Place(true, item, way + [n - 1]), Notice, if inResult then 0 else 1, item);
  }

  lemma {:induction false} ScanItemsFinds(items: seq<Item>, n: nat, latest: Option<nat>, item: nat, path: seq<nat>)
    returns (c: Candidate)
    requires item < n <= |items| && latest != Some(item) && items[item].content.Some?
    requires IsLeaf(Find(items[item].content.value, path)) && Find(items[item].content.value, path).value.kind == Image
    ensures c in ScanItems(items, n, latest) && c.place == Place(true, item, path)
    decreases n
  {
    hide Scan, Find;
    ScanItemsSnoc(items, n, latest);
    if item < n - 1 {
      c := ScanItemsFinds(items, n - 1, latest, item, path);
    } else {
      var bs := items[item].content.value;
      FoundPath(bs, path);
      c := ScanFinds(bs, |bs|, item, [], false, path);
      assert [] + path == path;
    }
  }

  lemma FoundPath(bs: seq<Block>, path: seq<nat>)
    requires Find(bs, path).Some?
    ensures path != [] && path[0] < |bs|
  {
  }

  lemma {:induction false} FlatFinds(bs: seq<Block>, n: nat, kind: Kind, replacement: Kind, inMessages: bool,
                                     item: nat, k: nat)
    requires k < n <= |bs| && bs[k].Leaf? && bs[k].kind == kind
    ensures Candidate(Place(inMessages, item, [k]), replacement, 1, item)
         in FlatImages(bs, n, kind, replacement, inMessages, item)
    decreases n
  {
    if k < n - 1 {
      FlatFinds(bs, n - 1, kind, replacement, inMessages, item, k);
    }
  }

  lemma {:induction false} FlatItemsFinds(items: seq<Item>, n: nat, kind: Kind, replacement: Kind, inMessages: bool,
                                          latest: Option<nat>, item: nat, k: nat)
    requires item < n <= |items| && latest != Some(item) && items[item].content.Some?
    requires var bs := items[item].content.value; k < |bs| && bs[k].Leaf? && bs[k].kind == kind
    ensures Candidate(Place(inMessages, item, [k]), replacement, 1, item)
         in FlatItems(items, n, kind, replacement, inMessages, latest)
    decreases n
  {
    hide FlatImages;
    if item < n - 1 {
      FlatItemsFinds(items, n - 1, kind, replacement, inMessages, latest, item, k);
    } else {
      FlatFinds(items[item].content.value, |items[item].content.value|, kind, replacement, inMessages, item, k);
    }
  }

  // All candidates

  /** A block at `p` is an image of the given kind, but not of item `latest`. */
  predicate ImageAt(body: Body, p: Place, kind: Kind, latest: Option<nat>) {
    IsLeaf(At(body, p)) && At(body, p).value.kind == kind && latest != Some(p.item)
  }

  /** An Anthropic image, at any depth, outside the newest prompt message. */
  predicate OldImage(body: Body, p: Place) {
    p.inMessages && body.messages.Some? && ImageAt(body, p, Image, LastIndex(body.messages.value, IsPromptItem()))
  }

  /** An OpenAI Chat image outside the newest user message. */
  predicate OldImageUrl(body: Body, p: Place) {
    && p.inMessages && body.messages.Some? && |p.path| == 1
    && ImageAt(body, p, ImageUrl, LastIndex(body.messages.value, IsUser()))
  }

  /** A Responses image outside the newest user message. */
  predicate OldInputImage(body: Body, p: Place) {
    && !p.inMessages && body.input.Some? && |p.path| == 1
    && ImageAt(body, p, InputImage, LastIndex(body.input.value, IsResponsesUser()))
  }

  predicate Replaceable(body: Body, p: Place) {
    OldImage(body, p) || OldImageUrl(body, p) || OldInputImage(body, p)
  }

  lemma AmongAt(body: Body, inMessages: bool, n: nat, kind: Kind, latest: Option<nat>, c: Candidate)
    requires ItemsOf(body, inMessages).Some? && Among(ItemsOf(body, inMessages).value, n, inMessages, kind, latest, c)
    ensures c.place.inMessages == inMessages && ImageAt(body, c.place, kind, latest) && c.age == c.place.item
  {
    assert c.place.path[0..] == c.place.path;
  }

  lemma DemotePlaces(cs: seq<Candidate>, c: Candidate)
    requires (forall d :: d in cs ==> d.priority <= 1) && c in Demote(cs)
    ensures exists d :: d in cs && d.place == c.place && d.age == c.age
  {
    DemoteOne(cs);
    var i :| 0 <= i < |cs| && Demote(cs)[i] == c;
    assert cs[i] in cs;
  }

  lemma AnthropicSound(body: Body, c: Candidate)
    requires body.messages.Some? && c in AnthropicImages(body.messages.value)
    ensures OldImage(body, c.place) && c.age == c.place.item
  {
    var items := body.messages.value;
    var latest := LastIndex(items, IsPromptItem());
    var cs := ScanItems(items, |items|, latest);
    forall d | d in cs
      ensures d.priority <= 1 && Among(items, |items|, true, Image, latest, d)
    {
      ScanAmong(items, |items|, latest, d);
    }
    DemotePlaces(cs, c);
    hide Demote, ScanItems, Among, ImageAt, LastIndex;
    var d :| d in cs && d.place == c.place && d.age == c.age;
    AmongAt(body, true, |items|, Image, latest, d);
  }

  lemma ChatSound(body: Body, c: Candidate)
    requires body.messages.Some? && c in ChatImages(body.messages.value)
    ensures OldImageUrl(body, c.place) && c.priority == 1 && c.age == c.place.item
  {
    hide FlatItems, Among, ImageAt, LastIndex;
    var items := body.messages.value;
    FlatAmong(items, |items|, ImageUrl, Notice, true, LastIndex(items, IsUser()), c);
    AmongAt(body, true, |items|, ImageUrl, LastIndex(items, IsUser()), c);
  }

  lemma ResponsesSound(body: Body, c: Candidate)
    requires body.input.Some? && c in ResponsesImages(body.input.value)
    ensures OldInputImage(body, c.place) && c.priority == 1 && c.age == c.place.item
  {
    hide FlatItems, Among, ImageAt, LastIndex;
    var items := body.input.value;
    FlatAmong(items, |items|, InputImage, InputNotice, false, LastIndex(items, IsResponsesUser()), c);
    AmongAt(body, false, |items|, InputImage, LastIndex(items, IsResponsesUser()), c);
  }

  lemma CandidateSound(body: Body, c: Candidate)
    requires c in Candidates(body)
    ensures Replaceable(body, c.place) && c.age == c.place.item
  {
    hide AnthropicImages, ChatImages, ResponsesImages, OldImage, OldImageUrl, OldInputImage;
    if body.messages.Some? && c in AnthropicImages(body.messages.value) {
      AnthropicSound(body, c);
    } else if body.messages.Some? && c in ChatImages(body.messages.value) {
      ChatSound(body, c);
    } else {
      ResponsesSound(body, c);
    }
  }

  lemma AtItem(body: Body, p: Place)
    requires At(body, p).Some?
    ensures ItemsOf(body, p.inMessages).Some?
    ensures var items := ItemsOf(body, p.inMessages).value;
            && p.item < |items| && items[p.item].content.Some?
            && At(body, p) == Find(items[p.item].content.value, p.path)
  {
  }

  lemma FindsImage(body: Body, p: Place) returns (c: Candidate)
    requires OldImage(body, p)
    ensures c in ScanItems(body.messages.value, |body.messages.value|, LastIndex(body.messages.value, IsPromptItem()))
    ensures c.place == p
  {
    hide At, Find, LastIndex, ScanItems;
    AtItem(body, p);
    var items := body.messages.value;
    c := ScanItemsFinds(items, |items|, LastIndex(items, IsPromptItem()), p.item, p.path);
  }

  lemma FlatPath(bs: seq<Block>, path: seq<nat>)
    requires |path| == 1 && Find(bs, path).Some?
    ensures path == [path[0]] && path[0] < |bs| && Find(bs, path) == Some(bs[path[0]])
  {
  }

  lemma FindsImageUrl(body: Body, p: Place) returns (c: Candidate)
    requires OldImageUrl(body, p)
    ensures c in ChatImages(body.messages.value) && c.place == p
  {
    hide At, Find, LastIndex, FlatItems;
    AtItem(body, p);
    var items := body.messages.value;
    FlatPath(items[p.item].content.value, p.path);
    FlatItemsFinds(items, |items|, ImageUrl, Notice, true, LastIndex(items, IsUser()), p.item, p.path[0]);
    c := Candidate(p, Notice, 1, p.item);
  }

  lemma FindsInputImage(body: Body, p: Place) returns (c: Candidate)
    requires OldInputImage(body, p)
    ensures c in ResponsesImages(body.input.value) && c.place == p
  {
    hide At, Find, LastIndex, FlatItems;
    AtItem(body, p);
    var items := body.input.value;
    FlatPath(items[p.item].content.value, p.path);
    FlatItemsFinds(items, |items|, InputImage, InputNotice, false, LastIndex(items, IsResponsesUser()), p.item,
                   p.path[0]);
    c := Candidate(p, InputNotice, 1, p.item);
  }

  predicate HasPlace(cs: seq<Candidate>, p: Place) {
    exists i :: 0 <= i < |cs| && cs[i].place == p
  }

  lemma DemoteKeepsPlace(cs: seq<Candidate>, c: Candidate)
    requires (forall d :: d in cs ==> d.priority <= 1) && c in cs
    ensures HasPlace(Demote(cs), c.place)
  {
    DemoteOne(cs);
    var i :| 0 <= i < |cs| && cs[i] == c;
    assert Demote(cs)[i].place == c.place;
  }

  lemma HasPlaceIn(body: Body, part: seq<Candidate>, before: seq<Candidate>, after: seq<Candidate>, p: Place)
    requires Candidates(body) == before + part + after && HasPlace(part, p)
    ensures HasPlace(Candidates(body), p)
  {
    hide Candidates;
    var i :| 0 <= i < |part| && part[i].place == p;
    assert (before + part + after)[|before| + i].place == p;
  }

  /**
   The candidates are exactly the Anthropic images outside the newest prompt message, nested ones
   included, and the chat and Responses images outside the newest user message.
   */
  lemma CandidatesAreReplaceable(body: Body, p: Place)
    ensures HasPlace(Candidates(body), p) <==> Replaceable(body, p)
  {
    hide OldImage, OldImageUrl, OldInputImage, AnthropicImages, ChatImages, ResponsesImages;
    if i :| 0 <= i < |Candidates(body)| && Candidates(body)[i].place == p {
      CandidateSound(body, Candidates(body)[i]);
    }
    if OldImage(body, p) {
      OldImagesFound(body, p);
    } else if OldImageUrl(body, p) {
      var c := FindsImageUrl(body, p) by { UrlMessages(body, p); }
      UrlMessages(body, p);
      var items := body.messages.value;
      assert HasPlace(ChatImages(items), p);
      HasPlaceIn(body, ChatImages(items), AnthropicImages(items),
                 Candidates(body)[|AnthropicImages(items) + ChatImages(items)|..], p);
    } else if OldInputImage(body, p) {
      InputItems(body, p);
      var c := FindsInputImage(body, p);
      var images := ResponsesImages(body.input.value);
      assert HasPlace(images, p);
      HasPlaceIn(body, images, Candidates(body)[..|Candidates(body)| - |images|], [], p);
    }
  }

  lemma UrlMessages(body: Body, p: Place)
    requires OldImageUrl(body, p)
    ensures body.messages.Some?
  {
  }

  lemma InputItems(body: Body, p: Place)
    requires OldInputImage(body, p)
    ensures body.input.Some?
  {
  }

  lemma OldImagesFound(body: Body, p: Place)
    requires OldImage(body, p)
    ensures HasPlace(Candidates(body), p)
  {
    hide ImageAt, LastIndex, ScanItems, ChatImages, ResponsesImages, Demote;
    var items := body.messages.value;
    var latest := LastIndex(items, IsPromptItem());
    var cs := ScanItems(items, |items|, latest);
    var c := FindsImage(body, p);
    forall d | d in cs
      ensures d.priority <= 1
    {
      ScanAmong(items, |items|, latest, d);
    }
    DemoteKeepsPlace(cs, c);
    var images := AnthropicImages(items);
    HasPlaceIn(body, images, [], Candidates(body)[|images|..], p);
  }

  lemma AnthropicDistinct(items: seq<Item>)
    ensures Distinct(AnthropicImages(items))
  {
    var latest := LastIndex(items, IsPromptItem());
    var cs := ScanItems(items, |items|, latest);
    ScanItemsDistinct(items, |items|, latest);
    forall d | d in cs
      ensures d.priority <= 1
    {
      ScanAmong(items, |items|, latest, d);
    }
    DemoteOne(cs);
    hide Demote, ScanItems, Among, LastIndex;
  }

  lemma MessagesDistinct(body: Body)
    requires body.messages.Some?
    ensures Distinct(AnthropicImages(body.messages.value) + ChatImages(body.messages.value))
  {
    hide AnthropicImages, At, Distinct, LastIndex;
    var items := body.messages.value;
    AnthropicDistinct(items);
    FlatItemsDistinct(items, |items|, ImageUrl, Notice, true, LastIndex(items, IsUser()));
    hide ChatImages;
    forall c, d | c in AnthropicImages(items) && d in ChatImages(items)
      ensures c.place != d.place
    {
      AnthropicSound(body, c);
      ChatSound(body, d);
    }
    DistinctConcat(AnthropicImages(items), ChatImages(items));
  }

  lemma ResponsesDistinct(items: seq<Item>)
    ensures Distinct(ResponsesImages(items))
  {
    hide Distinct, LastIndex;
    FlatItemsDistinct(items, |items|, InputImage, InputNotice, false, LastIndex(items, IsResponsesUser()));
  }

  /** No two candidates stand for the same image. */
  lemma CandidatesDistinct(body: Body)
    ensures Distinct(Candidates(body))
  {
    hide AnthropicImages, ChatImages, ResponsesImages, ImageAt;
    var a := if body.messages.Some? then AnthropicImages(body.messages.value) + ChatImages(body.messages.value) else [];
    var b := if body.input.Some? then ResponsesImages(body.input.value) else [];
    if body.messages.Some? { MessagesDistinct(body); }
    if body.input.Some? { ResponsesDistinct(body.input.value); }
    forall c, d | c in a && d in b
      ensures c.place != d.place
    {
      if c in AnthropicImages(body.messages.value) {
        AnthropicSound(body, c);
      } else {
        ChatSound(body, c);
      }
      ResponsesSound(body, d);
    }
    hide Distinct;
    DistinctConcat(a, b);
  }

  // The order in which they go

  /** The place of an image inside a tool result, outside the newest prompt message. */
  predicate OldToolImage(body: Body, p: Place) {
    OldImage(body, p) && |p.path| > 1
  }

  predicate PathBefore(p: seq<nat>, q: seq<nat>) {
    exists k :: 0 <= k < |p| && k < |q| && p[..k] == q[..k] && p[k] < q[k]
  }

  /** `p` comes before `q` in the serialized messages. */
  predicate WireBefore(p: Place, q: Place) {
    p.item < q.item || (p.item == q.item && PathBefore(p.path, q.path))
  }

  predicate InWireOrder(cs: seq<Candidate>) {
    forall i, j :: 0 <= i < j < |cs| ==> WireBefore(cs[i].place, cs[j].place)
  }

  lemma WireOrderConcat(a: seq<Candidate>, b: seq<Candidate>)
    requires InWireOrder(a) && InWireOrder(b)
    requires forall c, d :: c in a && d in b ==> WireBefore(c.place, d.place)
    ensures InWireOrder(a + b)
  {
    hide WireBefore;
    var all := a + b;
    forall i, j | 0 <= i < j < |all|
      ensures WireBefore(all[i].place, all[j].place)
    {
      if i < |a| <= j {
        assert all[i] in a && all[j] in b;
      }
    }
  }

  lemma PathsSplit(way: seq<nat>, p: seq<nat>, q: seq<nat>)
    requires |way| < |p| && |way| < |q| && p[..|way|] == way && q[..|way|] == way && p[|way|] < q[|way|]
    ensures PathBefore(p, q)
  {
  }

  lemma {:induction false} ScanInOrder(bs: seq<Block>, n: nat, item: nat, way: seq<nat>, inResult: bool)
    requires n <= |bs|
    ensures InWireOrder(Scan(bs, n, item, way, inResult))
    decreases bs, n
  {
    hide WireBefore, InWireOrder, ScanOne;
    if n == 0 {
      NothingInOrder();
    } else {
      var before, here := Scan(bs, n - 1, item, way, inResult), ScanOne(bs[n - 1], n - 1, item, way, inResult);
      ScanInOrder(bs, n - 1, item, way, inResult);
      if bs[n - 1].Result? {
        ScanInOrder(bs[n - 1].inner, |bs[n - 1].inner|, item, way + [n - 1], true);
      }
      ScanOneInOrder(bs[n - 1], n - 1, item, way, inResult);
      ScanMore(bs, n, item, way, inResult);
      hide Scan;
      forall c, d | c in before && d in here
        ensures WireBefore(c.place, d.place)
      {
        ScanBefore(bs, n, item, way, inResult, c, d);
      }
      WireOrderConcat(before, here);
    }
  }

  lemma ScanMore(bs: seq<Block>, n: nat, item: nat, way: seq<nat>, inResult: bool)
    requires 0 < n <= |bs|
    ensures Scan(bs, n, item, way, inResult)
         == Scan(bs, n - 1, item, way, inResult) + ScanOne(bs[n - 1], n - 1, item, way, inResult)
  {
  }

  lemma NothingInOrder()
    ensures InWireOrder([])
  {
  }

  lemma ScanOneInOrder(b: Block, n: nat, item: nat, way: seq<nat>, inResult: bool)
    requires b.Result? ==> InWireOrder(Scan(b.inner, |b.inner|, item, way + [n], true))
    ensures InWireOrder(ScanOne(b, n, item, way, inResult))
  {
    hide WireBefore, Scan;
  }

  lemma ScanBefore(bs: seq<Block>, n: nat, item: nat, way: seq<nat>, inResult: bool, c: Candidate, d: Candidate)
    requires 0 < n <= |bs| && c in Scan(bs, n - 1, item, way, inResult)
    requires d in ScanOne(bs[n - 1], n - 1, item, way, inResult)
    ensures WireBefore(c.place, d.place)
  {
    hide Below, Find, Scan, ScanOne, PathBefore;
    ScanBelow(bs, n - 1, item, way, inResult, c);
    BelowPath(bs, n - 1, item, way, c);
    ScanMore(bs, n, item, way, inResult);
    assert d in Scan(bs, n, item, way, inResult);
    ScanBelow(bs, n, item, way, inResult, d);
    BelowPath(bs, n, item, way, d);
    ScanOneAt(bs, n - 1, item, way, inResult, d);
    PathsSplit(way, c.place.path, d.place.path);
  }

  lemma BelowPath(bs: seq<Block>, n: nat, item: nat, way: seq<nat>, c: Candidate)
    requires Below(bs, n, true, item, Image, way, c)
    ensures c.place.item == item && |way| < |c.place.path|
    ensures c.place.path[..|way|] == way && c.place.path[|way|] < n
  {
  }

  lemma ScanItemInOrder(items: seq<Item>, m: nat, latest: Option<nat>)
    requires m < |items|
    ensures InWireOrder(ScanItem(items, m, latest))
  {
    hide Scan, WireBefore;
    if items[m].content.Some? {
      ScanInOrder(items[m].content.value, |items[m].content.value|, m, [], false);
    }
  }

  lemma {:induction false} ScanItemsInOrder(items: seq<Item>, n: nat, latest: Option<nat>)
    requires n <= |items|
    ensures InWireOrder(ScanItems(items, n, latest))
  {
    hide ScanItem, Below, PathBefore, Find;
    if n > 0 {
      ScanItemsInOrder(items, n - 1, latest);
      ScanItemInOrder(items, n - 1, latest);
      forall c, d | c in ScanItems(items, n - 1, latest) && d in ScanItem(items, n - 1, latest)
        ensures WireBefore(c.place, d.place)
      {
        ScanAmong(items, n - 1, latest, c);
        ScanItemAt(items, n - 1, latest, d);
      }
      WireOrderConcat(ScanItems(items, n - 1, latest), ScanItem(items, n - 1, latest));
    }
  }

  /** The newest image of a tool result: no other one comes after it. */
  ghost predicate NewestToolImage(body: Body, p: Place) {
    OldToolImage(body, p) && forall q :: OldToolImage(body, q) && q != p ==> WireBefore(q, p)
  }

  /** The candidate that is put last is the newest image of a tool result. */
  lemma LastInResultIsNewest(body: Body)
    requires body.messages.Some?
    ensures var cs := ScanItems(body.messages.value, |body.messages.value|,
                                LastIndex(body.messages.value, IsPromptItem()));
            && (LastInResult(cs).Some? ==> NewestToolImage(body, cs[LastInResult(cs).value].place))
            && (LastInResult(cs).None? ==> forall q :: !OldToolImage(body, q))
  {
    hide ScanItems, LastIndex, OldImage, WireBefore, LastInResult;
    var items := body.messages.value;
    var cs := ScanItems(items, |items|, LastIndex(items, IsPromptItem()));
    LastInResultIs(cs);
    ScanItemsInOrder(items, |items|, LastIndex(items, IsPromptItem()));
    forall q | OldToolImage(body, q)
      ensures LastInResult(cs).Some?
      ensures q == cs[LastInResult(cs).value].place || WireBefore(q, cs[LastInResult(cs).value].place)
    {
      var c := FindsImage(body, q);
      ScanAmong(items, |items|, LastIndex(items, IsPromptItem()), c);
      var i :| 0 <= i < |cs| && cs[i] == c;
    }
    if LastInResult(cs).Some? {
      var c := cs[LastInResult(cs).value];
      ScanAmong(items, |items|, LastIndex(items, IsPromptItem()), c);
      ScannedIsOld(body, c);
    }
  }

  lemma ScannedIsOld(body: Body, c: Candidate)
    requires body.messages.Some?
    requires c in ScanItems(body.messages.value, |body.messages.value|, LastIndex(body.messages.value, IsPromptItem()))
    ensures OldImage(body, c.place)
  {
    hide ScanItems, LastIndex, Among, ImageAt;
    var items := body.messages.value;
    ScanAmong(items, |items|, LastIndex(items, IsPromptItem()), c);
    AmongAt(body, true, |items|, Image, LastIndex(items, IsPromptItem()), c);
  }

  /** The rank of a place: old tool images go first, then the other images, then the newest tool image. */
  ghost function RankOf(body: Body, p: Place): nat {
    if NewestToolImage(body, p) then 2 else if OldToolImage(body, p) then 0 else 1
  }

  lemma AnthropicRank(body: Body, c: Candidate)
    requires body.messages.Some? && c in AnthropicImages(body.messages.value)
    ensures c.priority == RankOf(body, c.place)
  {
    hide ScanItems, LastIndex, OldImage, WireBefore, Among, LastInResult, Demote;
    var items := body.messages.value;
    var latest := LastIndex(items, IsPromptItem());
    var cs := ScanItems(items, |items|, latest);
    forall d | d in cs
      ensures d.priority == if |d.place.path| > 1 then 0 else 1
    {
      ScanAmong(items, |items|, latest, d);
    }
    DemoteOne(cs);
    var i :| 0 <= i < |cs| && Demote(cs)[i] == c;
    LastInResultIsNewest(body);
    ScannedIsOld(body, cs[i]);
    if LastInResult(cs).Some? && LastInResult(cs).value != i && NewestToolImage(body, c.place) {
      var last := cs[LastInResult(cs).value];
      ScanItemsDistinct(items, |items|, latest);
      WireIrreflexive(c.place, last.place);
    }
    if LastInResult(cs) == Some(i) {
      assert c.priority == 2;
    }
  }

  lemma WireIrreflexive(p: Place, q: Place)
    ensures !(WireBefore(p, q) && WireBefore(q, p))
  {
    if p.item == q.item && PathBefore(p.path, q.path) && PathBefore(q.path, p.path) {
      var k :| 0 <= k < |p.path| && k < |q.path| && p.path[..k] == q.path[..k] && p.path[k] < q.path[k];
      var l :| 0 <= l < |p.path| && l < |q.path| && q.path[..l] == p.path[..l] && q.path[l] < p.path[l];
      SamePrefix(p.path, q.path, k, l);
      SamePrefix(p.path, q.path, l, k);
    }
  }

  lemma SamePrefix(p: seq<nat>, q: seq<nat>, k: nat, l: nat)
    requires l <= |p| && l <= |q| && p[..l] == q[..l]
    ensures k < l ==> p[k] == q[k]
  {
    if k < l {
      assert p[..l][k] == q[..l][k];
    }
  }

  /** What a candidate's place in the order depends on. */
  lemma CandidateRank(body: Body, c: Candidate)
    requires c in Candidates(body)
    ensures c.priority == RankOf(body, c.place) && c.age == c.place.item
  {
    hide AnthropicImages, ChatImages, ResponsesImages, ImageAt, WireBefore;
    CandidateSound(body, c);
    if body.messages.Some? && c in AnthropicImages(body.messages.value) {
      AnthropicRank(body, c);
    } else if body.messages.Some? && c in ChatImages(body.messages.value) {
      ChatSound(body, c);
    } else {
      ResponsesSound(body, c);
    }
  }
}
