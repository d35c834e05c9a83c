/** The compaction itself, and what it guarantees. */
module CompactionRun {
  import opened Common
  import opened Compaction
  import opened CompactionTheorems

  // Sorting

  predicate Sorted(cs: seq<Candidate>) {
    forall i, j :: 0 <= i < j < |cs| ==> Before(cs[i], cs[j])
  }

  lemma {:induction false} InsertSorts(cs: seq<Candidate>, c: Candidate)
    requires Sorted(cs)
    ensures Sorted(Insert(cs, c)) && multiset(Insert(cs, c)) == multiset(cs) + multiset{c}
    decreases |cs|
  {
    if cs != [] && !Before(cs[|cs| - 1], c) {
      var init, last := cs[..|cs| - 1], cs[|cs| - 1];
      assert cs == init + [last];
      InsertSorts(init, c);
      var r := Insert(init, c);
      assert Insert(cs, c) == r + [last];
      hide Insert;
      forall i | 0 <= i < |r|
        ensures Before(r[i], last)
      {
        assert r[i] in multiset(r);
        assert r[i] in init || r[i] == c;
      }
    }
  }

  lemma {:induction false} SortSorts(cs: seq<Candidate>)
    ensures Sorted(Sort(cs)) && multiset(Sort(cs)) == multiset(cs) && |Sort(cs)| == |cs|
    decreases |cs|
  {
    if cs != [] {
      SortSorts(cs[..|cs| - 1]);
      InsertSorts(Sort(cs[..|cs| - 1]), cs[|cs| - 1]);
      assert cs == cs[..|cs| - 1] + [cs[|cs| - 1]];
    }
    assert |Sort(cs)| == |multiset(Sort(cs))| && |cs| == |multiset(cs)|;
  }

  lemma SortMember(cs: seq<Candidate>, c: Candidate)
    ensures c in Sort(cs) <==> c in cs
  {
    SortSorts(cs);
    assert c in Sort(cs) <==> c in multiset(Sort(cs));
    assert c in cs <==> c in multiset(cs);
  }

  /** Candidates of different places, in whatever order. */
  lemma DistinctSorted(cs: seq<Candidate>)
    requires Distinct(cs)
    ensures Distinct(Sort(cs))
  {
    SortSorts(cs);
    var s := Sort(cs);
    hide Sort, Sorted;
    forall i, j | 0 <= i < j < |s|
      ensures s[i].place != s[j].place
    {
      SamePlaceSame(cs, s, i, j);
    }
  }

  lemma SamePlaceSame(cs: seq<Candidate>, s: seq<Candidate>, i: nat, j: nat)
    requires Distinct(cs) && multiset(s) == multiset(cs) && i < j < |s|
    ensures s[i].place != s[j].place
  {
    assert s[i] in multiset(s) && s[j] in multiset(s);
    assert s[i] in cs && s[j] in cs;
    if s[i].place == s[j].place {
      assert s[i] == s[j];
      TwiceIn(s, i, j);
      OnceIn(cs, s[i]);
    }
  }

  lemma TwiceIn(s: seq<Candidate>, i: nat, j: nat)
    requires i < j < |s| && s[i] == s[j]
    ensures multiset(s)[s[i]] >= 2
  {
    assert s == s[..i] + [s[i]] + s[i + 1..j] + [s[j]] + s[j + 1..];
  }

  lemma {:induction false} OnceIn(cs: seq<Candidate>, c: Candidate)
    requires Distinct(cs)
    ensures multiset(cs)[c] <= 1
    decreases |cs|
  {
    if cs != [] {
      var init, last := cs[..|cs| - 1], cs[|cs| - 1];
      assert cs == init + [last];
      OnceIn(init, c);
      assert forall i :: 0 <= i < |init| ==> init[i] == cs[i] && cs[i].place != cs[|cs| - 1].place;
      assert last !in init;
    }
  }

  // Replacing the first ones

  /** Candidates of the body, sorted. */
  ghost predicate Ready(body: Body, cs: seq<Candidate>) {
    Distinct(cs) && forall i :: 0 <= i < |cs| ==> Stands(body, cs[i])
  }

  lemma CandidatesReady(body: Body)
    ensures Ready(body, Sort(Candidates(body)))
  {
    var cs := Candidates(body);
    CandidatesDistinct(body);
    DistinctSorted(cs);
    forall i | 0 <= i < |Sort(cs)|
      ensures Stands(body, Sort(cs)[i])
    {
      SortMember(cs, Sort(cs)[i]);
      CandidateSound(body, Sort(cs)[i]);
    }
    hide Sort, Candidates, Stands, Distinct;
  }

  /** The place of a candidate is not one of those that were replaced. */
  predicate Spared(cs: seq<Candidate>, k: nat, p: Place)
    requires k <= |cs|
  {
    forall i :: 0 <= i < k ==> cs[i].place != p
  }

  /** After the first `k`: those are notices, and every other leaf is as it was. */
  lemma {:induction false} ReplacedFirst(n: Notices, body: Body, cs: seq<Candidate>, k: nat)
    requires Ready(body, cs) && k <= |cs|
    ensures var b := ReplaceFirst(n, body, cs, k);
            && (forall i :: 0 <= i < k ==> At(b, cs[i].place) == Some(NoticeFor(n, cs[i])))
            && (forall p :: IsLeaf(At(body, p)) && Spared(cs, k, p) ==> At(b, p) == At(body, p))
  {
    hide At, Replace, BodySize;
    if k > 0 {
      ReplacedFirst(n, body, cs, k - 1);
      var b, c := ReplaceFirst(n, body, cs, k - 1), cs[k - 1];
      assert Stands(body, c) && Spared(cs, k - 1, c.place);
      var b1 := Replace(b, c.place, NoticeFor(n, c));
      ReplaceHere(b, c.place, NoticeFor(n, c));
      forall p | IsLeaf(At(b, p)) && p != c.place
        ensures At(b1, p) == At(b, p)
      {
        ReplaceElsewhere(b, c.place, p, NoticeFor(n, c));
      }
      assert ReplaceFirst(n, body, cs, k) == b1;
      hide ReplaceFirst;
      forall p | IsLeaf(At(body, p)) && Spared(cs, k, p)
        ensures At(b1, p) == At(body, p)
      {
        assert Spared(cs, k - 1, p);
      }
    }
  }

  /** So the next candidate is still there, and the size changes by the difference. */
  lemma NextReplaced(n: Notices, body: Body, cs: seq<Candidate>, k: nat)
    requires Ready(body, cs) && k < |cs|
    ensures var b := ReplaceFirst(n, body, cs, k);
            && At(b, cs[k].place) == At(body, cs[k].place) && At(b, cs[k].place).Some?
            && ReplaceFirst(n, body, cs, k + 1) == Replace(b, cs[k].place, NoticeFor(n, cs[k]))
            && BodySize(ReplaceFirst(n, body, cs, k + 1))
               == BodySize(b) - Size(At(b, cs[k].place).value) + Size(NoticeFor(n, cs[k]))
  {
    ReplacedFirst(n, body, cs, k);
    assert Stands(body, cs[k]) && Spared(cs, k, cs[k].place);
    ReplaceSize(ReplaceFirst(n, body, cs, k), cs[k].place, NoticeFor(n, cs[k]));
    hide At, Replace, BodySize, Size;
  }

  /** Before the `k`-th replacement the body was too large. */
  predicate TooLargeBefore(n: Notices, body: Body, cs: seq<Candidate>, target: int, k: nat)
    requires k <= |cs|
  {
    forall j :: 0 <= j < k ==> BodySize(ReplaceFirst(n, body, cs, j)) > target
  }

  /** `k` candidates are just enough, or all there are. */
  predicate Enough(n: Notices, body: Body, cs: seq<Candidate>, target: int, k: nat)
    requires k <= |cs|
  {
    TooLargeBefore(n, body, cs, target, k) && (BodySize(ReplaceFirst(n, body, cs, k)) <= target || k == |cs|)
  }

  /** Replace candidates in order until the size, which is tracked by the differences, is within the target. */
  method ReplaceUntilSmall(n: Notices, body: Body, cs: seq<Candidate>, target: int) returns (current: Body, k: nat)
    requires Ready(body, cs) && cs != [] && BodySize(body) > target
    ensures 0 < k <= |cs| && current == ReplaceFirst(n, body, cs, k) && Enough(n, body, cs, target, k)
  {
    hide Ready, ReplaceFirst, At, Replace, BodySize, Size;
    StartReplacing(n, body, cs);
    var estimated := BodySize(body);
    current, k := body, 0;
    while k < |cs| && estimated > target
      invariant k <= |cs| && current == ReplaceFirst(n, body, cs, k) && estimated == BodySize(current)
      invariant TooLargeBefore(n, body, cs, target, k) && (k == 0 ==> estimated > target)
    {
      var c := cs[k];
      NextReplaced(n, body, cs, k);
      var previousBytes := Size(At(current, c.place).value);
      current := Replace(current, c.place, NoticeFor(n, c));
      estimated := estimated + Size(NoticeFor(n, c)) - previousBytes;
      k := k + 1;
    }
  }

  /** The compaction: nothing to do, or as many images as needed are replaced. */
  method CompactOversizedImageHistory(n: Notices, body: Body, target: int) returns (r: Option<Body>, replaced: nat)
    ensures r.None? <==> target <= 0 || Candidates(body) == [] || BodySize(body) <= target
    ensures r.Some? ==>
              && 0 < replaced <= |Sort(Candidates(body))|
              && r.value == ReplaceFirst(n, body, Sort(Candidates(body)), replaced)
              && Enough(n, body, Sort(Candidates(body)), target, replaced)
  {
    if target <= 0 {
      return None, 0;
    }
    var candidates := Candidates(body);
    if |candidates| == 0 {
      return None, 0;
    }
    if BodySize(body) <= target {
      return None, 0;
    }
    SortSorts(candidates);
    CandidatesReady(body);
    hide Candidates, Sort, Sorted, Ready, ReplaceFirst, BodySize, Enough;
    var current;
    current, replaced := ReplaceUntilSmall(n, body, Sort(candidates), target);
    return Some(current), replaced;
  }

  lemma StartReplacing(n: Notices, body: Body, cs: seq<Candidate>)
    ensures ReplaceFirst(n, body, cs, 0) == body
  {
  }

  // What is kept

  /** The block is a tool result, in whichever form. */
  predicate AnswersTool(b: Block) {
    match b
    case Result(_, _) => true
    case Leaf(kind, _) => kind == PlainResult
  }

  /** Item `i` is the user's, holds something else than tool results, and no later one does. */
  predicate IsNewestPrompt(items: seq<Item>, i: nat) {
    && i < |items| && items[i].user
    && (items[i].content.Some? ==>
          exists k :: 0 <= k < |items[i].content.value| && !AnswersTool(items[i].content.value[k]))
    && forall j :: i < j < |items| && items[j].user ==>
         items[j].content.Some?
         && forall k :: 0 <= k < |items[j].content.value| ==> AnswersTool(items[j].content.value[k])
  }

  lemma NewestPromptIsLast(items: seq<Item>, i: nat)
    requires IsNewestPrompt(items, i)
    ensures LastIndex(items, IsPromptItem()) == Some(i)
  {
    var r := LastIndex(items, IsPromptItem());
    hide LastIndex;
    var p := IsPromptItem();
    assert p(items[i]);
    forall j | i < j < |items|
      ensures !p(items[j])
    {
      assert items[j].user ==> items[j].content.Some?;
    }
  }

  /** No Anthropic image of the newest prompt message is replaced, at any depth. */
  lemma NewestPromptIsKept(n: Notices, body: Body, k: nat, p: Place)
    requires k <= |Sort(Candidates(body))|
    requires body.messages.Some? && p.inMessages && IsNewestPrompt(body.messages.value, p.item)
    requires IsLeaf(At(body, p)) && At(body, p).value.kind == Image
    ensures At(ReplaceFirst(n, body, Sort(Candidates(body)), k), p) == At(body, p)
  {
    NewestPromptIsLast(body.messages.value, p.item);
    hide IsNewestPrompt;
    KeptUnlessReplaceable(n, body, k, p);
  }

  /** No image of the newest user message is replaced: of the chat's, and of the newest one that Responses counts. */
  lemma NewestUserIsKept(n: Notices, body: Body, k: nat, p: Place)
    requires k <= |Sort(Candidates(body))| && ItemsOf(body, p.inMessages).Some?
    requires var items := ItemsOf(body, p.inMessages).value;
             && p.item < |items| && (if p.inMessages then items[p.item].user else items[p.item].responsesUser)
             && forall j :: p.item < j < |items| ==> !(if p.inMessages then items[j].user else items[j].responsesUser)
    requires IsLeaf(At(body, p)) && At(body, p).value.kind == if p.inMessages then ImageUrl else InputImage
    ensures At(ReplaceFirst(n, body, Sort(Candidates(body)), k), p) == At(body, p)
  {
    NewestUserIsLast(ItemsOf(body, p.inMessages).value, p.item, if p.inMessages then IsUser() else IsResponsesUser());
    KeptUnlessReplaceable(n, body, k, p);
  }

  lemma NewestUserIsLast(items: seq<Item>, i: nat, p: Item -> bool)
    requires i < |items| && p(items[i]) && forall j :: i < j < |items| ==> !p(items[j])
    ensures LastIndex(items, p) == Some(i)
  {
    var r := LastIndex(items, p);
    hide LastIndex;
    assert r.Some? ==> p(items[r.value]);
  }

  lemma KeptUnlessReplaceable(n: Notices, body: Body, k: nat, p: Place)
    requires k <= |Sort(Candidates(body))| && IsLeaf(At(body, p)) && !Replaceable(body, p)
    ensures At(ReplaceFirst(n, body, Sort(Candidates(body)), k), p) == At(body, p)
  {
    hide Candidates, Sort, At, Ready, Replaceable, ReplaceFirst;
    var cs := Sort(Candidates(body));
    CandidatesReady(body);
    CandidatesAreReplaceable(body, p);
    forall i | 0 <= i < k
      ensures cs[i].place != p
    {
      SortMember(Candidates(body), cs[i]);
    }
    assert Spared(cs, k, p);
    ReplacedFirst(n, body, cs, k);
  }

  lemma OnlyImagesGo(n: Notices, body: Body, k: nat, p: Place)
    requires k <= |Sort(Candidates(body))| && IsLeaf(At(body, p)) && !IsImage(At(body, p).value.kind)
    ensures At(ReplaceFirst(n, body, Sort(Candidates(body)), k), p) == At(body, p)
  {
    var cs := Sort(Candidates(body));
    CandidatesReady(body);
    forall i | 0 <= i < k
      ensures cs[i].place != p
    {
      assert Stands(body, cs[i]);
    }
    assert Spared(cs, k, p);
    hide Candidates, Sort, At;
    ReplacedFirst(n, body, cs, k);
  }

  // Which notice takes the place of an image

  predicate AllNoticed(cs: seq<Candidate>, inMessages: bool, notice: Kind) {
    forall i :: 0 <= i < |cs| ==> cs[i].place.inMessages == inMessages && cs[i].replacement == notice
  }

  lemma {:induction false} ScanNoticed(bs: seq<Block>, n: nat, item: nat, way: seq<nat>, inResult: bool)
    requires n <= |bs|
    ensures AllNoticed(Scan(bs, n, item, way, inResult), true, Notice)
    decreases bs, n
  {
    if n > 0 {
      ScanNoticed(bs, n - 1, item, way, inResult);
      if bs[n - 1].Result? {
        ScanNoticed(bs[n - 1].inner, |bs[n - 1].inner|, item, way + [n - 1], true);
      }
    }
  }

  lemma {:induction false} ScanItemsNoticed(items: seq<Item>, n: nat, latest: Option<nat>)
    requires n <= |items|
    ensures AllNoticed(ScanItems(items, n, latest), true, Notice)
    decreases n
  {
    hide Scan;
    if n > 0 {
      ScanItemsNoticed(items, n - 1, latest);
      if items[n - 1].content.Some? {
        ScanNoticed(items[n - 1].content.value, |items[n - 1].content.value|, n - 1, [], false);
      }
    }
  }

  lemma {:induction false} FlatImagesNoticed(bs: seq<Block>, n: nat, kind: Kind, notice: Kind, inMessages: bool,
                                             item: nat)
    requires n <= |bs|
    ensures AllNoticed(FlatImages(bs, n, kind, notice, inMessages, item), inMessages, notice)
    decreases n
  {
    if n > 0 {
      FlatImagesNoticed(bs, n - 1, kind, notice, inMessages, item);
    }
  }

  lemma {:induction false} FlatItemsNoticed(items: seq<Item>, n: nat, kind: Kind, notice: Kind, inMessages: bool,
                                            latest: Option<nat>)
    requires n <= |items|
    ensures AllNoticed(FlatItems(items, n, kind, notice, inMessages, latest), inMessages, notice)
    decreases n
  {
    hide FlatImages;
    if n > 0 {
      FlatItemsNoticed(items, n - 1, kind, notice, inMessages, latest);
      if items[n - 1].content.Some? {
        FlatImagesNoticed(items[n - 1].content.value, |items[n - 1].content.value|, kind, notice, inMessages, n - 1);
      }
    }
  }

  lemma CandidateNotice(body: Body, c: Candidate)
    requires c in Candidates(body)
    ensures c.replacement == if c.place.inMessages then Notice else InputNotice
  {
    hide ScanItems, FlatItems, LastIndex, LastInResult;
    if body.messages.Some? {
      var items := body.messages.value;
      ScanItemsNoticed(items, |items|, LastIndex(items, IsPromptItem()));
      FlatItemsNoticed(items, |items|, ImageUrl, Notice, true, LastIndex(items, IsUser()));
    }
    if body.input.Some? {
      var items := body.input.value;
      FlatItemsNoticed(items, |items|, InputImage, InputNotice, false, LastIndex(items, IsResponsesUser()));
    }
  }

  /**
   When not even replacing every candidate was enough, every image outside the newest prompt or user
   message is gone, and a notice in the format of its list stands in its place.
   */
  lemma AllReplaced(n: Notices, body: Body, p: Place)
    requires Replaceable(body, p)
    ensures var b := ReplaceFirst(n, body, Sort(Candidates(body)), |Sort(Candidates(body))|);
            At(b, p) == Some(if p.inMessages then Leaf(Notice, n.text) else Leaf(InputNotice, n.inputText))
  {
    hide Replaceable, Candidates, Sort, At, ReplaceFirst, Ready;
    var cs := Sort(Candidates(body));
    CandidatesAreReplaceable(body, p);
    var i :| 0 <= i < |Candidates(body)| && Candidates(body)[i].place == p;
    var c := Candidates(body)[i];
    SortMember(Candidates(body), c);
    var j :| 0 <= j < |cs| && cs[j] == c;
    CandidatesReady(body);
    ReplacedFirst(n, body, cs, |cs|);
    CandidateNotice(body, c);
  }

  /** They go by rank, and among those of one rank by age: the item they are in. */
  lemma OldestFirst(body: Body, i: nat, j: nat)
    requires i < j < |Sort(Candidates(body))|
    ensures var p, q := Sort(Candidates(body))[i].place, Sort(Candidates(body))[j].place;
            RankOf(body, p) < RankOf(body, q) || (RankOf(body, p) == RankOf(body, q) && p.item <= q.item)
  {
    hide Candidates, Sort, RankOf;
    var cs := Sort(Candidates(body));
    SortSorts(Candidates(body));
    assert Before(cs[i], cs[j]);
    SortMember(Candidates(body), cs[i]);
    SortMember(Candidates(body), cs[j]);
    CandidateRank(body, cs[i]);
    CandidateRank(body, cs[j]);
  }

  /**
   If there is any image in a tool result outside the newest prompt message, the last candidate is
   the newest one of them: it is replaced only if every other candidate is.
   */
  lemma NewestToolImageGoesLast(body: Body, q: Place)
    requires OldToolImage(body, q)
    ensures var cs := Sort(Candidates(body));
            cs != [] && NewestToolImage(body, cs[|cs| - 1].place)
  {
    hide Candidates, Sort, OldImage, WireBefore, LastIndex, ScanItems;
    var cs := Sort(Candidates(body));
    ToolImageHasMessages(body, q);
    LastInResultIsNewest(body);
    var scanned := ScanItems(body.messages.value, |body.messages.value|,
                             LastIndex(body.messages.value, IsPromptItem()));
    var p := scanned[LastInResult(scanned).value].place;
    CandidatesAreReplaceable(body, p);
    var i :| 0 <= i < |Candidates(body)| && Candidates(body)[i].place == p;
    SortMember(Candidates(body), Candidates(body)[i]);
    var j :| 0 <= j < |cs| && cs[j].place == p;
    if j < |cs| - 1 {
      OldestFirst(body, j, |cs| - 1);
    }
  }

  lemma ToolImageHasMessages(body: Body, q: Place)
    requires OldToolImage(body, q)
    ensures body.messages.Some?
  {
  }
}
