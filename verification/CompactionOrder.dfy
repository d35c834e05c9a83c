/** The exact order in which images are replaced. */
module CompactionOrder {
  import opened Common
  import opened Compaction
  import opened CompactionTheorems
  import opened CompactionRun

  /** The Anthropic images of a message come before its chat images. */
  function FormatOf(body: Body, p: Place): nat {
    var b := At(body, p);
    if !IsLeaf(b) || b.value.kind == Image then 0 else if b.value.kind == ImageUrl then 1 else 2
  }

  predicate Earlier(body: Body, p: Place, q: Place) {
    FormatOf(body, p) < FormatOf(body, q) || (FormatOf(body, p) == FormatOf(body, q) && WireBefore(p, q))
  }

  predicate InOrder(body: Body, cs: seq<Candidate>) {
    forall i, j :: 0 <= i < j < |cs| ==> Earlier(body, cs[i].place, cs[j].place)
  }

  predicate Tie(a: Candidate, b: Candidate) {
    a.priority == b.priority && a.age == b.age
  }

  // Sorting keeps the order of equals

  predicate Stable(body: Body, cs: seq<Candidate>) {
    && Sorted(cs)
    && forall i, j :: 0 <= i < j < |cs| && Tie(cs[i], cs[j]) ==> Earlier(body, cs[i].place, cs[j].place)
  }

  lemma InsertOne(cs: seq<Candidate>, c: Candidate)
    ensures Insert(cs, c)
         == if cs == [] || Before(cs[|cs| - 1], c) then cs + [c] else Insert(cs[..|cs| - 1], c) + [cs[|cs| - 1]]
  {
    hide Before;
  }

  lemma NoTie(last: Candidate, c: Candidate)
    requires !Before(last, c)
    ensures !Tie(c, last)
  {
  }

  lemma StableInit(body: Body, init: seq<Candidate>, last: Candidate)
    requires Stable(body, init + [last])
    ensures Stable(body, init)
  {
    hide Earlier, Before, Tie;
    var cs := init + [last];
    assert forall i :: 0 <= i < |init| ==> init[i] == cs[i];
  }

  lemma TieEarlier(body: Body, init: seq<Candidate>, last: Candidate, x: Candidate)
    requires Stable(body, init + [last]) && x in init && Tie(x, last)
    ensures Earlier(body, x.place, last.place)
  {
    hide Earlier, Before, Tie;
    var cs := init + [last];
    var k :| 0 <= k < |init| && init[k] == x;
    assert cs[k] == x && cs[|init|] == last;
  }

  lemma StableSnoc(body: Body, cs: seq<Candidate>, c: Candidate)
    requires Stable(body, cs) && Sorted(cs + [c])
    requires forall x :: x in cs && Tie(x, c) ==> Earlier(body, x.place, c.place)
    ensures Stable(body, cs + [c])
  {
    hide Earlier, Before, Tie, Sorted;
    var all := cs + [c];
    forall i, j | 0 <= i < j < |all| && Tie(all[i], all[j])
      ensures Earlier(body, all[i].place, all[j].place)
    {
      if j == |cs| {
        assert all[i] in cs;
      }
    }
  }

  lemma {:induction false} InsertStable(body: Body, cs: seq<Candidate>, c: Candidate)
    requires Stable(body, cs) && forall x :: x in cs ==> Earlier(body, x.place, c.place)
    ensures Stable(body, Insert(cs, c))
    decreases |cs|
  {
    hide Earlier, Before, Tie, Sorted;
    InsertSorts(cs, c);
    InsertOne(cs, c);
    if cs != [] && !Before(cs[|cs| - 1], c) {
      var init, last := cs[..|cs| - 1], cs[|cs| - 1];
      assert cs == init + [last];
      StableInit(body, init, last);
      InsertStable(body, init, c);
      InsertSorts(init, c);
      var r := Insert(init, c);
      hide Insert, Stable;
      NoTie(last, c);
      forall x | x in r && Tie(x, last)
        ensures Earlier(body, x.place, last.place)
      {
        assert x in multiset(r) && x != c;
        TieEarlier(body, init, last, x);
      }
      StableSnoc(body, r, last);
    } else {
      hide Insert, Stable;
      StableSnoc(body, cs, c);
    }
  }

  lemma {:induction false} SortStable(body: Body, cs: seq<Candidate>)
    requires InOrder(body, cs)
    ensures Stable(body, Sort(cs))
    decreases |cs|
  {
    hide Earlier, Insert;
    if cs != [] {
      var init, last := cs[..|cs| - 1], cs[|cs| - 1];
      SortStable(body, init);
      forall x | x in Sort(init)
        ensures Earlier(body, x.place, last.place)
      {
        SortMember(init, x);
        var k :| 0 <= k < |init| && init[k] == x;
        assert cs[k] == x;
      }
      InsertStable(body, Sort(init), last);
    }
  }

  // The candidates are in order

  lemma {:induction false} FlatImagesInOrder(bs: seq<Block>, n: nat, kind: Kind, notice: Kind, inMessages: bool,
                                             item: nat)
    requires n <= |bs|
    ensures InWireOrder(FlatImages(bs, n, kind, notice, inMessages, item))
    decreases n
  {
    hide WireBefore, Below, Find;
    if n > 0 {
      var before := FlatImages(bs, n - 1, kind, notice, inMessages, item);
      var here := FlatImages(bs, n, kind, notice, inMessages, item)[|before|..];
      FlatImagesInOrder(bs, n - 1, kind, notice, inMessages, item);
      forall c, d | c in before && d in here
        ensures WireBefore(c.place, d.place)
      {
        FlatImageAt(bs, n - 1, kind, notice, inMessages, item, c);
        StepBefore(c.place, d.place);
      }
      WireOrderConcat(before, here);
      assert before + here == FlatImages(bs, n, kind, notice, inMessages, item);
    }
  }

  lemma {:induction false} FlatImageAt(bs: seq<Block>, n: nat, kind: Kind, notice: Kind, inMessages: bool, item: nat,
                                       c: Candidate)
    requires n <= |bs| && c in FlatImages(bs, n, kind, notice, inMessages, item)
    ensures c.place.item == item && |c.place.path| == 1 && c.place.path[0] < n
    decreases n
  {
    if c in FlatImages(bs, n - 1, kind, notice, inMessages, item) {
      FlatImageAt(bs, n - 1, kind, notice, inMessages, item, c);
    }
  }

  lemma StepBefore(p: Place, q: Place)
    requires p.item == q.item && |p.path| == 1 && |q.path| == 1 && p.path[0] < q.path[0]
    ensures WireBefore(p, q)
  {
    assert p.path[..0] == q.path[..0];
  }

  lemma {:induction false} FlatItemsInOrder(items: seq<Item>, n: nat, kind: Kind, notice: Kind, inMessages: bool,
                                            latest: Option<nat>)
    requires n <= |items|
    ensures InWireOrder(FlatItems(items, n, kind, notice, inMessages, latest))
    ensures forall c :: c in FlatItems(items, n, kind, notice, inMessages, latest) ==> c.place.item < n
    decreases n
  {
    hide FlatImages, PathBefore;
    if n > 0 {
      var before := FlatItems(items, n - 1, kind, notice, inMessages, latest);
      FlatItemsInOrder(items, n - 1, kind, notice, inMessages, latest);
      if items[n - 1].content.Some? && latest != Some(n - 1) {
        var bs := items[n - 1].content.value;
        var here := FlatImages(bs, |bs|, kind, notice, inMessages, n - 1);
        FlatImagesInOrder(bs, |bs|, kind, notice, inMessages, n - 1);
        forall d | d in here
          ensures d.place.item == n - 1
        {
          FlatImageAt(bs, |bs|, kind, notice, inMessages, n - 1, d);
        }
        WireOrderConcat(before, here);
      } else {
        assert before + [] == before;
      }
    }
  }

  lemma AnthropicInOrder(items: seq<Item>)
    ensures InWireOrder(AnthropicImages(items))
  {
    var latest := LastIndex(items, IsPromptItem());
    var cs := ScanItems(items, |items|, latest);
    ScanItemsInOrder(items, |items|, latest);
    forall d | d in cs
      ensures d.priority <= 1
    {
      ScanAmong(items, |items|, latest, d);
    }
    DemoteOne(cs);
    hide Demote, ScanItems, Among, LastIndex, WireBefore;
  }

  lemma InOrderConcat(body: Body, a: seq<Candidate>, b: seq<Candidate>, f: nat, g: nat)
    requires InOrder(body, a) && InWireOrder(b) && f < g
    requires forall c :: c in a ==> FormatOf(body, c.place) <= f
    requires forall c :: c in b ==> FormatOf(body, c.place) == g
    ensures InOrder(body, a + b)
  {
    hide FormatOf, WireBefore;
    var all := a + b;
    forall i, j | 0 <= i < j < |all|
      ensures Earlier(body, all[i].place, all[j].place)
    {
      if i < |a| {
        assert all[i] in a;
      } else {
        assert all[i] in b && all[i] == b[i - |a|];
      }
      if j >= |a| {
        assert all[j] in b && all[j] == b[j - |a|];
      }
    }
  }

  lemma FormatOfImage(body: Body, p: Place)
    ensures OldImage(body, p) ==> FormatOf(body, p) == 0
    ensures OldImageUrl(body, p) ==> FormatOf(body, p) == 1
    ensures OldInputImage(body, p) ==> FormatOf(body, p) == 2
  {
    hide At, LastIndex;
  }

  lemma MessagesInOrder(body: Body, items: seq<Item>)
    requires body.messages == Some(items)
    ensures InOrder(body, AnthropicImages(items) + ChatImages(items))
    ensures forall c :: c in AnthropicImages(items) + ChatImages(items) ==> FormatOf(body, c.place) <= 1
  {
    hide AnthropicImages, FormatOf, OldImage, OldImageUrl, OldInputImage, LastIndex, FlatItems, WireBefore;
    AnthropicInOrder(items);
    FlatItemsInOrder(items, |items|, ImageUrl, Notice, true, LastIndex(items, IsUser()));
    var a, b := AnthropicImages(items), ChatImages(items);
    hide ChatImages;
    forall c | c in a
      ensures FormatOf(body, c.place) == 0
    {
      AnthropicSound(body, c);
      FormatOfImage(body, c.place);
    }
    forall c | c in b
      ensures FormatOf(body, c.place) == 1
    {
      ChatSound(body, c);
      FormatOfImage(body, c.place);
    }
    WireIsOrder(body, a, 0);
    InOrderConcat(body, a, b, 0, 1);
  }

  lemma WireIsOrder(body: Body, cs: seq<Candidate>, f: nat)
    requires InWireOrder(cs) && forall c :: c in cs ==> FormatOf(body, c.place) == f
    ensures InOrder(body, cs)
  {
    hide FormatOf, WireBefore;
  }

  lemma CandidatesInOrder(body: Body)
    ensures InOrder(body, Candidates(body))
  {
    hide AnthropicImages, ChatImages, FormatOf, OldImage, OldImageUrl, OldInputImage, LastIndex, FlatItems;
    hide InOrder, InWireOrder;
    var a := if body.messages.Some? then AnthropicImages(body.messages.value) + ChatImages(body.messages.value) else [];
    if body.messages.Some? {
      MessagesInOrder(body, body.messages.value);
    } else {
      NoneInOrder(body);
    }
    if body.input.Some? {
      var items := body.input.value;
      FlatItemsInOrder(items, |items|, InputImage, InputNotice, false, LastIndex(items, IsResponsesUser()));
      var b := ResponsesImages(items);
      hide ResponsesImages;
      forall c | c in b
        ensures FormatOf(body, c.place) == 2
      {
        ResponsesSound(body, c);
        FormatOfImage(body, c.place);
      }
      InOrderConcat(body, a, b, 1, 2);
    } else {
      assert a + [] == a;
    }
  }

  lemma NoneInOrder(body: Body)
    ensures InOrder(body, [])
  {
  }

  /**
   The order is fixed: by rank, then by the item an image is in, then Anthropic images before others, then
   as the images are written.
   */
  lemma ExactOrder(body: Body, i: nat, j: nat)
    requires i < j < |Sort(Candidates(body))|
    ensures var p, q := Sort(Candidates(body))[i].place, Sort(Candidates(body))[j].place;
            var f, g := FormatOf(body, p), FormatOf(body, q);
            || RankOf(body, p) < RankOf(body, q)
            || (RankOf(body, p) == RankOf(body, q)
                && (p.item < q.item
                    || (p.item == q.item && (f < g || (f == g && PathBefore(p.path, q.path))))))
  {
    hide Candidates, Sort, RankOf, FormatOf, PathBefore, InOrder, Replaceable;
    var cs := Sort(Candidates(body));
    OldestFirst(body, i, j);
    CandidatesInOrder(body);
    SortStable(body, Candidates(body));
    SortMember(Candidates(body), cs[i]);
    SortMember(Candidates(body), cs[j]);
    CandidateRank(body, cs[i]);
    CandidateRank(body, cs[j]);
    CandidateSound(body, cs[i]);
    CandidateSound(body, cs[j]);
  }
}
