/** The personal feed: candidate lists are merged by id, ranked, spread over creators and
    cut into pages that a client walks by cursor. */
module ExploreFeed {
  import opened Prelude

  // `score` is the personal score in ten-thousandths, the four decimals the source keeps.
  datatype Item = Item(id: Id, creator: Id, createdAt: int, score: int)

  const CREATOR_PENALTY: int := 12_500

  // ---------- Looking up an id ----------

  function IndexOf(s: seq<Item>, id: Id): (r: int)
    ensures -1 <= r < |s|
    ensures 0 <= r ==> s[r].id == id && forall j | 0 <= j < r :: s[j].id != id
    ensures r < 0 ==> forall j | 0 <= j < |s| :: s[j].id != id
    decreases |s|
  {
    if s == [] then -1
    else
      var front := IndexOf(s[..|s| - 1], id);
      if 0 <= front then front
      else if s[|s| - 1].id == id then |s| - 1
      else -1
  }

  predicate HasId(s: seq<Item>, id: Id) {
    exists i | 0 <= i < |s| :: s[i].id == id
  }

  lemma HasIdOfAppend(s: seq<Item>, x: Item, id: Id)
    ensures HasId(s + [x], id) <==> HasId(s, id) || x.id == id
  {
    assert (s + [x])[|s|] == x;
    assert forall i | 0 <= i < |s| :: (s + [x])[i] == s[i];
  }

  predicate DistinctIds(s: seq<Item>) {
    forall i, j | 0 <= i < j < |s| :: s[i].id != s[j].id
  }

  // ---------- Merging ----------

  function FirstOf(items: seq<Item>): seq<Item>
    decreases |items|
  {
    if items == [] then []
    else
      var front, x := FirstOf(items[..|items| - 1]), items[|items| - 1];
      if HasId(front, x.id) then front else front + [x]
  }

  // An insertion-ordered map from ids to items: its keys and its values.
  method MergeById(items: seq<Item>) returns (values: seq<Item>)
    ensures values == FirstOf(items)
  {
    var keys: set<Id> := {};
    values := [];
    for i := 0 to |items|
      invariant forall id :: id in keys <==> HasId(values, id)
      invariant values == FirstOf(items[..i])
    {
      var item := items[i];
      assert items[..i + 1][..i] == items[..i];
      if item.id !in keys {
        forall id
          ensures HasId(values + [item], id) <==> HasId(values, id) || item.id == id
        {
          HasIdOfAppend(values, item, id);
        }
        keys := keys + {item.id};
        values := values + [item];
      }
    }
    assert items[..|items|] == items;
  }

  lemma {:induction false} MergedIds(items: seq<Item>)
    ensures DistinctIds(FirstOf(items))
    ensures forall id :: HasId(FirstOf(items), id) <==> HasId(items, id)
    decreases |items|
  {
    if items != [] {
      var front, x := items[..|items| - 1], items[|items| - 1];
      assert items == front + [x];
      MergedIds(front);
      forall id
        ensures HasId(items, id) <==> HasId(front, id) || x.id == id
        ensures HasId(FirstOf(front) + [x], id) <==> HasId(FirstOf(front), id) || x.id == id
      {
        HasIdOfAppend(front, x, id);
        HasIdOfAppend(FirstOf(front), x, id);
      }
    }
  }

  /** Merging keeps every id once, as the first item that carries it, in order of first
      appearance. */
  lemma {:induction false} MergedItems(items: seq<Item>)
    ensures DistinctIds(FirstOf(items))
    ensures forall id :: HasId(FirstOf(items), id) <==> HasId(items, id)
    ensures forall k | 0 <= k < |FirstOf(items)| ::
      var at := IndexOf(items, FirstOf(items)[k].id);
      0 <= at && FirstOf(items)[k] == items[at]
    ensures forall j, k | 0 <= j < k < |FirstOf(items)| ::
      IndexOf(items, FirstOf(items)[j].id) < IndexOf(items, FirstOf(items)[k].id)
    decreases |items|
  {
    MergedIds(items);
    if items != [] {
      var front, x := items[..|items| - 1], items[|items| - 1];
      MergedItems(front);
      forall k | 0 <= k < |FirstOf(front)|
        ensures IndexOf(items, FirstOf(front)[k].id) == IndexOf(front, FirstOf(front)[k].id)
      {
      }
      assert !HasId(FirstOf(front), x.id) ==> IndexOf(items, x.id) == |front|;
    }
  }

  // ---------- Stable sorting ----------

  // The comparator puts `a` strictly ahead of `b`.
  predicate Before(a: Item, b: Item) {
    a.score > b.score || (a.score == b.score && a.createdAt > b.createdAt)
  }

  predicate Sorted(s: seq<Item>) {
    forall i, j | 0 <= i < j < |s| :: !Before(s[j], s[i])
  }

  function Insert(s: seq<Item>, x: Item): seq<Item>
    decreases |s|
  {
    if s != [] && Before(x, s[|s| - 1]) then Insert(s[..|s| - 1], x) + [s[|s| - 1]] else s + [x]
  }

  function Sort(s: seq<Item>): seq<Item>
    decreases |s|
  {
    if s == [] then [] else Insert(Sort(s[..|s| - 1]), s[|s| - 1])
  }

  function Filter(s: seq<Item>, p: Item -> bool): seq<Item>
    decreases |s|
  {
    if s == [] then []
    else if p(s[|s| - 1]) then Filter(s[..|s| - 1], p) + [s[|s| - 1]]
    else Filter(s[..|s| - 1], p)
  }

  function ByCreator(creator: Id): Item -> bool {
    (x: Item) => x.creator == creator
  }

  function ByKey(score: int, createdAt: int): Item -> bool {
    (x: Item) => x.score == score && x.createdAt == createdAt
  }

  lemma MultisetOfLast(s: seq<Item>)
    requires s != []
    ensures multiset(s) == multiset(s[..|s| - 1]) + multiset{s[|s| - 1]}
  {
    assert s == s[..|s| - 1] + [s[|s| - 1]];
  }

  lemma {:induction false} InsertPermutes(s: seq<Item>, x: Item)
    ensures multiset(Insert(s, x)) == multiset(s) + multiset{x}
    decreases |s|
  {
    if s != [] && Before(x, s[|s| - 1]) {
      InsertPermutes(s[..|s| - 1], x);
      MultisetOfLast(s);
    }
  }

  lemma {:induction false} SortPermutes(s: seq<Item>)
    ensures multiset(Sort(s)) == multiset(s)
    decreases |s|
  {
    if s != [] {
      var front, last := s[..|s| - 1], s[|s| - 1];
      SortPermutes(front);
      InsertPermutes(Sort(front), last);
      MultisetOfLast(s);
    }
  }

  lemma {:induction false} InsertSorts(s: seq<Item>, x: Item)
    requires Sorted(s)
    ensures Sorted(Insert(s, x))
    decreases |s|
  {
    if s != [] && Before(x, s[|s| - 1]) {
      var front, last := s[..|s| - 1], s[|s| - 1];
      InsertSorts(front, x);
      InsertPermutes(front, x);
      forall i | 0 <= i < |Insert(front, x)|
        ensures !Before(last, Insert(front, x)[i])
      {
        assert Insert(front, x)[i] in multiset(front) + multiset{x};
      }
    } else {
      assert forall i | 0 <= i < |s| :: !Before(x, s[i]) by {
        if s != [] {
          assert forall i | 0 <= i < |s| - 1 :: !Before(s[|s| - 1], s[i]);
        }
      }
    }
  }

  lemma {:induction false} SortSorts(s: seq<Item>)
    ensures Sorted(Sort(s))
    decreases |s|
  {
    if s != [] {
      SortSorts(s[..|s| - 1]);
      InsertSorts(Sort(s[..|s| - 1]), s[|s| - 1]);
    }
  }

  lemma {:induction false} SortOfSorted(s: seq<Item>)
    requires Sorted(s)
    ensures Sort(s) == s
    decreases |s|
  {
    if s != [] {
      SortOfSorted(s[..|s| - 1]);
      assert s == s[..|s| - 1] + [s[|s| - 1]];
      assert |s| > 1 ==> !Before(s[|s| - 1], s[|s| - 2]);
    }
  }

  lemma {:induction false} FilterOfAppend(s: seq<Item>, x: Item, p: Item -> bool)
    ensures Filter(s + [x], p) == if p(x) then Filter(s, p) + [x] else Filter(s, p)
  {
    assert (s + [x])[..|s|] == s;
  }

  lemma {:induction false} FilterMembers(s: seq<Item>, p: Item -> bool)
    ensures forall x :: x in Filter(s, p) <==> x in s && p(x)
    decreases |s|
  {
    if s != [] {
      FilterMembers(s[..|s| - 1], p);
      assert s == s[..|s| - 1] + [s[|s| - 1]];
    }
  }

  lemma {:induction false} FilterOfSorted(s: seq<Item>, p: Item -> bool)
    requires Sorted(s)
    ensures Sorted(Filter(s, p))
    decreases |s|
  {
    if s != [] {
      var front, last := s[..|s| - 1], s[|s| - 1];
      FilterOfSorted(front, p);
      FilterMembers(front, p);
      forall i | 0 <= i < |Filter(front, p)|
        ensures !Before(last, Filter(front, p)[i])
      {
        assert Filter(front, p)[i] in front;
      }
    }
  }

  lemma InsertAtEnd(s: seq<Item>, last: Item, x: Item)
    ensures Insert(s + [last], x) == if Before(x, last) then Insert(s, x) + [last] else s + [last] + [x]
  {
    assert (s + [last])[..|s|] == s;
  }

  lemma {:induction false} FilterOfInsert(s: seq<Item>, x: Item, p: Item -> bool)
    requires Sorted(s)
    ensures Filter(Insert(s, x), p) == if p(x) then Insert(Filter(s, p), x) else Filter(s, p)
    decreases |s|
  {
    if s != [] && Before(x, s[|s| - 1]) {
      var front, last := s[..|s| - 1], s[|s| - 1];
      assert s == front + [last];
      FilterOfInsert(front, x, p);
      FilterOfAppend(Insert(front, x), last, p);
      FilterOfAppend(front, last, p);
      InsertAtEnd(front, last, x);
      InsertAtEnd(Filter(front, p), last, x);
      hide Filter, Insert, Sorted;
    } else {
      FilterOfAppend(s, x, p);
      FilterMembers(s, p);
      var f := Filter(s, p);
      if f != [] {
        assert f[|f| - 1] in s;
      }
    }
  }

  lemma {:induction false} FilterOfSort(s: seq<Item>, p: Item -> bool)
    ensures Filter(Sort(s), p) == Sort(Filter(s, p))
    decreases |s|
  {
    if s != [] {
      var front, x := s[..|s| - 1], s[|s| - 1];
      FilterOfSort(front, p);
      SortSorts(front);
      FilterOfInsert(Sort(front), x, p);
      if p(x) {
        var f := Filter(front, p);
        assert (f + [x])[..|f|] == f;
      }
    }
  }

  // Items that already stand in order among themselves keep that order.
  lemma SortKeeps(s: seq<Item>, p: Item -> bool)
    requires Sorted(Filter(s, p))
    ensures Filter(Sort(s), p) == Filter(s, p)
  {
    FilterOfSort(s, p);
    SortOfSorted(Filter(s, p));
  }

  ghost predicate SameTies(s: seq<Item>, t: seq<Item>) {
    forall score, createdAt :: Filter(s, ByKey(score, createdAt)) == Filter(t, ByKey(score, createdAt))
  }

  lemma TiesKeepOrder(s: seq<Item>)
    ensures SameTies(s, Sort(s))
  {
    forall score, createdAt
      ensures Filter(s, ByKey(score, createdAt)) == Filter(Sort(s), ByKey(score, createdAt))
    {
      FilterMembers(s, ByKey(score, createdAt));
      var f := Filter(s, ByKey(score, createdAt));
      assert forall i | 0 <= i < |f| :: f[i] in f;
      SortKeeps(s, ByKey(score, createdAt));
    }
  }

  lemma SameTiesEmpty(s: seq<Item>, t: seq<Item>)
    requires SameTies(s, t)
    ensures s == [] <==> t == []
  {
    forall x
      ensures x in s <==> x in t
    {
      FilterMembers(s, ByKey(x.score, x.createdAt));
      FilterMembers(t, ByKey(x.score, x.createdAt));
    }
    if s != [] {
      assert s[0] in t;
    }
    if t != [] {
      assert t[0] in s;
    }
  }

  lemma LastOfKey(s: seq<Item>, t: seq<Item>)
    requires Sorted(s) && Sorted(t) && SameTies(s, t) && s != [] && t != []
    ensures s[|s| - 1] == t[|t| - 1]
  {
    var a, b := s[|s| - 1], t[|t| - 1];
    FilterMembers(s, ByKey(b.score, b.createdAt));
    FilterMembers(t, ByKey(b.score, b.createdAt));
    FilterMembers(s, ByKey(a.score, a.createdAt));
    FilterMembers(t, ByKey(a.score, a.createdAt));
    assert b in Filter(s, ByKey(b.score, b.createdAt));
    assert a in Filter(t, ByKey(a.score, a.createdAt));
    assert !Before(a, b) && !Before(b, a);
    var f := Filter(s, ByKey(a.score, a.createdAt));
    assert f[|f| - 1] == a;
    assert f == Filter(t, ByKey(b.score, b.createdAt));
  }

  lemma {:induction false} SortedTiesUnique(s: seq<Item>, t: seq<Item>)
    requires Sorted(s) && Sorted(t) && SameTies(s, t)
    ensures s == t
    decreases |s|
  {
    SameTiesEmpty(s, t);
    if s != [] {
      LastOfKey(s, t);
      var s', t' := s[..|s| - 1], t[..|t| - 1];
      forall score, createdAt
        ensures Filter(s', ByKey(score, createdAt)) == Filter(t', ByKey(score, createdAt))
      {
        var f, g := Filter(s', ByKey(score, createdAt)), Filter(t', ByKey(score, createdAt));
        assert Filter(s, ByKey(score, createdAt)) == Filter(t, ByKey(score, createdAt));
        if ByKey(score, createdAt)(s[|s| - 1]) {
          assert f == (f + [s[|s| - 1]])[..|f|];
          assert g == (g + [t[|t| - 1]])[..|g|];
        }
      }
      SortedTiesUnique(s', t');
      assert s == s' + [s[|s| - 1]] && t == t' + [t[|t| - 1]];
    }
  }

  /** Whatever stable algorithm the runtime uses, its result is `Sort`. */
  lemma StableSortIsSort(s: seq<Item>, t: seq<Item>)
    ensures t == Sort(s) <==> Sorted(t) && SameTies(s, t)
  {
    SortSorts(s);
    TiesKeepOrder(s);
    if Sorted(t) && SameTies(s, t) {
      SortedTiesUnique(t, Sort(s));
    }
  }

  // ---------- Spreading over creators ----------

  function Occurrences(s: seq<Item>, creator: Id): nat
    decreases |s|
  {
    if s == [] then 0
    else Occurrences(s[..|s| - 1], creator) + if s[|s| - 1].creator == creator then 1 else 0
  }

  // Each item pays the penalty once for every higher item of its creator.
  function Penalised(s: seq<Item>): (r: seq<Item>)
    ensures |r| == |s|
    decreases |s|
  {
    if s == [] then []
    else
      var front, x := s[..|s| - 1], s[|s| - 1];
      Penalised(front) + [x.(score := x.score - Occurrences(front, x.creator) * CREATOR_PENALTY)]
  }

  function Diversified(s: seq<Item>): seq<Item> {
    Sort(Penalised(s))
  }

  method Diversify(ranked: seq<Item>) returns (diversified: seq<Item>)
    ensures diversified == Diversified(ranked)
  {
    var creatorOccurrences: map<Id, int> := map[];
    var penalised := [];
    for i := 0 to |ranked|
      invariant forall c ::
        (if c in creatorOccurrences then creatorOccurrences[c] else 0) == Occurrences(ranked[..i], c)
      invariant penalised == Penalised(ranked[..i])
    {
      var item := ranked[i];
      assert ranked[..i + 1][..i] == ranked[..i];
      var occurrence := if item.creator in creatorOccurrences then creatorOccurrences[item.creator] else 0;
      creatorOccurrences := creatorOccurrences[item.creator := occurrence + 1];
      if occurrence > 0 {
        item := item.(score := item.score - occurrence * CREATOR_PENALTY);
      }
      penalised := penalised + [item];
    }
    assert ranked[..|ranked|] == ranked;
    diversified := Sort(penalised);
  }

  // The k-th item of a creator keeps its place among them and loses k penalties.
  lemma {:induction false} PenalisedOfCreator(s: seq<Item>, c: Id)
    ensures
      var f, g := Filter(s, ByCreator(c)), Filter(Penalised(s), ByCreator(c));
      && |f| == |g| == Occurrences(s, c)
      && forall k | 0 <= k < |f| :: g[k] == f[k].(score := f[k].score - k * CREATOR_PENALTY)
    decreases |s|
  {
    if s != [] {
      var front, x := s[..|s| - 1], s[|s| - 1];
      var y := x.(score := x.score - Occurrences(front, x.creator) * CREATOR_PENALTY);
      PenalisedOfCreator(front, c);
      assert Penalised(s) == Penalised(front) + [y];
      FilterOfAppend(Penalised(front), y, ByCreator(c));
      hide Penalised;
    }
  }

  function Ids(s: seq<Item>): (r: seq<Id>)
    ensures |r| == |s|
    ensures forall i | 0 <= i < |s| :: r[i] == s[i].id
  {
    seq(|s|, i requires 0 <= i < |s| => s[i].id)
  }

  lemma {:induction false} PenalisedKeepsIds(s: seq<Item>)
    ensures Ids(Penalised(s)) == Ids(s)
    decreases |s|
  {
    if s != [] {
      PenalisedKeepsIds(s[..|s| - 1]);
      forall i | 0 <= i < |s|
        ensures Penalised(s)[i].id == s[i].id
      {
        if i < |s| - 1 {
          assert Ids(Penalised(s[..|s| - 1]))[i] == s[i].id;
        }
      }
    }
  }

  /** The spread list holds the penalised items and no others, by penalised score and
      then by recency, ties in ranked order. */
  lemma DiversifiedIsSorted(ranked: seq<Item>)
    ensures multiset(Diversified(ranked)) == multiset(Penalised(ranked))
    ensures Sorted(Diversified(ranked))
    ensures SameTies(Penalised(ranked), Diversified(ranked))
  {
    SortPermutes(Penalised(ranked));
    SortSorts(Penalised(ranked));
    TiesKeepOrder(Penalised(ranked));
  }

  /** Every creator's items stay in ranked order, the k-th of them k penalties down. */
  lemma CreatorOrderKept(ranked: seq<Item>, c: Id)
    requires Sorted(ranked)
    ensures
      var f, g := Filter(ranked, ByCreator(c)), Filter(Diversified(ranked), ByCreator(c));
      && Ids(g) == Ids(f)
      && forall k | 0 <= k < |f| :: g[k] == f[k].(score := f[k].score - k * CREATOR_PENALTY)
  {
    var f, g := Filter(ranked, ByCreator(c)), Filter(Penalised(ranked), ByCreator(c));
    PenalisedOfCreator(ranked, c);
    FilterOfSorted(ranked, ByCreator(c));
    forall i, j | 0 <= i < j < |g|
      ensures !Before(g[j], g[i])
    {
      assert !Before(f[j], f[i]);
      assert i * CREATOR_PENALTY < j * CREATOR_PENALTY;
    }
    SortKeeps(Penalised(ranked), ByCreator(c));
  }

  lemma {:induction false} FirstStaysFirst(s: seq<Item>)
    requires s != [] && forall i | 0 < i < |s| :: !Before(s[i], s[0])
    ensures Sort(s) != [] && Sort(s)[0] == s[0]
    decreases |s|
  {
    if |s| > 1 {
      FirstStaysFirst(s[..|s| - 1]);
      InsertBehind(Sort(s[..|s| - 1]), s[|s| - 1]);
    } else {
      assert Sort(s[..0]) == [];
    }
  }

  lemma {:induction false} InsertBehind(s: seq<Item>, x: Item)
    requires s != [] && !Before(x, s[0])
    ensures Insert(s, x) != [] && Insert(s, x)[0] == s[0]
    decreases |s|
  {
    if |s| > 1 && Before(x, s[|s| - 1]) {
      InsertBehind(s[..|s| - 1], x);
    }
  }

  lemma {:induction false} PenaltiesLower(s: seq<Item>)
    ensures forall i | 0 <= i < |s| ::
      && Penalised(s)[i].createdAt == s[i].createdAt && Penalised(s)[i].creator == s[i].creator
      && Penalised(s)[i].score <= s[i].score
    ensures s != [] ==> Penalised(s)[0] == s[0]
    decreases |s|
  {
    if s != [] {
      var front := s[..|s| - 1];
      PenaltiesLower(front);
      assert forall i | 0 <= i < |front| :: Penalised(s)[i] == Penalised(front)[i] && s[i] == front[i];
    }
  }

  /** The top-ranked item is shown first, unpenalised. */
  lemma TopItemStays(ranked: seq<Item>)
    requires Sorted(ranked) && ranked != []
    ensures Diversified(ranked) != [] && Diversified(ranked)[0] == ranked[0]
  {
    PenaltiesLower(ranked);
    forall i | 0 < i < |ranked|
      ensures !Before(Penalised(ranked)[i], Penalised(ranked)[0])
    {
      assert !Before(ranked[i], ranked[0]);
    }
    FirstStaysFirst(Penalised(ranked));
  }

  // ---------- The feed and its pages ----------

  function Rescored(merged: seq<Item>, personal: Id -> int): (r: seq<Item>)
    ensures Ids(r) == Ids(merged)
  {
    seq(|merged|, i requires 0 <= i < |merged| => merged[i].(score := personal(merged[i].id)))
  }

  function Feed(candidates: seq<Item>, personal: Id -> int): seq<Item> {
    Diversified(Sort(Rescored(FirstOf(candidates), personal)))
  }

  datatype Page = Page(items: seq<Item>, next: Option<Id>)

  function StartIndex(list: seq<Item>, cursor: Option<Id>): (start: nat)
    ensures start <= |list|
  {
    if cursor.None? then 0 else IndexOf(list, cursor.value) + 1
  }

  function PageFrom(list: seq<Item>, limit: nat, start: nat): Page
    requires limit >= 1 && start <= |list|
  {
    if start + limit < |list| then Page(list[start..start + limit], Some(list[start + limit - 1].id))
    else Page(list[start..], None)
  }

  function PageAt(list: seq<Item>, limit: nat, cursor: Option<Id>): Page
    requires limit >= 1
  {
    PageFrom(list, limit, StartIndex(list, cursor))
  }

  method CutPage(diversified: seq<Item>, limit: nat, cursor: Option<Id>)
    returns (page: seq<Item>, nextCursor: Option<Id>)
    requires limit >= 1
    ensures Page(page, nextCursor) == PageAt(diversified, limit, cursor)
  {
    var found := if cursor.Some? then IndexOf(diversified, cursor.value) + 1 else 0;
    var startIndex := if found > 0 then found else 0;
    var hasNext := startIndex + limit < |diversified|;
    page := diversified[startIndex..if hasNext then startIndex + limit else |diversified|];
    nextCursor := if hasNext then Some(page[|page| - 1].id) else None;
  }

  method BuildForYouResponse(
    topic: seq<Item>, following: seq<Item>, trending: seq<Item>, newest: seq<Item>,
    personal: Id -> int, limit: nat, cursor: Option<Id>)
    returns (page: seq<Item>, nextCursor: Option<Id>)
    requires limit >= 1
    ensures Page(page, nextCursor) == PageAt(Feed(topic + following + trending + newest, personal), limit, cursor)
  {
    var merged := MergeById(topic + following + trending + newest);
    if |merged| == 0 {
      assert Feed(topic + following + trending + newest, personal) == [];
      return [], None;
    }
    var ranked := Sort(Rescored(merged, personal));
    var diversified := Diversify(ranked);
    page, nextCursor := CutPage(diversified, limit, cursor);
  }

  lemma {:induction false} InsertKeepsIds(s: seq<Item>, x: Item)
    requires DistinctIds(s) && !HasId(s, x.id)
    ensures DistinctIds(Insert(s, x))
    decreases |s|
  {
    if s != [] && Before(x, s[|s| - 1]) {
      var front, last := s[..|s| - 1], s[|s| - 1];
      assert forall i | 0 <= i < |front| :: front[i] == s[i];
      InsertKeepsIds(front, x);
      InsertPermutes(front, x);
      forall i | 0 <= i < |Insert(front, x)|
        ensures Insert(front, x)[i].id != last.id
      {
        assert Insert(front, x)[i] in multiset(front) + multiset{x};
      }
    }
  }

  lemma {:induction false} SortKeepsIds(s: seq<Item>)
    requires DistinctIds(s)
    ensures DistinctIds(Sort(s))
    ensures forall id :: HasId(Sort(s), id) <==> HasId(s, id)
    decreases |s|
  {
    SortPermutes(s);
    assert forall x :: x in Sort(s) <==> x in multiset(s);
    if s != [] {
      var front, x := s[..|s| - 1], s[|s| - 1];
      SortKeepsIds(front);
      InsertKeepsIds(Sort(front), x);
    }
    forall id
      ensures HasId(Sort(s), id) <==> HasId(s, id)
    {
      assert HasId(s, id) <==> exists x | x in s :: x.id == id;
      assert HasId(Sort(s), id) <==> exists x | x in Sort(s) :: x.id == id;
    }
  }

  lemma SameIds(s: seq<Item>, t: seq<Item>)
    requires Ids(s) == Ids(t)
    ensures DistinctIds(s) <==> DistinctIds(t)
    ensures forall id :: HasId(s, id) <==> HasId(t, id)
  {
    assert forall i | 0 <= i < |s| :: Ids(s)[i] == s[i].id && Ids(t)[i] == t[i].id;
  }

  /** The feed shows every candidate id exactly once. */
  lemma FeedShowsCandidates(candidates: seq<Item>, personal: Id -> int)
    ensures DistinctIds(Feed(candidates, personal))
    ensures forall id :: HasId(Feed(candidates, personal), id) <==> HasId(candidates, id)
  {
    var merged := FirstOf(candidates);
    MergedItems(candidates);
    SameIds(merged, Rescored(merged, personal));
    SortKeepsIds(Rescored(merged, personal));
    var ranked := Sort(Rescored(merged, personal));
    PenalisedKeepsIds(ranked);
    SameIds(ranked, Penalised(ranked));
    SortKeepsIds(Penalised(ranked));
  }

  lemma RescoredMembers(merged: seq<Item>, personal: Id -> int, x: Item)
    requires x in Sort(Rescored(merged, personal))
    ensures x.score == personal(x.id) && exists m | m in merged :: x == m.(score := x.score)
  {
    var r := Rescored(merged, personal);
    SortPermutes(r);
    assert x in multiset(r);
    var i :| 0 <= i < |r| && r[i] == x;
    assert x == merged[i].(score := personal(merged[i].id)) && merged[i] in merged;
  }

  // By score, and among equals the newer first.
  predicate Outranks(score: int, createdAt: int, otherScore: int, otherCreatedAt: int) {
    score > otherScore || (score == otherScore && createdAt >= otherCreatedAt)
  }

  /** The feed shows higher scores first and newer items first among equals.  Of one creator,
      the items stand by personal score and then by recency, and the k-th of them counts k times
      1.25 points less. */
  lemma FeedOrder(candidates: seq<Item>, personal: Id -> int, creator: Id)
    ensures
      var feed := Feed(candidates, personal);
      forall i, j | 0 <= i < j < |feed| ::
        Outranks(feed[i].score, feed[i].createdAt, feed[j].score, feed[j].createdAt)
    ensures
      var own := Filter(Feed(candidates, personal), ByCreator(creator));
      && (forall k | 0 <= k < |own| :: own[k].score == personal(own[k].id) - k * 12_500)
      && (forall j, k | 0 <= j < k < |own| ::
            Outranks(personal(own[j].id), own[j].createdAt, personal(own[k].id), own[k].createdAt))
  {
    var merged := FirstOf(candidates);
    var ranked := Sort(Rescored(merged, personal));
    SortSorts(Rescored(merged, personal));
    DiversifiedIsSorted(ranked);
    CreatorOrderKept(ranked, creator);
    FilterOfSorted(ranked, ByCreator(creator));
    FilterMembers(ranked, ByCreator(creator));
    var f, own := Filter(ranked, ByCreator(creator)), Filter(Diversified(ranked), ByCreator(creator));
    hide Sort, Diversified, Filter, FirstOf;
    forall k | 0 <= k < |f|
      ensures f[k].score == personal(f[k].id) && own[k].id == f[k].id && own[k].createdAt == f[k].createdAt
    {
      assert f[k] in f;
      RescoredMembers(merged, personal, f[k]);
    }
  }

  /** The item with the best personal score, the newest of them, is shown first. */
  lemma FeedTop(candidates: seq<Item>, personal: Id -> int)
    requires candidates != []
    ensures
      var feed := Feed(candidates, personal);
      && feed != [] && feed[0].score == personal(feed[0].id)
      && forall k | 0 <= k < |feed| ::
           Outranks(personal(feed[0].id), feed[0].createdAt, personal(feed[k].id), feed[k].createdAt)
  {
    var merged := FirstOf(candidates);
    var ranked, feed := Sort(Rescored(merged, personal)), Feed(candidates, personal);
    SortSorts(Rescored(merged, personal));
    SortPermutes(Rescored(merged, personal));
    MergedIds(candidates);
    assert HasId(candidates, candidates[0].id);
    assert |ranked| == |multiset(ranked)| == |merged|;
    TopItemStays(ranked);
    forall k | 0 <= k < |feed|
      ensures Outranks(personal(feed[0].id), feed[0].createdAt, personal(feed[k].id), feed[k].createdAt)
    {
      var i := ShownIsRanked(ranked, feed[k]);
      hide Sort, Diversified, FirstOf;
      RescoredMembers(merged, personal, ranked[0]);
      RescoredMembers(merged, personal, ranked[i]);
    }
    assert ranked[0] in ranked;
    RescoredMembers(merged, personal, ranked[0]);
  }

  // A shown item is a ranked one up to its score.
  lemma ShownIsRanked(ranked: seq<Item>, x: Item) returns (i: nat)
    requires x in Diversified(ranked)
    ensures i < |ranked| && ranked[i].(score := x.score) == x
  {
    DiversifiedIsSorted(ranked);
    PenaltiesLower(ranked);
    PenalisedKeepsIds(ranked);
    assert x in multiset(Penalised(ranked));
    i :| i < |ranked| && Penalised(ranked)[i] == x;
    assert Ids(Penalised(ranked))[i] == x.id && Ids(ranked)[i] == ranked[i].id;
  }

  /** Every item shown is the first candidate with its id, up to the score. */
  lemma FeedItems(candidates: seq<Item>, personal: Id -> int, k: nat)
    requires k < |Feed(candidates, personal)|
    ensures
      var x := Feed(candidates, personal)[k];
      var at := IndexOf(candidates, x.id);
      0 <= at && candidates[at].(score := x.score) == x
  {
    var merged := FirstOf(candidates);
    var ranked, x := Sort(Rescored(merged, personal)), Feed(candidates, personal)[k];
    var i := ShownIsRanked(ranked, x);
    RescoredMembers(merged, personal, ranked[i]);
    var m :| m in merged && ranked[i] == m.(score := ranked[i].score);
    MergedItems(candidates);
    var n :| 0 <= n < |merged| && merged[n] == m;
  }

  // A client that starts without a cursor and follows `next` until it is null.
  ghost predicate IsWalk(list: seq<Item>, limit: nat, pages: seq<Page>)
    requires limit >= 1
  {
    && pages != []
    && pages[0] == PageAt(list, limit, None)
    && Chained(list, limit, pages)
    && pages[|pages| - 1].next.None?
  }

  predicate FollowsOn(list: seq<Item>, limit: nat, page: Page, after: Page)
    requires limit >= 1
  {
    page.next.Some? && after == PageAt(list, limit, page.next)
  }

  ghost predicate Chained(list: seq<Item>, limit: nat, pages: seq<Page>)
    requires limit >= 1
  {
    forall j, k | 0 <= j < k < |pages| && k == j + 1 :: FollowsOn(list, limit, pages[j], pages[k])
  }

  function Listed(pages: seq<Page>): seq<Item>
    decreases |pages|
  {
    if pages == [] then [] else Listed(pages[..|pages| - 1]) + pages[|pages| - 1].items
  }

  function Offset(k: nat, limit: nat): nat {
    if k == 0 then 0 else Offset(k - 1, limit) + limit
  }

  // The item a full page from `start` ends on is the first of the list with its id.
  predicate EndsFirst(list: seq<Item>, limit: nat, start: nat)
    requires limit >= 1
  {
    start + limit < |list| ==> IndexOf(list, list[start + limit - 1].id) == start + limit - 1
  }

  ghost predicate PagesEndFirst(list: seq<Item>, limit: nat)
    requires limit >= 1
  {
    forall k: nat :: EndsFirst(list, limit, Offset(k, limit))
  }

  lemma DistinctEndsFirst(list: seq<Item>, limit: nat)
    requires limit >= 1 && DistinctIds(list)
    ensures PagesEndFirst(list, limit)
  {
    forall k: nat ensures EndsFirst(list, limit, Offset(k, limit)) {
      var last := Offset(k, limit) + limit - 1;
      if last + 1 < |list| {
        assert list[IndexOf(list, list[last].id)].id == list[last].id;
      }
    }
  }

  // The page after one that begins at `start` begins where that one ends.
  lemma CursorResumes(list: seq<Item>, limit: nat, start: nat, after: Page)
    requires limit >= 1 && start <= |list| && EndsFirst(list, limit, start)
    ensures FollowsOn(list, limit, PageFrom(list, limit, start), after) <==>
      start + limit < |list| && after == PageFrom(list, limit, start + limit)
  {
  }

  lemma {:induction false} OffsetIsProduct(k: nat, limit: nat)
    ensures Offset(k, limit) == k * limit
  {
    if k > 0 {
      OffsetIsProduct(k - 1, limit);
      assert k * limit == (k - 1) * limit + limit;
    }
  }

  lemma FirstPage(list: seq<Item>, limit: nat, pages: seq<Page>)
    requires limit >= 1 && IsWalk(list, limit, pages)
    ensures pages != [] && pages[0] == PageFrom(list, limit, 0)
    ensures Listed(pages[..0]) == list[..0] && Offset(0, limit) == 0
  {
  }

  lemma NextPage(list: seq<Item>, limit: nat, pages: seq<Page>, k: nat, start: nat)
    requires limit >= 1 && IsWalk(list, limit, pages) && k + 1 < |pages| && EndsFirst(list, limit, start)
    requires start <= |list| && pages[k] == PageFrom(list, limit, start)
    ensures start + limit < |list|
    ensures pages[k + 1] == PageFrom(list, limit, start + limit)
    ensures pages[k].items == list[start..start + limit]
  {
    var page, after := pages[k], pages[k + 1];
    assert FollowsOn(list, limit, page, after);
    hide *;
    CursorResumes(list, limit, start, after);
    ItemsOfPage(list, limit, start);
  }

  lemma ItemsOfPage(list: seq<Item>, limit: nat, start: nat)
    requires limit >= 1 && start + limit < |list|
    ensures PageFrom(list, limit, start).items == list[start..start + limit]
  {
  }

  lemma ListedGrows(pages: seq<Page>, k: nat)
    requires k < |pages|
    ensures Listed(pages[..k + 1]) == Listed(pages[..k]) + pages[k].items
  {
    assert pages[..k + 1][..k] == pages[..k];
  }

  // Page k begins k limits into the list, and the pages before it are what comes before.
  lemma {:induction false} WalkPrefix(list: seq<Item>, limit: nat, pages: seq<Page>, k: nat) returns (start: nat)
    requires limit >= 1 && PagesEndFirst(list, limit) && IsWalk(list, limit, pages) && k < |pages|
    ensures start == Offset(k, limit) && start <= |list| && (start < |list| || k == 0)
    ensures pages[k] == PageFrom(list, limit, start)
    ensures Listed(pages[..k]) == list[..start]
  {
    hide IsWalk, EndsFirst, PageFrom, Listed;
    if k == 0 {
      FirstPage(list, limit, pages);
      return 0;
    }
    var before := WalkPrefix(list, limit, pages, k - 1);
    assert EndsFirst(list, limit, Offset(k - 1, limit));
    NextPage(list, limit, pages, k - 1, before);
    ListedGrows(pages, k - 1);
    start := before + limit;
    assert list[..start] == list[..before] + list[before..start];
  }

  /** With distinct ids, or at least first ones at the ends of the pages, following the
      cursor ends after ceil(n / limit) pages (one, when there is nothing to show) and the
      pages together are the list. */
  lemma WalkListsEverything(list: seq<Item>, limit: nat, pages: seq<Page>)
    requires limit >= 1 && PagesEndFirst(list, limit) && IsWalk(list, limit, pages)
    ensures Listed(pages) == list
    ensures (|pages| - 1) * limit < |list| <= |pages| * limit || (list == [] && |pages| == 1)
  {
    hide IsWalk, PagesEndFirst, Listed, Offset;
    var last := |pages| - 1;
    FirstPage(list, limit, pages);
    var start := WalkPrefix(list, limit, pages, last);
    LastPage(list, limit, pages);
    assert list == list[..start] + list[start..];
    ListedGrows(pages, last);
    assert pages[..last + 1] == pages;
    OffsetIsProduct(last, limit);
    assert |pages| * limit == last * limit + limit;
  }

  lemma LastPage(list: seq<Item>, limit: nat, pages: seq<Page>)
    requires limit >= 1 && IsWalk(list, limit, pages)
    ensures pages != [] && pages[|pages| - 1].next.None?
  {
  }

  lemma ChainGrows(list: seq<Item>, limit: nat, pages: seq<Page>, after: Page)
    requires limit >= 1 && pages != [] && Chained(list, limit, pages)
    requires FollowsOn(list, limit, pages[|pages| - 1], after)
    ensures Chained(list, limit, pages + [after])
  {
    hide FollowsOn;
  }

  lemma WalkGoesOn(list: seq<Item>, limit: nat, pages: seq<Page>, start: nat, k: nat)
    requires limit >= 1 && PagesEndFirst(list, limit) && start == Offset(k, limit) && start + limit < |list|
    requires pages != [] && Chained(list, limit, pages) && pages[|pages| - 1] == PageFrom(list, limit, start)
    ensures Chained(list, limit, pages + [PageFrom(list, limit, start + limit)])
  {
    assert EndsFirst(list, limit, Offset(k, limit));
    hide PageFrom, EndsFirst, Chained, FollowsOn;
    CursorResumes(list, limit, start, PageFrom(list, limit, start + limit));
    ChainGrows(list, limit, pages, PageFrom(list, limit, start + limit));
  }

  // What has been walked goes on to the end.
  lemma {:induction false} WalkOn(list: seq<Item>, limit: nat, pages: seq<Page>, start: nat, k: nat)
    returns (all: seq<Page>)
    requires limit >= 1 && PagesEndFirst(list, limit) && start == Offset(k, limit) && start <= |list|
    requires pages != [] && Chained(list, limit, pages) && pages[|pages| - 1] == PageFrom(list, limit, start)
    ensures all != [] && all[0] == pages[0] && Chained(list, limit, all) && all[|all| - 1].next.None?
    decreases |list| - start
  {
    if start + limit < |list| {
      WalkGoesOn(list, limit, pages, start, k);
      hide PagesEndFirst, Chained, PageFrom;
      all := WalkOn(list, limit, pages + [PageFrom(list, limit, start + limit)], start + limit, k + 1);
    } else {
      all := pages;
    }
  }

  /** The walk never gets stuck. */
  lemma WalkEnds(list: seq<Item>, limit: nat) returns (pages: seq<Page>)
    requires limit >= 1 && PagesEndFirst(list, limit)
    ensures IsWalk(list, limit, pages)
  {
    pages := WalkOn(list, limit, [PageAt(list, limit, None)], 0, 0);
  }

  /** For one snapshot of candidates, the pages of a whole walk show every candidate
      exactly once, in feed order. */
  lemma FeedWalk(candidates: seq<Item>, personal: Id -> int, limit: nat, pages: seq<Page>)
    requires limit >= 1 && IsWalk(Feed(candidates, personal), limit, pages)
    ensures Listed(pages) == Feed(candidates, personal)
    ensures DistinctIds(Listed(pages))
    ensures forall id :: HasId(Listed(pages), id) <==> HasId(candidates, id)
  {
    FeedShowsCandidates(candidates, personal);
    DistinctEndsFirst(Feed(candidates, personal), limit);
    WalkListsEverything(Feed(candidates, personal), limit, pages);
  }

  // A cursor never leads further than the end of its page.  What a walk has listed by page
  // `k` is at least what comes before it, and just that only if no cursor led back.
  lemma {:induction false} WalkSurplus(list: seq<Item>, limit: nat, pages: seq<Page>, k: nat) returns (start: nat)
    requires limit >= 1 && IsWalk(list, limit, pages) && k < |pages|
    ensures start <= |list| && pages[k] == PageFrom(list, limit, start) && |Listed(pages[..k])| >= start
    ensures |Listed(pages[..k])| == start ==>
      start == Offset(k, limit) && forall j: nat | j < k :: EndsFirst(list, limit, Offset(j, limit))
  {
    hide *;
    if k == 0 {
      FirstPage(list, limit, pages);
      return 0;
    }
    var before := WalkSurplus(list, limit, pages, k - 1);
    var after := pages[k];
    PageFollows(list, limit, pages, k);
    ListedGrows(pages, k - 1);
    start := CursorLeads(list, limit, before, after);
    ItemsOfPage(list, limit, before);
    OffsetNext(k, limit);
    assert |Listed(pages[..k])| == |Listed(pages[..k - 1])| + limit;
    if |Listed(pages[..k])| == start {
      assert before == Offset(k - 1, limit) && EndsFirst(list, limit, before);
    }
  }

  lemma PageFollows(list: seq<Item>, limit: nat, pages: seq<Page>, k: nat)
    requires limit >= 1 && IsWalk(list, limit, pages) && 0 < k < |pages|
    ensures FollowsOn(list, limit, pages[k - 1], pages[k])
  {
  }

  lemma OffsetNext(k: nat, limit: nat)
    requires k > 0
    ensures Offset(k, limit) == Offset(k - 1, limit) + limit
  {
  }

  lemma CursorLeads(list: seq<Item>, limit: nat, before: nat, after: Page) returns (start: nat)
    requires limit >= 1 && before <= |list| && FollowsOn(list, limit, PageFrom(list, limit, before), after)
    ensures before + limit < |list| && start <= before + limit && after == PageFrom(list, limit, start)
    ensures start == before + limit <==> EndsFirst(list, limit, before)
  {
    start := StartIndex(list, Some(list[before + limit - 1].id));
  }

  lemma {:induction false} OffsetGrows(j: nat, k: nat, limit: nat)
    requires j <= k
    ensures Offset(j, limit) <= Offset(k, limit)
    decreases k - j
  {
    if j < k { OffsetGrows(j, k - 1, limit); }
  }

  lemma WalkOfListEndsFirst(list: seq<Item>, limit: nat, pages: seq<Page>)
    requires limit >= 1 && IsWalk(list, limit, pages) && Listed(pages) == list
    ensures PagesEndFirst(list, limit)
  {
    var last := |pages| - 1;
    FirstPage(list, limit, pages);
    var start := WalkSurplus(list, limit, pages, last);
    LastPage(list, limit, pages);
    ListedGrows(pages, last);
    assert pages[..last + 1] == pages;
    hide IsWalk, Listed;
    assert |list[start..]| == |list| - start && |Listed(pages[..last])| == start;
    forall k: nat ensures EndsFirst(list, limit, Offset(k, limit)) {
      if k >= last { OffsetGrows(last, k, limit); }
    }
  }

  /** For any list, repeated ids included: some walk ends and shows the list once, in order,
      exactly when the item each full page ends on is the first of the list with its id.
      Otherwise a cursor leads back, and the walk shows items twice or never ends. */
  lemma WalkShowsListIff(list: seq<Item>, limit: nat)
    requires limit >= 1
    ensures (exists pages :: IsWalk(list, limit, pages) && Listed(pages) == list) <==> PagesEndFirst(list, limit)
  {
    if PagesEndFirst(list, limit) {
      var pages := WalkEnds(list, limit);
      WalkListsEverything(list, limit, pages);
    } else if exists pages :: IsWalk(list, limit, pages) && Listed(pages) == list {
      var pages :| IsWalk(list, limit, pages) && Listed(pages) == list;
      WalkOfListEndsFirst(list, limit, pages);
    }
  }

  /** One list on which no walk ends: the cursor points back at the first of two items with
      its id, again and again. */
  lemma {:induction false} RepeatedIdsTrapTheCursor(a: Item, b: Item, pages: seq<Page>)
    requires a.id != b.id
    ensures !IsWalk([a, a, b], 1, pages)
  {
    if IsWalk([a, a, b], 1, pages) {
      Trapped(a, b, pages, |pages| - 1);
    }
  }

  lemma {:induction false} Trapped(a: Item, b: Item, pages: seq<Page>, k: nat)
    requires a.id != b.id && IsWalk([a, a, b], 1, pages) && k < |pages|
    ensures pages[k].next == Some(a.id)
  {
    if k > 0 {
      Trapped(a, b, pages, k - 1);
      assert [a, a, b][0].id == a.id;
    }
  }

  /** A cursor whose item has left the list starts over from the top. */
  lemma LostCursorRestarts(list: seq<Item>, limit: nat, cursor: Id)
    requires limit >= 1 && DistinctIds(list)
    ensures PageAt(list, limit, Some(cursor)) == PageAt(list, limit, None) <==> !HasId(list, cursor)
  {
    var start := StartIndex(list, Some(cursor));
    if start > 0 {
      assert HasId(list, cursor);
      assert PageAt(list, limit, None).items[0] == list[0];
      if start < |list| {
        assert PageAt(list, limit, Some(cursor)).items[0] == list[start];
      }
    }
  }
}
