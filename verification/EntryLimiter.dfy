/** `_EntryLimiter` of `communication_log.py`: the newest entries of a stream, kept in a bounded heap. */
module EntryLimiter {
  import opened RankHeap

  datatype Entry = Entry(created: string, body: string)

  // ---------------------------------------------------------------- the naive specification

  // A stable sort, newest first: each entry goes after those that are not older than it.
  function Insert(s: seq<Entry>, x: Entry): seq<Entry> {
    if s == [] || Less(s[0].created, x.created) then [x] + s else [s[0]] + Insert(s[1..], x)
  }

  function NewestFirst(added: seq<Entry>): seq<Entry> {
    if added == [] then [] else Insert(NewestFirst(added[..|added| - 1]), added[|added| - 1])
  }

  // The entries of one time, in order.
  function OfTime(s: seq<Entry>, created: string): seq<Entry> {
    if s == [] then []
    else (if s[0].created == created then [s[0]] else []) + OfTime(s[1..], created)
  }

  lemma {:induction false} OfTimeKeeps(s: seq<Entry>, created: string, e: Entry)
    ensures multiset(OfTime(s, created))[e] == if e.created == created then multiset(s)[e] else 0
  {
    if s != [] {
      OfTimeKeeps(s[1..], created, e);
      assert s == [s[0]] + s[1..];
    }
  }

  // Sorted, newest first, stable: the same entries, none before a newer one, and those of one time in the
  // order in which they were added.
  ghost predicate StablySorted(added: seq<Entry>, s: seq<Entry>) {
    && multiset(s) == multiset(added)
    && (forall i, j :: 0 <= i < j < |s| ==> !Less(s[i].created, s[j].created))
    && forall created :: OfTime(s, created) == OfTime(added, created)
  }

  lemma {:induction false} OfTimeConcat(s: seq<Entry>, t: seq<Entry>, created: string)
    ensures OfTime(s + t, created) == OfTime(s, created) + OfTime(t, created)
  {
    if s == [] {
      assert s + t == t;
    } else {
      assert (s + t)[1..] == s[1..] + t;
      OfTimeConcat(s[1..], t, created);
    }
  }

  lemma {:induction false} NoneOfTime(s: seq<Entry>, created: string)
    requires forall i :: 0 <= i < |s| ==> s[i].created != created
    ensures OfTime(s, created) == []
  {
    if s != [] {
      NoneOfTime(s[1..], created);
    }
  }

  // Where an entry goes: behind all that are not older, before the first that is.
  lemma {:induction false} InsertAt(s: seq<Entry>, x: Entry) returns (p: nat)
    ensures p <= |s| && Insert(s, x) == s[..p] + [x] + s[p..]
    ensures (forall i :: 0 <= i < p ==> !Less(s[i].created, x.created)) && (p < |s| ==> Less(s[p].created, x.created))
  {
    if s == [] || Less(s[0].created, x.created) {
      p := 0;
    } else {
      var q := InsertAt(s[1..], x);
      p := q + 1;
      assert s[..p] == [s[0]] + s[1..][..q] && s[p..] == s[1..][q..];
    }
  }

  lemma InsertSorts(added: seq<Entry>, s: seq<Entry>, x: Entry)
    requires StablySorted(added, s)
    ensures StablySorted(added + [x], Insert(s, x))
  {
    hide Less, OfTime, Insert, StablySorted;
    var p := InsertAt(s, x);
    SortedParts(added, s);
    Older(s, x, p);
    InsertKeepsEntries(added, s, x, p);
    forall created ensures OfTime(Insert(s, x), created) == OfTime(added + [x], created) {
      InsertKeepsTimes(s, x, p, created);
      OfTimeConcat(added, [x], created);
    }
    Sorted(added + [x], Insert(s, x));
  }

  lemma InsertKeepsEntries(added: seq<Entry>, s: seq<Entry>, x: Entry, p: nat)
    requires multiset(s) == multiset(added) && p <= |s|
    ensures multiset(s[..p] + [x] + s[p..]) == multiset(added + [x])
  {
    assert s == s[..p] + s[p..];
  }

  lemma SortedParts(added: seq<Entry>, s: seq<Entry>)
    requires StablySorted(added, s)
    ensures multiset(s) == multiset(added) && forall created :: OfTime(s, created) == OfTime(added, created)
    ensures forall i, j :: 0 <= i < j < |s| ==> !Less(s[i].created, s[j].created)
  {
  }

  lemma Sorted(added: seq<Entry>, s: seq<Entry>)
    requires multiset(s) == multiset(added) && forall created :: OfTime(s, created) == OfTime(added, created)
    requires forall i, j :: 0 <= i < j < |s| ==> !Less(s[i].created, s[j].created)
    ensures StablySorted(added, s)
  {
  }

  // All from p on are older, so nothing stands before a newer entry.
  lemma Older(s: seq<Entry>, x: Entry, p: nat)
    requires p <= |s| && forall i, j :: 0 <= i < j < |s| ==> !Less(s[i].created, s[j].created)
    requires (forall i :: 0 <= i < p ==> !Less(s[i].created, x.created)) && (p < |s| ==> Less(s[p].created, x.created))
    ensures forall j :: p <= j < |s| ==> Less(s[j].created, x.created) && s[j].created != x.created
    ensures var r := s[..p] + [x] + s[p..]; forall i, j :: 0 <= i < j < |r| ==> !Less(r[i].created, r[j].created)
  {
    hide Less;
    forall j | p <= j < |s|
      ensures Less(s[j].created, x.created) && s[j].created != x.created && !Less(x.created, s[j].created)
    {
      LessIsStrict(s[j].created, s[p].created, x.created);
      LessIsStrict(s[p].created, s[j].created, x.created);
      LessIsStrict(x.created, s[j].created, x.created);
    }
  }

  lemma InsertKeepsTimes(s: seq<Entry>, x: Entry, p: nat, created: string)
    requires p <= |s| && forall j :: p <= j < |s| ==> s[j].created != x.created
    ensures OfTime(s[..p] + [x] + s[p..], created) == OfTime(s, created) + OfTime([x], created)
  {
    var front, back := s[..p], s[p..];
    assert s == front + back;
    hide OfTime;
    OfTimeConcat(front, back, created);
    OfTimeConcat(front + [x], back, created);
    OfTimeConcat(front, [x], created);
    if created == x.created {
      NoneOfTime(back, created);
      assert OfTime(front, created) + [] == OfTime(front, created);
      assert OfTime(front + [x], created) + [] == OfTime(front + [x], created);
    } else {
      NoneOfTime([x], created);
      assert OfTime(front, created) + [] == OfTime(front, created);
      assert OfTime(s, created) + [] == OfTime(s, created);
    }
  }

  /** The naive list is what it should be: everything added, sorted newest first, stably. */
  lemma {:induction false} NewestFirstSorts(added: seq<Entry>)
    ensures StablySorted(added, NewestFirst(added))
  {
    if added != [] {
      var n := |added| - 1;
      NewestFirstSorts(added[..n]);
      InsertSorts(added[..n], NewestFirst(added[..n]), added[n]);
      assert added[..n] + [added[n]] == added;
    }
  }

  function First<T>(s: seq<T>, limit: nat): (r: seq<T>)
    ensures |r| == if |s| < limit then |s| else limit
  {
    if |s| < limit then s else s[..limit]
  }

  // ---------------------------------------------------------------- sorting by rank

  // How many leading items x does not come after.
  function Place(s: seq<Item<Entry>>, x: Item<Entry>): (p: nat)
    ensures p <= |s|
    ensures forall i :: 0 <= i < p ==> AtOrAfter(s[i], x)
    ensures p < |s| ==> Before(s[p].rank, x.rank)
  {
    if s == [] || Before(s[0].rank, x.rank) then 0 else 1 + Place(s[1..], x)
  }

  function InsertItem(s: seq<Item<Entry>>, x: Item<Entry>): seq<Item<Entry>> {
    s[..Place(s, x)] + [x] + s[Place(s, x)..]
  }

  // `sorted(items, key=rank, reverse=True)`
  function SortItems(items: seq<Item<Entry>>): seq<Item<Entry>> {
    if items == [] then [] else InsertItem(SortItems(items[..|items| - 1]), items[|items| - 1])
  }

  function Bodies(items: seq<Item<Entry>>): (es: seq<Entry>)
    ensures |es| == |items| && forall i :: 0 <= i < |items| ==> es[i] == items[i].entry
  {
    seq(|items|, i requires 0 <= i < |items| => items[i].entry)
  }

  ghost predicate Falling(s: seq<Item<Entry>>) {
    forall i, j :: 0 <= i < j < |s| ==> AtOrAfter(s[i], s[j])
  }

  ghost predicate StrictlyFalling(s: seq<Item<Entry>>) {
    forall i, j :: 0 <= i < j < |s| ==> Before(s[j].rank, s[i].rank)
  }

  // The items the limiter makes of a stream.
  function Ranked(added: seq<Entry>): (items: seq<Item<Entry>>)
    ensures |items| == |added|
    ensures forall i :: 0 <= i < |items| ==> items[i] == Item(Rank(added[i].created, -i), added[i])
  {
    seq(|added|, i requires 0 <= i < |added| => Item(Rank(added[i].created, -i), added[i]))
  }

  lemma {:induction false} SortKeepsItems(items: seq<Item<Entry>>)
    ensures multiset(SortItems(items)) == multiset(items)
  {
    hide InsertItem;
    if items != [] {
      var n := |items| - 1;
      assert SortItems(items) == InsertItem(SortItems(items[..n]), items[n]);
      hide SortItems;
      SortKeepsItems(items[..n]);
      InsertKeepsItems(SortItems(items[..n]), items[n]);
      assert items == items[..n] + [items[n]];
    }
  }

  lemma InsertKeepsItems(s: seq<Item<Entry>>, x: Item<Entry>)
    ensures multiset(InsertItem(s, x)) == multiset(s) + multiset{x} && |InsertItem(s, x)| == |s| + 1
  {
    assert s == s[..Place(s, x)] + s[Place(s, x)..];
  }

  lemma InsertFalls(s: seq<Item<Entry>>, x: Item<Entry>)
    requires Falling(s)
    ensures Falling(InsertItem(s, x))
  {
    var p, t := Place(s, x), InsertItem(s, x);
    forall i, j | 0 <= i < j < |t|
      ensures AtOrAfter(t[i], t[j])
    {
      if p < i {
        assert t[i] == s[i - 1] && t[j] == s[j - 1];
      } else if i == p {
        assert t[j] == s[j - 1];
        BeforeIsTotalOrder(s[j - 1].rank, s[p].rank, x.rank);
        BeforeIsTotalOrder(x.rank, s[p].rank, s[j - 1].rank);
      } else if j > p {
        assert t[i] == s[i] && (j > p ==> j == p || t[j] == s[j - 1]);
      }
    }
  }

  lemma {:induction false} SortFalls(items: seq<Item<Entry>>)
    ensures Falling(SortItems(items))
  {
    if items != [] {
      SortFalls(items[..|items| - 1]);
      InsertFalls(SortItems(items[..|items| - 1]), items[|items| - 1]);
    }
  }

  lemma SameFirst(a: seq<Item<Entry>>, b: seq<Item<Entry>>)
    requires a != [] && b != [] && Falling(a) && StrictlyFalling(b) && multiset(a) == multiset(b)
    ensures a[0] == b[0]
  {
    assert a[0] in multiset(b) && b[0] in multiset(a);
    var j, i :| 0 <= j < |b| && b[j] == a[0] && 0 <= i < |a| && a[i] == b[0];
    BeforeIsTotalOrder(a[0].rank, b[0].rank, a[0].rank);
  }

  lemma SameRest(a: seq<Item<Entry>>, b: seq<Item<Entry>>)
    requires a != [] && b != [] && a[0] == b[0] && multiset(a) == multiset(b)
    ensures multiset(a[1..]) == multiset(b[1..])
  {
    assert a == [a[0]] + a[1..] && b == [b[0]] + b[1..];
    assert multiset(a[1..]) == multiset(a) - multiset{a[0]};
    assert multiset(b[1..]) == multiset(b) - multiset{b[0]};
  }

  lemma SameLength(a: seq<Item<Entry>>, b: seq<Item<Entry>>)
    requires multiset(a) == multiset(b)
    ensures |a| == |b|
  {
    assert |multiset(a)| == |a| && |multiset(b)| == |b|;
  }

  // Sorting does not depend on the order the items come in.
  lemma {:induction false} SameItemsSameOrder(a: seq<Item<Entry>>, b: seq<Item<Entry>>)
    requires Falling(a) && StrictlyFalling(b) && multiset(a) == multiset(b)
    ensures a == b
    decreases |a|
  {
    SameLength(a, b);
    if a != [] {
      SameFirst(a, b);
      SameRest(a, b);
      SameItemsSameOrder(a[1..], b[1..]);
      assert a == [a[0]] + a[1..] && b == [b[0]] + b[1..];
    }
  }

  // ---------------------------------------------------------------- ranks sort as the stable sort does

  // No item's order is below n: whatever is ranked next comes before all of its own time.
  ghost predicate OrdersAbove(s: seq<Item<Entry>>, n: int) {
    forall i :: 0 <= i < |s| ==> s[i].rank.created == s[i].entry.created && s[i].rank.order > n
  }

  lemma InsertItemCons(s: seq<Item<Entry>>, x: Item<Entry>)
    requires s != [] && !Before(s[0].rank, x.rank)
    ensures InsertItem(s, x) == [s[0]] + InsertItem(s[1..], x)
  {
    var p := Place(s[1..], x);
    assert s[..1 + p] == [s[0]] + s[1..][..p] && s[1 + p..] == s[1..][p..];
  }

  lemma BodiesCons(a: Item<Entry>, s: seq<Item<Entry>>)
    ensures Bodies([a] + s) == [a.entry] + Bodies(s)
  {
  }

  lemma {:induction false} InsertAgrees(s: seq<Item<Entry>>, x: Item<Entry>)
    requires OrdersAbove(s, x.rank.order) && x.rank.created == x.entry.created
    ensures Bodies(InsertItem(s, x)) == Insert(Bodies(s), x.entry)
  {
    if s == [] || Before(s[0].rank, x.rank) {
      assert InsertItem(s, x) == [x] + s;
      BodiesCons(x, s);
    } else {
      InsertAgrees(s[1..], x);
      InsertItemCons(s, x);
      BodiesCons(s[0], InsertItem(s[1..], x));
      BodiesCons(s[0], s[1..]);
      assert [s[0]] + s[1..] == s && Bodies(s)[1..] == Bodies(s[1..]);
    }
  }

  lemma OrdersKept(items: seq<Item<Entry>>, n: int)
    requires OrdersAbove(items, n)
    ensures OrdersAbove(SortItems(items), n)
  {
    SortKeepsItems(items);
    forall i | 0 <= i < |SortItems(items)|
      ensures SortItems(items)[i] in items
    {
      assert SortItems(items)[i] in multiset(SortItems(items));
    }
  }

  /** The limiter's ranks turn the stable sort into a sort without ties. */
  lemma {:induction false} RanksSortStably(added: seq<Entry>)
    ensures Bodies(SortItems(Ranked(added))) == NewestFirst(added)
    ensures StrictlyFalling(SortItems(Ranked(added)))
  {
    if added != [] {
      var n := |added| - 1;
      RankedSnoc(added[..n], added[n]);
      assert added[..n] + [added[n]] == added;
      hide SortItems, InsertItem, Insert, StrictlyFalling;
      RanksSortStably(added[..n]);
      OrdersKept(Ranked(added[..n]), -n);
      InsertAgrees(SortItems(Ranked(added[..n])), Ranked(added)[n]);
      InsertFallsStrictly(SortItems(Ranked(added[..n])), Ranked(added)[n]);
    }
  }

  lemma RankedSnoc(added: seq<Entry>, x: Entry)
    ensures Ranked(added + [x]) == Ranked(added) + [Item(Rank(x.created, -|added|), x)]
    ensures SortItems(Ranked(added + [x])) == InsertItem(SortItems(Ranked(added)), Item(Rank(x.created, -|added|), x))
  {
    assert Ranked(added + [x])[..|added|] == Ranked(added);
  }

  lemma InsertFallsStrictly(s: seq<Item<Entry>>, x: Item<Entry>)
    requires StrictlyFalling(s) && OrdersAbove(s, x.rank.order)
    ensures StrictlyFalling(InsertItem(s, x))
  {
    var p, t := Place(s, x), InsertItem(s, x);
    forall i, j | 0 <= i < j < |t|
      ensures Before(t[j].rank, t[i].rank)
    {
      if i == p {
        assert t[j] == s[j - 1];
        BeforeIsTotalOrder(s[j - 1].rank, s[p].rank, x.rank);
      } else if j == p {
        BeforeIsTotalOrder(s[i].rank, x.rank, x.rank);
      }
    }
  }

  // ---------------------------------------------------------------- the k first of one more item

  lemma FirstOfFew(s: seq<Item<Entry>>, x: Item<Entry>, k: nat)
    requires |s| < k
    ensures multiset(First(InsertItem(s, x), k)) == multiset(First(s, k)) + multiset{x}
  {
    hide InsertItem;
    InsertKeepsItems(s, x);
    assert InsertItem(s, x)[..|s| + 1] == InsertItem(s, x);
  }

  // The last of the k first makes way for an item that comes before it.
  lemma FirstTakesIn(s: seq<Item<Entry>>, x: Item<Entry>, k: nat)
    requires StrictlyFalling(s) && 1 <= k <= |s| && Before(s[k - 1].rank, x.rank)
    ensures multiset(First(InsertItem(s, x), k)) + multiset{s[k - 1]} == multiset(First(s, k)) + multiset{x}
  {
    var p := Place(s, x);
    assert p < k by {
      assert p >= k ==> AtOrAfter(s[k - 1], x);
    }
    FirstSplits(s, x, p, k);
  }

  lemma FirstSplits<T>(s: seq<T>, x: T, p: nat, k: nat)
    requires p < k <= |s|
    ensures multiset((s[..p] + [x] + s[p..])[..k]) + multiset{s[k - 1]} == multiset(s[..k]) + multiset{x}
  {
    assert (s[..p] + [x] + s[p..])[..k] == s[..p] + [x] + s[p..k - 1];
    assert s[..k] == s[..p] + s[p..k - 1] + [s[k - 1]];
  }

  lemma FirstStays(s: seq<Item<Entry>>, x: Item<Entry>, k: nat)
    requires StrictlyFalling(s) && 1 <= k <= |s| && !Before(s[k - 1].rank, x.rank)
    ensures First(InsertItem(s, x), k) == First(s, k)
  {
    var p := Place(s, x);
    if p < k {
      BeforeIsTotalOrder(s[k - 1].rank, s[p].rank, x.rank);
    }
  }

  function Top(added: seq<Entry>, k: nat): seq<Item<Entry>> {
    First(SortItems(Ranked(added)), k)
  }

  lemma TopSize(added: seq<Entry>, heap: seq<Item<Entry>>, k: nat)
    requires multiset(heap) == multiset(Top(added, k))
    ensures |SortItems(Ranked(added))| == |added|
    ensures |heap| == if |added| < k then |added| else k
  {
    SortKeepsItems(Ranked(added));
    SameLength(SortItems(Ranked(added)), Ranked(added));
    SameLength(heap, Top(added, k));
  }

  /** What one more entry does to the k first, told from the size and the root of their heap. */
  lemma TopAfter(added: seq<Entry>, x: Entry, k: nat, heap: seq<Item<Entry>>)
    requires 1 <= k && IsHeap(heap) && multiset(heap) == multiset(Top(added, k))
    ensures var item, top := Item(Rank(x.created, -|added|), x), multiset(Top(added + [x], k));
            && (|heap| < k ==> top == multiset(heap) + multiset{item})
            && (|heap| >= k && Before(heap[0].rank, item.rank) ==>
                  top + multiset{heap[0]} == multiset(heap) + multiset{item})
            && (|heap| >= k && !Before(heap[0].rank, item.rank) ==> top == multiset(heap))
  {
    hide InsertItem, SortItems, Ranked, Before;
    var item, sorted := Item(Rank(x.created, -|added|), x), SortItems(Ranked(added));
    RanksSortStably(added);
    RankedSnoc(added, x);
    TopSize(added, heap, k);
    if |heap| < k {
      FirstOfFew(sorted, item, k);
    } else {
      RootIsLast(heap, First(sorted, k));
      if Before(heap[0].rank, item.rank) {
        FirstTakesIn(sorted, item, k);
      } else {
        FirstStays(sorted, item, k);
      }
    }
  }

  // The root of a heap of the k first is the last of them.
  lemma RootIsLast(heap: seq<Item<Entry>>, top: seq<Item<Entry>>)
    requires IsHeap(heap) && StrictlyFalling(top) && top != [] && multiset(heap) == multiset(top)
    ensures heap != [] && heap[0] == top[|top| - 1]
  {
    var last := top[|top| - 1];
    assert last in multiset(heap);
    var i :| 0 <= i < |heap| && heap[i] == last;
    RootIsLeast(heap, i);
    assert heap[0] in multiset(top);
    var j :| 0 <= j < |top| && top[j] == heap[0];
    assert j == |top| - 1;
  }

  lemma RanksDistinct(heap: seq<Item<Entry>>, top: seq<Item<Entry>>, i: nat, j: nat)
    requires StrictlyFalling(top) && multiset(heap) == multiset(top) && i < j < |heap|
    ensures heap[i].rank != heap[j].rank
  {
    if heap[i].rank == heap[j].rank {
      assert heap[i] in multiset(top) && heap[j] in multiset(top);
      var p, q :| 0 <= p < |top| && top[p] == heap[i] && 0 <= q < |top| && top[q] == heap[j];
      BeforeIsTotalOrder(heap[i].rank, heap[i].rank, heap[i].rank);
      assert p == q;
      assert heap == heap[..i] + [heap[i]] + heap[i + 1..j] + [heap[j]] + heap[j + 1..];
      assert multiset(heap)[heap[i]] >= 2;
      AtMostOnce(top, heap[i]);
    }
  }

  lemma {:induction false} AtMostOnce(s: seq<Item<Entry>>, x: Item<Entry>)
    requires StrictlyFalling(s)
    ensures multiset(s)[x] <= 1
  {
    if s != [] {
      AtMostOnce(s[1..], x);
      assert s == [s[0]] + s[1..];
      if s[0] == x && x in s[1..] {
        BeforeIsTotalOrder(x.rank, x.rank, x.rank);
      }
    }
  }

  lemma SameBut(a: seq<Item<Entry>>, b: seq<Item<Entry>>, x: Item<Entry>)
    requires multiset(a) + multiset{x} == multiset(b) + multiset{x}
    ensures multiset(a) == multiset(b)
  {
    assert multiset(a) == multiset(a) + multiset{x} - multiset{x};
    assert multiset(b) == multiset(b) + multiset{x} - multiset{x};
  }

  // ---------------------------------------------------------------- the limiter

  class Limiter {
    const limit: nat
    var total: nat
    var sequence: nat
    var entries: seq<Item<Entry>>
    ghost var added: seq<Entry>

    ghost predicate Valid() reads this {
      && 1 <= limit && total == |added| && sequence == |added|
      && IsHeap(entries) && multiset(entries) == multiset(Top(added, limit))
    }

    constructor (limit: nat)
      requires 1 <= limit
      ensures Valid() && this.limit == limit && added == [] && total == 0
    {
      this.limit := limit;
      total, sequence, entries, added := 0, 0, [], [];
    }

    method Add(entry: Entry)
      requires Valid()
      modifies this
      ensures Valid() && added == old(added) + [entry] && total == old(total) + 1
    {
      hide Top;
      TopAfter(added, entry, limit, entries);
      var arrival: int := sequence;
      var item := Item(Rank(entry.created, -arrival), entry);
      total := total + 1;
      sequence := sequence + 1;
      added := added + [entry];
      if |entries| < limit {
        entries := Push(entries, item);
      } else if Before(entries[0].rank, item.rank) {
        ghost var before := entries;
        entries := Replace(entries, item);
        SameBut(entries, Top(added, limit), before[0]);
      }
    }

    /** No two entries in the heap have the same rank, so comparing them never compares the entries. */
    lemma RanksDiffer(i: nat, j: nat)
      requires Valid() && i < j < |entries|
      ensures entries[i].rank != entries[j].rank
    {
      RanksSortStably(added);
      RanksDistinct(entries, Top(added, limit), i, j);
    }

    /** The items are the first `limit` of the stable sort, newest first, of everything added. */
    method Items() returns (items: seq<Entry>)
      requires Valid()
      ensures items == First(NewestFirst(added), limit)
    {
      items := Bodies(SortItems(entries));
      RanksSortStably(added);
      SortFalls(entries);
      SortKeepsItems(entries);
      SameItemsSameOrder(SortItems(entries), Top(added, limit));
    }
  }
}
