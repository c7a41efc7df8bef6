/** Ranks and the binary heap of `heapq`, as `_EntryLimiter` uses it: the least rank is at the root. */
module RankHeap {

  // A time stamp and, to break ties, the negated arrival number.
  datatype Rank = Rank(created: string, order: int)

  datatype Item<T> = Item(rank: Rank, entry: T)

  // String comparison: by the first character that differs, a proper prefix being less.
  predicate Less(a: string, b: string) {
    b != "" && (a == "" || a[0] < b[0] || (a[0] == b[0] && Less(a[1..], b[1..])))
  }

  predicate Before(r: Rank, s: Rank) {
    Less(r.created, s.created) || (r.created == s.created && r.order < s.order)
  }

  lemma {:induction false} LessIsStrict(a: string, b: string, c: string)
    ensures !Less(a, a)
    ensures Less(a, b) && Less(b, c) ==> Less(a, c)
    ensures Less(a, b) || a == b || Less(b, a)
  {
    if a != "" {
      LessIsStrict(a[1..], if b == "" then b else b[1..], if c == "" then c else c[1..]);
      if b != "" && a[0] == b[0] && a[1..] == b[1..] {
        assert a == [a[0]] + a[1..] && b == [b[0]] + b[1..];
      }
    }
  }

  /** The comparison is decided by the first characters that differ; a proper prefix comes first. */
  lemma {:induction false} LessIs(a: string, b: string)
    ensures Less(a, b) <==> exists k: nat :: LessAt(a, b, k)
  {
    if a != "" && b != "" && a[0] == b[0] {
      LessIs(a[1..], b[1..]);
      if Less(a[1..], b[1..]) {
        var k: nat :| LessAt(a[1..], b[1..], k);
        assert a[..k + 1] == [a[0]] + a[1..][..k] && b[..k + 1] == [b[0]] + b[1..][..k];
        assert LessAt(a, b, k + 1);
      }
      if k: nat :| LessAt(a, b, k) {
        assert k > 0 && a[1..][..k - 1] == a[..k][1..] && b[1..][..k - 1] == b[..k][1..];
        assert LessAt(a[1..], b[1..], k - 1);
      }
    } else if Less(a, b) {
      assert LessAt(a, b, 0);
    } else {
      forall k: nat ensures LessAt(a, b, k) ==> Less(a, b) {
        assert 0 < k <= |a| && k <= |b| ==> a[..k][0] == a[0] && b[..k][0] == b[0];
      }
    }
  }

  // The strings agree up to k, where the first one ends or has the lesser character.
  ghost predicate LessAt(a: string, b: string, k: nat) {
    k <= |a| && k < |b| && a[..k] == b[..k] && (k == |a| || a[k] < b[k])
  }

  /** Ranks are totally ordered. */
  lemma BeforeIsTotalOrder(r: Rank, s: Rank, t: Rank)
    ensures !Before(r, r)
    ensures Before(r, s) && Before(s, t) ==> Before(r, t)
    ensures Before(r, s) || r == s || Before(s, r)
    ensures Before(r, s) ==> !Before(s, r)
    ensures !Before(r, s) && !Before(s, t) ==> !Before(r, t)
  {
    LessIsStrict(r.created, s.created, t.created);
    LessIsStrict(t.created, s.created, r.created);
    LessIsStrict(r.created, s.created, r.created);
    LessIsStrict(s.created, t.created, s.created);
    LessIsStrict(r.created, t.created, r.created);
  }

  // ---------------------------------------------------------------- the heap

  function Parent(i: nat): (p: nat)
    requires i > 0
    ensures p < i && (i == 2 * p + 1 || i == 2 * p + 2)
  {
    (i - 1) / 2
  }

  ghost predicate AtOrAfter<T>(x: Item<T>, y: Item<T>) {
    !Before(x.rank, y.rank)
  }

  ghost predicate IsHeap<T>(h: seq<Item<T>>) {
    forall i :: 0 < i < |h| ==> AtOrAfter(h[i], h[Parent(i)])
  }

  // A heap but for the node `hole` against its parent; its children do not come before that parent.
  ghost predicate LowHole<T>(h: seq<Item<T>>, hole: nat) {
    && (forall i :: 0 < i < |h| && i != hole ==> AtOrAfter(h[i], h[Parent(i)]))
    && (forall i :: 0 < hole < i < |h| && Parent(i) == hole ==> AtOrAfter(h[i], h[Parent(hole)]))
  }

  // A heap but for the node `hole` against its parent and its children; the same of its children.
  ghost predicate OpenHole<T>(h: seq<Item<T>>, hole: nat) {
    && (forall i :: 0 < i < |h| && i != hole && Parent(i) != hole ==> AtOrAfter(h[i], h[Parent(i)]))
    && (forall i :: 0 < hole < i < |h| && Parent(i) == hole ==> AtOrAfter(h[i], h[Parent(hole)]))
  }

  lemma {:induction false} RootIsLeast<T>(h: seq<Item<T>>, i: nat)
    requires IsHeap(h) && i < |h|
    ensures AtOrAfter(h[i], h[0])
  {
    if i > 0 {
      RootIsLeast(h, Parent(i));
      BeforeIsTotalOrder(h[i].rank, h[Parent(i)].rank, h[0].rank);
    } else {
      BeforeIsTotalOrder(h[0].rank, h[0].rank, h[0].rank);
    }
  }

  lemma SwapKeepsItems<T>(h: seq<Item<T>>, item: Item<T>, a: nat, b: nat)
    requires a < |h| && b < |h| && a != b
    ensures multiset(h[a := h[b]][b := item]) == multiset(h[a := item])
  {
    var g := h[a := item];
    assert g[b] == h[b];
    assert h[a := h[b]][b := item] == g[a := g[b]][b := g[a]];
  }

  // Moving the parent into the hole.
  lemma HoleRises<T>(h: seq<Item<T>>, item: Item<T>, hole: nat)
    requires 0 < hole < |h| && LowHole(h[hole := item], hole) && Before(item.rank, h[Parent(hole)].rank)
    ensures LowHole(h[hole := h[Parent(hole)]][Parent(hole) := item], Parent(hole))
  {
    var up := Parent(hole);
    var g, g' := h[hole := item], h[hole := h[up]][up := item];
    forall i | 0 < i < |h| && i != up
      ensures AtOrAfter(g'[i], g'[Parent(i)])
    {
      BeforeIsTotalOrder(g[i].rank, g[up].rank, item.rank);
      BeforeIsTotalOrder(item.rank, g[up].rank, item.rank);
      if i == hole {
      } else if Parent(i) == hole {
        assert AtOrAfter(g[i], g[up]);
      } else {
        assert AtOrAfter(g[i], g[Parent(i)]);
      }
    }
    forall i | 0 < up < i < |h| && Parent(i) == up
      ensures AtOrAfter(g'[i], g'[Parent(up)])
    {
      assert AtOrAfter(g[up], g[Parent(up)]);
      BeforeIsTotalOrder(g[i].rank, g[up].rank, g[Parent(up)].rank);
      if i != hole {
        assert AtOrAfter(g[i], g[up]);
      }
    }
  }

  // Moving the lesser child into the hole.
  lemma HoleSinks<T>(h: seq<Item<T>>, item: Item<T>, hole: nat, child: nat)
    requires hole < |h| && 0 < child < |h| && Parent(child) == hole && OpenHole(h[hole := item], hole)
    requires forall i :: 0 < i < |h| && Parent(i) == hole ==> AtOrAfter(h[i], h[child])
    ensures OpenHole(h[hole := h[child]][child := item], child)
  {
    var g, g' := h[hole := item], h[hole := h[child]][child := item];
    forall i | 0 < i < |h| && i != child && Parent(i) != child
      ensures AtOrAfter(g'[i], g'[Parent(i)])
    {
      if i == hole {
        assert AtOrAfter(g[child], g[Parent(hole)]);
      } else if Parent(i) == hole {
        assert g'[i] == h[i];
      } else {
        assert AtOrAfter(g[i], g[Parent(i)]);
      }
    }
    forall i | 0 < child < i < |h| && Parent(i) == child
      ensures AtOrAfter(g'[i], g'[Parent(child)])
    {
      assert AtOrAfter(g[i], g[Parent(i)]);
    }
  }

  // `heapq._siftdown` from the root: the item rises to its place.
  method Rise<T>(heap: seq<Item<T>>, start: nat, item: Item<T>) returns (h: seq<Item<T>>)
    requires start < |heap| && LowHole(heap[start := item], start)
    ensures IsHeap(h) && multiset(h) == multiset(heap[start := item]) && |h| == |heap|
  {
    h := heap;
    var hole := start;
    while hole > 0 && Before(item.rank, h[Parent(hole)].rank)
      invariant |h| == |heap| && 0 <= hole < |h|
      invariant LowHole(h[hole := item], hole)
      invariant multiset(h[hole := item]) == multiset(heap[start := item])
    {
      HoleRises(h, item, hole);
      SwapKeepsItems(h, item, hole, Parent(hole));
      h := h[hole := h[Parent(hole)]];
      hole := Parent(hole);
    }
    h := h[hole := item];
    forall i | 0 < i < |h|
      ensures AtOrAfter(h[i], h[Parent(i)])
    {
    }
  }

  // `heapq.heappush`
  method Push<T>(heap: seq<Item<T>>, item: Item<T>) returns (h: seq<Item<T>>)
    requires IsHeap(heap)
    ensures IsHeap(h) && multiset(h) == multiset(heap) + multiset{item} && |h| == |heap| + 1
  {
    var longer := heap + [item];
    assert longer[|heap| := item] == longer;
    forall i | 0 < i < |heap|
      ensures AtOrAfter(longer[i], longer[Parent(i)])
    {
      assert AtOrAfter(heap[i], heap[Parent(i)]);
    }
    h := Rise(longer, |heap|, item);
  }

  // The child to move up: the right one unless the left one comes before it.
  method LesserChild<T>(h: seq<Item<T>>, hole: nat) returns (child: nat)
    requires 2 * hole + 1 < |h|
    ensures 0 < child < |h| && Parent(child) == hole
    ensures forall i :: 0 < i < |h| && Parent(i) == hole ==> AtOrAfter(h[i], h[child])
  {
    child := 2 * hole + 1;
    BeforeIsTotalOrder(h[child].rank, h[child].rank, h[child].rank);
    if child + 1 < |h| {
      BeforeIsTotalOrder(h[child + 1].rank, h[child].rank, h[child].rank);
      if !Before(h[child].rank, h[child + 1].rank) {
        child := child + 1;
      }
    }
  }

  // `heapq.heapreplace`: the root goes, the hole it leaves sinks to a leaf taking the lesser child
  // each time, and the new item rises from there.
  method Replace<T>(heap: seq<Item<T>>, item: Item<T>) returns (h: seq<Item<T>>)
    requires heap != [] && IsHeap(heap)
    ensures IsHeap(h) && |h| == |heap|
    ensures multiset(h) + multiset{heap[0]} == multiset(heap) + multiset{item}
  {
    h := heap;
    var hole: nat := 0;
    while 2 * hole + 1 < |h|
      invariant |h| == |heap| && hole < |h|
      invariant OpenHole(h[hole := item], hole)
      invariant multiset(h[hole := item]) == multiset(heap[0 := item])
      decreases |h| - hole
    {
      var child := LesserChild(h, hole);
      HoleSinks(h, item, hole, child);
      SwapKeepsItems(h, item, hole, child);
      h := h[hole := h[child]];
      hole := child;
    }
    h := Rise(h, hole, item);
    RootReplaced(heap, item);
  }

  lemma RootReplaced<T>(heap: seq<Item<T>>, item: Item<T>)
    requires heap != []
    ensures multiset(heap[0 := item]) + multiset{heap[0]} == multiset(heap) + multiset{item}
  {
    assert heap == [heap[0]] + heap[1..] && heap[0 := item] == [item] + heap[1..];
  }
}
