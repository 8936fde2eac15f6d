/** The bounded binary heaps of the audit scan, and why they hold the largest values of the stream. */
module TopK {
  /** A heap tuple `(value, seq, record)`; `row` stands for the record. */
  datatype Entry = Entry(value: real, order: nat, row: nat)

  /** Tuple comparison; equal values and equal sequence numbers would compare the records, which raises. */
  datatype Comparison = Before | NotBefore | ComparesRecords

  function Compare(a: Entry, b: Entry): Comparison {
    if a.value < b.value then Before
    else if a.value > b.value then NotBefore
    else if a.order < b.order then Before
    else if a.order > b.order then NotBefore
    else ComparesRecords
  }

  predicate Le(a: Entry, b: Entry) {
    a.value < b.value || (a.value == b.value && a.order <= b.order)
  }

  predicate Distinct(h: seq<Entry>) {
    forall i, j | 0 <= i < j < |h| :: h[i].order != h[j].order
  }

  function Parent(k: nat): nat
    requires k > 0
  {
    (k - 1) / 2
  }

  predicate Heap(h: seq<Entry>) {
    forall k | 0 < k < |h| :: Le(h[Parent(k)], h[k])
  }

  lemma {:induction false} RootIsLeast(h: seq<Entry>, k: nat)
    requires Heap(h) && k < |h|
    ensures Le(h[0], h[k])
  {
    if k > 0 {
      RootIsLeast(h, Parent(k));
    }
  }

  // ---- The values of a heap ------------------------------------------------------------------

  function Values(h: seq<Entry>): (r: seq<real>)
    ensures |r| == |h| && forall i | 0 <= i < |h| :: r[i] == h[i].value
  {
    seq(|h|, i requires 0 <= i < |h| => h[i].value)
  }

  ghost function Bag(h: seq<Entry>): multiset<real> {
    multiset(Values(h))
  }

  lemma {:induction false} BagAppend(h: seq<Entry>, e: Entry)
    ensures Bag(h + [e]) == Bag(h) + multiset{e.value}
  {
    assert Values(h + [e]) == Values(h) + [e.value];
  }

  lemma {:induction false} BagUpdate(h: seq<Entry>, i: nat, e: Entry)
    requires i < |h|
    ensures Bag(h[i := e]) == Bag(h) - multiset{h[i].value} + multiset{e.value}
  {
    assert Values(h[i := e]) == Values(h)[i := e.value];
  }

  lemma {:induction false} BagHas(h: seq<Entry>, i: nat)
    requires i < |h|
    ensures h[i].value in Bag(h)
  {
    assert Values(h)[i] in Values(h);
  }

  lemma {:induction false} BagFrom(h: seq<Entry>, x: real) returns (i: nat)
    requires x in Bag(h)
    ensures i < |h| && h[i].value == x
  {
    assert x in Values(h);
    i :| i < |Values(h)| && Values(h)[i] == x;
  }

  function Swap(h: seq<Entry>, i: nat, j: nat): seq<Entry>
    requires i < |h| && j < |h|
  {
    h[i := h[j]][j := h[i]]
  }

  lemma {:induction false} SwapBag(h: seq<Entry>, i: nat, j: nat)
    requires i < j < |h|
    ensures Bag(Swap(h, i, j)) == Bag(h)
  {
    var v := Values(h);
    assert Values(Swap(h, i, j)) == v[i := v[j]][j := v[i]];
  }

  lemma {:induction false} SwapKeeps(h: seq<Entry>, i: nat, j: nat)
    requires i < j < |h| && Distinct(h)
    ensures multiset(Swap(h, i, j)) == multiset(h) && Bag(Swap(h, i, j)) == Bag(h) && Distinct(Swap(h, i, j))
  {
    SwapBag(h, i, j);
  }

  // ---- The heap operations -------------------------------------------------------------------

  /** Heap order everywhere but between `at` and its parent. */
  ghost predicate Rising(h: seq<Entry>, at: nat) {
    && (forall k | 0 < k < |h| && k != at :: Le(h[Parent(k)], h[k]))
    && (forall k | 0 < k < |h| && at > 0 && Parent(k) == at :: Le(h[Parent(at)], h[k]))
  }

  /** Heap order around the entry at `at`, which may be anywhere in the order. */
  ghost predicate Holed(h: seq<Entry>, at: nat) {
    && (forall k | 0 < k < |h| && k != at && Parent(k) != at :: Le(h[Parent(k)], h[k]))
    && (forall k | 0 < k < |h| && at > 0 && Parent(k) == at :: Le(h[Parent(at)], h[k]))
  }

  lemma {:induction false} RiseAt(h: seq<Entry>, at: nat, k: nat)
    requires 0 < at < |h| && Rising(h, at) && Le(h[at], h[Parent(at)]) && 0 < k < |h|
    ensures var up := Parent(at); var r := Swap(h, up, at);
            && (k != up ==> Le(r[Parent(k)], r[k]))
            && (up > 0 && Parent(k) == up ==> Le(r[Parent(up)], r[k]))
  {
    var up := Parent(at);
    var r := Swap(h, up, at);
    assert r[up] == h[at] && r[at] == h[up];
    if k != at && k != up {
      assert r[k] == h[k];
      assert Le(h[Parent(k)], h[k]);
    }
    if up > 0 {
      assert Le(h[Parent(up)], h[up]);
    }
  }

  lemma {:induction false} HoleAt(h: seq<Entry>, at: nat, child: nat, k: nat)
    requires at < child < |h| && Parent(child) == at && Holed(h, at)
    requires forall i | 0 < i < |h| && Parent(i) == at :: Le(h[child], h[i])
    requires 0 < k < |h|
    ensures var r := Swap(h, at, child);
            && (k != child && Parent(k) != child ==> Le(r[Parent(k)], r[k]))
            && (Parent(k) == child ==> Le(r[Parent(child)], r[k]))
  {
    var r := Swap(h, at, child);
    assert r[at] == h[child] && r[child] == h[at];
    if k != at && k != child {
      assert r[k] == h[k];
    }
    if at > 0 {
      assert Le(h[Parent(at)], h[child]);
    }
  }

  /** `_siftdown` of `heapq`: the entry at `at` moves up to its place. No comparison reaches the records. */
  method Rise(h: seq<Entry>, start: nat) returns (r: seq<Entry>)
    requires start < |h| && Distinct(h) && Rising(h, start)
    ensures Heap(r) && Distinct(r) && multiset(r) == multiset(h) && Bag(r) == Bag(h)
  {
    r := h;
    var at: nat := start;
    while at > 0
      invariant at < |r|
      invariant Distinct(r) && Rising(r, at)
      invariant multiset(r) == multiset(h) && Bag(r) == Bag(h)
    {
      assert Compare(r[at], r[Parent(at)]) != ComparesRecords;
      if Compare(r[at], r[Parent(at)]) == NotBefore {
        break;
      }
      forall k | 0 < k < |r| { RiseAt(r, at, k); }
      SwapKeeps(r, Parent(at), at);
      r := Swap(r, Parent(at), at);
      at := Parent(at);
    }
  }

  /** `heappush`. */
  method Push(h: seq<Entry>, e: Entry) returns (r: seq<Entry>)
    requires Heap(h) && Distinct(h + [e])
    ensures Heap(r) && Distinct(r) && multiset(r) == multiset(h) + multiset{e} && Bag(r) == Bag(h) + multiset{e.value}
  {
    BagAppend(h, e);
    r := Rise(h + [e], |h|);
  }

  /** The child that `_siftup` moves up: the right one unless the left one is smaller. */
  method SmallerChild(h: seq<Entry>, at: nat) returns (child: nat)
    requires Distinct(h) && 2 * at + 1 < |h|
    ensures at < child < |h| && Parent(child) == at
    ensures forall k | 0 < k < |h| && Parent(k) == at :: Le(h[child], h[k])
  {
    child := 2 * at + 1;
    if child + 1 < |h| {
      assert Compare(h[child], h[child + 1]) != ComparesRecords;
      if Compare(h[child], h[child + 1]) == NotBefore {
        child := child + 1;
      }
    }
  }

  /** `_siftup` of `heapq`, first half: smaller children move up until the entry at the root has become a leaf. */
  method SinkToLeaf(h: seq<Entry>) returns (r: seq<Entry>, leaf: nat)
    requires h != [] && Distinct(h) && Holed(h, 0)
    ensures leaf < |r| && Rising(r, leaf) && Distinct(r) && multiset(r) == multiset(h) && Bag(r) == Bag(h)
  {
    r, leaf := h, 0;
    while 2 * leaf + 1 < |r|
      invariant leaf < |r|
      invariant Distinct(r) && Holed(r, leaf)
      invariant multiset(r) == multiset(h) && Bag(r) == Bag(h)
      decreases |r| - leaf
    {
      var child := SmallerChild(r, leaf);
      forall k | 0 < k < |r| { HoleAt(r, leaf, child, k); }
      SwapKeeps(r, leaf, child);
      r := Swap(r, leaf, child);
      leaf := child;
    }
  }

  /** `heapreplace`: the root leaves, `e` enters, sinks to a leaf and rises to its place. */
  method Replace(h: seq<Entry>, e: Entry) returns (r: seq<Entry>)
    requires h != [] && Heap(h) && Distinct(h[0 := e])
    ensures Heap(r) && Distinct(r) && multiset(r) == multiset(h) - multiset{h[0]} + multiset{e}
    ensures Bag(r) == Bag(h) - multiset{h[0].value} + multiset{e.value}
  {
    BagUpdate(h, 0, e);
    var sunk, leaf := SinkToLeaf(h[0 := e]);
    r := Rise(sunk, leaf);
  }

  // ---- The stream ------------------------------------------------------------------------------

  /** Sequence numbers grow along the stream. */
  predicate Numbered(stream: seq<Entry>) {
    forall i, j | 0 <= i < j < |stream| :: stream[i].order < stream[j].order
  }

  /** `h` keeps `min(k, n)` entries of the stream, and no dropped value is larger than a kept one. */
  ghost predicate Keeps(h: seq<Entry>, stream: seq<Entry>, k: nat) {
    && |h| == (if |stream| < k then |stream| else k)
    && multiset(h) <= multiset(stream)
    && Bag(h) <= Bag(stream)
    && forall d, x | d in Bag(stream) - Bag(h) && x in Bag(h) :: d <= x
  }

  ghost predicate TopHeap(h: seq<Entry>, stream: seq<Entry>, k: nat) {
    Heap(h) && Distinct(h) && Keeps(h, stream, k)
  }

  lemma {:induction false} NewIsDistinct(h: seq<Entry>, stream: seq<Entry>, e: Entry)
    requires Distinct(h) && multiset(h) <= multiset(stream) && Numbered(stream + [e])
    ensures Distinct(h + [e])
    ensures h != [] ==> Distinct(h[0 := e])
  {
    forall i | 0 <= i < |h| ensures h[i].order < e.order {
      assert h[i] in multiset(h);
      var j :| 0 <= j < |stream| && stream[j] == h[i];
      assert (stream + [e])[j] == h[i] && (stream + [e])[|stream|] == e;
    }
  }

  lemma {:induction false} WholeBag(a: multiset<real>, b: multiset<real>)
    requires a <= b && |a| == |b|
    ensures a == b
  {
    assert b == a + (b - a);
    assert |b - a| == 0;
  }

  lemma {:induction false} RootIsMinimum(h: seq<Entry>)
    requires Heap(h) && h != []
    ensures h[0].value in Bag(h) && forall x | x in Bag(h) :: h[0].value <= x
  {
    BagHas(h, 0);
    forall x | x in Bag(h) ensures h[0].value <= x {
      var i := BagFrom(h, x);
      RootIsLeast(h, i);
    }
  }

  /** What stays below: a dropped value is the old minimum or was dropped before. */
  lemma {:induction false} DroppedStaysLow(stream: multiset<real>, kept: multiset<real>, low: real, high: real, d: real, x: real)
    requires low in kept && kept <= stream && low < high && (forall y | y in kept :: low <= y)
    requires forall p, y | p in stream - kept && y in kept :: p <= y
    requires d in (stream + multiset{high}) - (kept - multiset{low} + multiset{high})
    requires x in kept - multiset{low} + multiset{high}
    ensures d <= x
  {
    assert d == low || d in stream - kept;
    assert x == high || x in kept;
    if d != low {
      assert d <= low;
    }
  }

  lemma {:induction false} SwapStaysBelow<T>(kept: multiset<T>, all: multiset<T>, out: T, incoming: T)
    requires out in kept && kept <= all
    ensures kept - multiset{out} + multiset{incoming} <= all + multiset{incoming}
    ensures |kept - multiset{out} + multiset{incoming}| == |kept|
  {
  }

  lemma {:induction false} RootReplaced(h: seq<Entry>, k: nat, e: Entry, stream: seq<Entry>, r: seq<Entry>)
    requires k > 0 && TopHeap(h, stream, k) && |h| == k && e.value > h[0].value
    requires multiset(r) == multiset(h) - multiset{h[0]} + multiset{e}
    requires Bag(r) == Bag(h) - multiset{h[0].value} + multiset{e.value}
    ensures Keeps(r, stream + [e], k)
  {
    BagAppend(stream, e);
    RootIsMinimum(h);
    assert multiset(stream + [e]) == multiset(stream) + multiset{e};
    SwapStaysBelow(multiset(h), multiset(stream), h[0], e);
    SwapStaysBelow(Bag(h), Bag(stream), h[0].value, e.value);
    assert |r| == |multiset(r)|;
    forall d, x | d in Bag(stream + [e]) - Bag(r) && x in Bag(r) ensures d <= x {
      DroppedStaysLow(Bag(stream), Bag(h), h[0].value, e.value, d, x);
    }
  }

  lemma {:induction false} NothingDropped(h: seq<Entry>, k: nat, e: Entry, stream: seq<Entry>, r: seq<Entry>)
    requires Keeps(h, stream, k) && |h| < k
    requires multiset(r) == multiset(h) + multiset{e} && Bag(r) == Bag(h) + multiset{e.value}
    ensures Keeps(r, stream + [e], k)
  {
    BagAppend(stream, e);
    assert multiset(stream + [e]) == multiset(stream) + multiset{e};
    assert |multiset(r)| == |h| + 1;
    WholeBag(Bag(h), Bag(stream));
  }

  lemma {:induction false} NotKept(h: seq<Entry>, k: nat, e: Entry, stream: seq<Entry>)
    requires k > 0 && TopHeap(h, stream, k) && |h| == k && e.value <= h[0].value
    ensures Keeps(h, stream + [e], k)
  {
    BagAppend(stream, e);
    RootIsMinimum(h);
    assert multiset(stream + [e]) == multiset(stream) + multiset{e};
    forall d, x | d in Bag(stream + [e]) - Bag(h) && x in Bag(h) ensures d <= x {
      assert d == e.value || d in Bag(stream) - Bag(h);
    }
  }

  /** One record is offered to a bounded heap. */
  method Offer(h: seq<Entry>, k: nat, e: Entry, ghost stream: seq<Entry>) returns (r: seq<Entry>)
    requires k > 0 && TopHeap(h, stream, k) && Numbered(stream + [e])
    ensures TopHeap(r, stream + [e], k)
  {
    NewIsDistinct(h, stream, e);
    if |h| < k {
      r := Push(h, e);
      NothingDropped(h, k, e, stream, r);
    } else if e.value > h[0].value {
      r := Replace(h, e);
      RootReplaced(h, k, e, stream, r);
    } else {
      r := h;
      NotKept(h, k, e, stream);
    }
  }

  // ---- Against sorting -------------------------------------------------------------------------

  predicate Descending(s: seq<real>) {
    forall i, j | 0 <= i < j < |s| :: s[i] >= s[j]
  }

  /** What `sorted(..., reverse=True)` returns. */
  ghost predicate SortedDown(r: seq<real>, s: seq<real>) {
    Descending(r) && multiset(r) == multiset(s)
  }

  /** The largest part of a given size is unique. */
  lemma {:induction false} LargestUnique(a: multiset<real>, b: multiset<real>, c: multiset<real>, d: multiset<real>)
    requires a + b == c + d && |a| == |c|
    requires forall x, y | x in a && y in b :: x >= y
    requires forall x, y | x in c && y in d :: x >= y
    ensures a == c
  {
    forall x, y | x in a && a[x] > c[x] && y in c ensures c[y] <= a[y] {
      assert (a + b)[x] == (c + d)[x] && (a + b)[y] == (c + d)[y];
      assert x in d;
    }
    if exists x :: x in a && a[x] > c[x] {
      WholeBag(c, a);
    } else {
      WholeBag(a, c);
    }
  }

  lemma {:induction false} SameLength(s: seq<real>, t: seq<real>)
    requires multiset(s) == multiset(t)
    ensures |s| == |t|
  {
    assert |s| == |multiset(s)|;
  }

  lemma {:induction false} HeadRemoved(s: seq<real>)
    requires s != []
    ensures multiset(s[1..]) == multiset(s) - multiset{s[0]}
  {
    assert s == [s[0]] + s[1..];
  }

  lemma {:induction false} HeadIsLargest(s: seq<real>, x: real)
    requires Descending(s) && x in multiset(s)
    ensures s != [] && s[0] in multiset(s) && x <= s[0]
  {
    var i :| 0 <= i < |s| && s[i] == x;
  }

  lemma {:induction false} HeadsEqual(s: seq<real>, t: seq<real>)
    requires Descending(s) && Descending(t) && multiset(s) == multiset(t) && s != []
    ensures t != [] && s[0] == t[0]
  {
    assert s[0] in multiset(s);
    HeadIsLargest(t, s[0]);
    HeadIsLargest(s, t[0]);
  }

  lemma {:induction false} DescendingUnique(s: seq<real>, t: seq<real>)
    requires Descending(s) && Descending(t) && multiset(s) == multiset(t)
    ensures s == t
  {
    SameLength(s, t);
    if s != [] {
      HeadsEqual(s, t);
      HeadRemoved(s);
      HeadRemoved(t);
      DescendingUnique(s[1..], t[1..]);
      assert s == [s[0]] + s[1..] && t == [t[0]] + t[1..];
    }
  }

  lemma {:induction false} SplitDown(s: seq<real>, n: nat)
    requires Descending(s) && n <= |s|
    ensures multiset(s) == multiset(s[..n]) + multiset(s[n..])
    ensures forall x, y | x in multiset(s[..n]) && y in multiset(s[n..]) :: x >= y
  {
    assert s == s[..n] + s[n..];
    forall x, y | x in multiset(s[..n]) && y in multiset(s[n..]) ensures x >= y {
      var i :| 0 <= i < |s[..n]| && s[..n][i] == x;
      var j :| 0 <= j < |s[n..]| && s[n..][j] == y;
      assert s[i] == x && s[n + j] == y;
    }
  }

  /** Streaming refines sorting: the reported values are the head of the whole stream, sorted down. */
  lemma {:induction false} StreamingSorts(h: seq<Entry>, stream: seq<Entry>, k: nat, shown: seq<real>, all: seq<real>)
    requires Keeps(h, stream, k) && SortedDown(shown, Values(h)) && SortedDown(all, Values(stream))
    ensures |h| <= |all| && shown == all[..|h|]
  {
    SameLength(all, Values(stream));
    SplitDown(all, |h|);
    var dropped := Bag(stream) - Bag(h);
    assert Bag(h) + dropped == Bag(stream);
    LargestUnique(Bag(h), dropped, multiset(all[..|h|]), multiset(all[|h|..]));
    DescendingUnique(shown, all[..|h|]);
  }
}
