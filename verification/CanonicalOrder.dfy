/** Stable sorting by text, as the order in which positions are visited. */
module CanonicalOrder {
  import opened Common

  lemma {:induction false} LeTotal(a: string, b: string)
    ensures Le(a, b) || Le(b, a)
  {
    if a != [] && b != [] {
      LeTotal(a[1..], b[1..]);
    }
  }

  lemma {:induction false} LeTransitive(a: string, b: string, c: string)
    requires Le(a, b) && Le(b, c)
    ensures Le(a, c)
  {
    if a != [] && a[0] == b[0] && b[0] == c[0] {
      LeTransitive(a[1..], b[1..], c[1..]);
    }
  }

  lemma {:induction false} LeAntisymmetric(a: string, b: string)
    requires Le(a, b) && Le(b, a)
    ensures a == b
  {
    if a != [] {
      LeAntisymmetric(a[1..], b[1..]);
      assert a == [a[0]] + a[1..] && b == [b[0]] + b[1..];
    }
  }

  predicate Sorted(keys: seq<string>) {
    forall i, j | 0 <= i < j < |keys| :: Le(keys[i], keys[j])
  }

  predicate Distinct(keys: seq<string>) {
    forall i, j | 0 <= i < j < |keys| :: keys[i] != keys[j]
  }

  predicate Positions(order: seq<nat>, n: nat) {
    && (forall i | 0 <= i < |order| :: order[i] < n)
    && (forall i, j | 0 <= i < j < |order| :: order[i] != order[j])
  }

  /** `xs` in the given order. */
  function Arrange<T>(xs: seq<T>, order: seq<nat>): (r: seq<T>)
    requires forall i | 0 <= i < |order| :: order[i] < |xs|
    ensures |r| == |order| && forall i | 0 <= i < |r| :: r[i] == xs[order[i]]
  {
    seq(|order|, i requires 0 <= i < |order| => xs[order[i]])
  }

  /** Position `x` goes behind everything whose key is not larger. */
  function InsertAt(order: seq<nat>, keys: seq<string>, x: nat): (r: seq<nat>)
    requires Positions(order, |keys|) && x < |keys| && x !in order
    ensures |r| == |order| + 1 && Positions(r, |keys|)
    ensures forall p :: p in r <==> p in order || p == x
  {
    if order == [] then [x] else
      var n := |order| - 1;
      assert order == order[..n] + [order[n]];
      if Le(keys[order[n]], keys[x]) then order + [x]
      else
        var front := InsertAt(order[..n], keys, x);
        assert order[n] in order && order[n] !in order[..n];
        assert forall i | 0 <= i < |front| :: front[i] in front;
        front + [order[n]]
  }

  /** The stable sorting order of the keys. */
  function OrderOf(keys: seq<string>, n: nat): (r: seq<nat>)
    requires n <= |keys|
    ensures |r| == n && Positions(r, |keys|) && forall p :: p in r <==> 0 <= p < n
  {
    if n == 0 then [] else InsertAt(OrderOf(keys, n - 1), keys, n - 1)
  }

  function Order(keys: seq<string>): (r: seq<nat>)
    ensures |r| == |keys| && Positions(r, |keys|) && forall p :: p in r <==> 0 <= p < |keys|
  {
    OrderOf(keys, |keys|)
  }

  lemma {:induction false} AppendSorts(keys: seq<string>, key: string)
    requires Sorted(keys) && (keys != [] ==> Le(keys[|keys| - 1], key))
    ensures Sorted(keys + [key])
  {
    forall i | 0 <= i < |keys| ensures Le(keys[i], key) {
      if i < |keys| - 1 {
        LeTransitive(keys[i], keys[|keys| - 1], key);
      }
    }
  }

  /** Every key of the grown front is at most the key that stays last. */
  lemma {:induction false} FrontStaysBelow(order: seq<nat>, keys: seq<string>, x: nat, p: nat)
    requires order != [] && Positions(order, |keys|) && x < |keys| && x !in order && Sorted(Arrange(keys, order))
    requires Le(keys[x], keys[order[|order| - 1]])
    requires p == x || p in order[..|order| - 1]
    ensures p < |keys| && Le(keys[p], keys[order[|order| - 1]])
  {
    if p != x {
      var j :| 0 <= j < |order| - 1 && order[j] == p;
      assert Le(Arrange(keys, order)[j], Arrange(keys, order)[|order| - 1]);
    }
  }

  lemma {:induction false} InsertSorts(order: seq<nat>, keys: seq<string>, x: nat)
    requires Positions(order, |keys|) && x < |keys| && x !in order && Sorted(Arrange(keys, order))
    ensures Sorted(Arrange(keys, InsertAt(order, keys, x)))
  {
    if order == [] {
    } else {
      var n := |order| - 1;
      var last := keys[order[n]];
      if Le(last, keys[x]) {
        AppendSorts(Arrange(keys, order), keys[x]);
        assert Arrange(keys, order + [x]) == Arrange(keys, order) + [keys[x]];
      } else {
        LeTotal(last, keys[x]);
        var front := InsertAt(order[..n], keys, x);
        assert Arrange(keys, order[..n]) == Arrange(keys, order)[..n];
        InsertSorts(order[..n], keys, x);
        assert front[n] in front;
        FrontStaysBelow(order, keys, x, front[n]);
        AppendSorts(Arrange(keys, front), last);
        assert Arrange(keys, front + [order[n]]) == Arrange(keys, front) + [last];
      }
    }
  }

  lemma {:induction false} OrderSorts(keys: seq<string>, n: nat)
    requires n <= |keys|
    ensures Sorted(Arrange(keys, OrderOf(keys, n)))
  {
    if n > 0 {
      OrderSorts(keys, n - 1);
      InsertSorts(OrderOf(keys, n - 1), keys, n - 1);
    }
  }

  /** Sorting what is sorted moves nothing. */
  lemma {:induction false} SortedStays(keys: seq<string>, n: nat)
    requires Sorted(keys) && n <= |keys|
    ensures forall i | 0 <= i < n :: OrderOf(keys, n)[i] == i
  {
    if n > 1 {
      SortedStays(keys, n - 1);
      assert OrderOf(keys, n - 1)[n - 2] == n - 2;
    }
  }

  lemma {:induction false} ArrangeSorted<T>(keys: seq<string>, xs: seq<T>)
    requires Sorted(keys) && |xs| == |keys|
    ensures Arrange(xs, Order(keys)) == xs
  {
    SortedStays(keys, |keys|);
  }

  lemma {:induction false} ArrangeDistinct(keys: seq<string>)
    requires Distinct(keys)
    ensures Distinct(Arrange(keys, Order(keys)))
  {
    var order := Order(keys);
    forall i, j | 0 <= i < j < |order| ensures keys[order[i]] != keys[order[j]] {
      assert order[i] != order[j];
      assert order[i] < order[j] || order[j] < order[i];
    }
  }

  lemma {:induction false} AdjacentSorted(keys: seq<string>)
    requires forall i | 0 <= i < |keys| - 1 :: Le(keys[i], keys[i + 1])
    ensures Sorted(keys)
  {
    forall i, j | 0 <= i < j < |keys| ensures Le(keys[i], keys[j]) {
      Chain(keys, i, j);
    }
  }

  lemma {:induction false} Chain(keys: seq<string>, i: nat, j: nat)
    requires i < j < |keys| && forall k | 0 <= k < |keys| - 1 :: Le(keys[k], keys[k + 1])
    ensures Le(keys[i], keys[j])
  {
    if i + 1 < j {
      Chain(keys, i, j - 1);
      assert Le(keys[j - 1], keys[j - 1 + 1]);
      LeTransitive(keys[i], keys[j - 1], keys[j]);
    }
  }
}
