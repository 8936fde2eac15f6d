/** The two nearest-rank percentile forms of the audit reports, in exact arithmetic. */
module Percentile {
  function Ceil(x: real): (r: int)
    ensures (r as real) - 1.0 < x <= r as real
  {
    -(-x).Floor
  }

  function Clamp(i: int, n: nat): (r: nat)
    requires n > 0
    ensures r < n
  {
    var capped := if i < n - 1 then i else n - 1;
    if capped < 0 then 0 else capped
  }

  /** The position the analyzer picks in the sorted list. */
  function Position(n: nat, fraction: real): nat
    requires n > 0
  {
    Clamp(Ceil(fraction * (n as real)) - 1, n)
  }

  /** The position the digest picks: truncation after adding almost one. */
  function DigestPosition(n: nat, fraction: real): nat
    requires n > 0
  {
    var x := (n as real) * fraction + 0.999999;
    Clamp((if x >= 0.0 then x.Floor else Ceil(x)) - 1, n)
  }

  predicate Ascending(s: seq<real>) {
    forall i, j | 0 <= i < j < |s| :: s[i] <= s[j]
  }

  /** What `sorted(values)` returns. */
  ghost predicate SortedUp(ordered: seq<real>, values: seq<real>) {
    Ascending(ordered) && multiset(ordered) == multiset(values)
  }

  function Pct(ordered: seq<real>, fraction: real): real {
    if ordered == [] then 0.0 else ordered[Position(|ordered|, fraction)]
  }

  // ---- Ranks -----------------------------------------------------------------------------------

  /** How many values are at most `x`, or below it when `strict`. */
  function Count(s: seq<real>, x: real, strict: bool): nat {
    if s == [] then 0 else
      (if (if strict then s[0] < x else s[0] <= x) then 1 else 0) + Count(s[1..], x, strict)
  }

  lemma {:induction false} CountSplit(a: seq<real>, b: seq<real>, x: real, strict: bool)
    ensures Count(a + b, x, strict) == Count(a, x, strict) + Count(b, x, strict)
  {
    if a == [] {
      assert a + b == b;
    } else {
      CountSplit(a[1..], b, x, strict);
      assert (a + b)[1..] == a[1..] + b;
    }
  }

  lemma {:induction false} Removed(t: seq<real>, i: nat)
    requires i < |t|
    ensures multiset(t[..i] + t[i + 1..]) == multiset(t) - multiset{t[i]}
  {
    assert t == t[..i] + [t[i]] + t[i + 1..];
  }

  lemma {:induction false} CountRemoved(t: seq<real>, i: nat, x: real, strict: bool)
    requires i < |t|
    ensures Count(t, x, strict) == Count([t[i]], x, strict) + Count(t[..i] + t[i + 1..], x, strict)
  {
    assert t == t[..i] + ([t[i]] + t[i + 1..]);
    CountSplit(t[..i], [t[i]] + t[i + 1..], x, strict);
    CountSplit([t[i]], t[i + 1..], x, strict);
    CountSplit(t[..i], t[i + 1..], x, strict);
  }

  lemma {:induction false} Found(t: seq<real>, x: real) returns (i: nat)
    requires x in multiset(t)
    ensures i < |t| && t[i] == x
  {
    i :| i < |t| && t[i] == x;
  }

  lemma {:induction false} BothRemoved(s: seq<real>, t: seq<real>, i: nat)
    requires s != [] && i < |t| && t[i] == s[0] && multiset(s) == multiset(t)
    ensures multiset(s[1..]) == multiset(t[..i] + t[i + 1..])
  {
    Removed(s, 0);
    Removed(t, i);
    assert s[..0] + s[1..] == s[1..];
  }

  /** Counting does not depend on the order. */
  lemma {:induction false} CountOfBag(s: seq<real>, t: seq<real>, x: real, strict: bool)
    requires multiset(s) == multiset(t)
    ensures Count(s, x, strict) == Count(t, x, strict)
  {
    if s == [] {
      assert |multiset(t)| == 0;
    } else {
      assert s[0] in multiset(s);
      var i := Found(t, s[0]);
      BothRemoved(s, t, i);
      CountOfBag(s[1..], t[..i] + t[i + 1..], x, strict);
      CountRemoved(t, i, x, strict);
    }
  }

  lemma {:induction false} CountAll(s: seq<real>, x: real)
    requires forall i | 0 <= i < |s| :: s[i] <= x
    ensures Count(s, x, false) == |s|
  {
    if s != [] {
      CountAll(s[1..], x);
    }
  }

  lemma {:induction false} CountNone(s: seq<real>, x: real)
    requires forall i | 0 <= i < |s| :: s[i] >= x
    ensures Count(s, x, true) == 0
  {
    if s != [] {
      CountNone(s[1..], x);
    }
  }

  lemma {:induction false} CountBounded(s: seq<real>, x: real, strict: bool)
    ensures Count(s, x, strict) <= |s|
  {
    if s != [] {
      CountBounded(s[1..], x, strict);
    }
  }

  lemma {:induction false} RankInRange(n: nat, fraction: real)
    requires n > 0 && 0.0 < fraction <= 1.0
    ensures 1 <= Ceil(fraction * (n as real)) <= n
    ensures Position(n, fraction) == Ceil(fraction * (n as real)) - 1
  {
    assert 0.0 < fraction * (n as real);
    assert fraction * (n as real) <= 1.0 * (n as real);
  }

  lemma {:induction false} RankUpTo(ordered: seq<real>, k: nat)
    requires Ascending(ordered) && k < |ordered|
    ensures Count(ordered, ordered[k], false) >= k + 1
  {
    var low, high := ordered[..k + 1], ordered[k + 1..];
    assert ordered == low + high;
    CountSplit(low, high, ordered[k], false);
    CountAll(low, ordered[k]);
  }

  lemma {:induction false} RankBelow(ordered: seq<real>, k: nat)
    requires Ascending(ordered) && k < |ordered|
    ensures Count(ordered, ordered[k], true) <= k
  {
    var below, rest := ordered[..k], ordered[k..];
    assert ordered == below + rest;
    CountSplit(below, rest, ordered[k], true);
    CountNone(rest, ordered[k]);
    CountBounded(below, ordered[k], true);
  }

  lemma {:induction false} SortedSize(ordered: seq<real>, values: seq<real>)
    requires SortedUp(ordered, values)
    ensures |ordered| == |values|
  {
    assert |ordered| == |multiset(ordered)|;
  }

  lemma {:induction false} SortedMember(ordered: seq<real>, values: seq<real>, k: nat)
    requires SortedUp(ordered, values) && k < |ordered|
    ensures ordered[k] in values
  {
    assert ordered[k] in multiset(values);
  }

  /** Nearest rank: at least `ceil(f n)` values are at most the percentile, and fewer are below it. */
  lemma {:induction false} PercentileRank(values: seq<real>, ordered: seq<real>, fraction: real)
    requires values != [] && SortedUp(ordered, values) && 0.0 < fraction <= 1.0
    ensures var rank := Ceil(fraction * (|values| as real));
            var p := Pct(ordered, fraction);
            p in values && Count(values, p, false) >= rank && Count(values, p, true) < rank
  {
    SortedSize(ordered, values);
    RankInRange(|values|, fraction);
    var k := Position(|values|, fraction);
    assert Pct(ordered, fraction) == ordered[k] && k + 1 == Ceil(fraction * (|values| as real));
    SortedMember(ordered, values, k);
    RankUpTo(ordered, k);
    RankBelow(ordered, k);
    CountOfBag(values, ordered, ordered[k], false);
    CountOfBag(values, ordered, ordered[k], true);
  }

  // ---- Order -----------------------------------------------------------------------------------

  lemma {:induction false} Scaled(f: real, g: real, n: nat)
    requires f <= g
    ensures f * (n as real) <= g * (n as real)
  {
    assert (g - f) * (n as real) >= 0.0;
  }

  lemma {:induction false} CeilMonotone(x: real, y: real)
    requires x <= y
    ensures Ceil(x) <= Ceil(y)
  {
    assert (Ceil(x) as real) - 1.0 < x <= y <= Ceil(y) as real;
  }

  lemma {:induction false} PercentileMonotone(ordered: seq<real>, f: real, g: real)
    requires Ascending(ordered) && f <= g
    ensures Pct(ordered, f) <= Pct(ordered, g)
  {
    if ordered != [] {
      var n := |ordered|;
      Scaled(f, g, n);
      CeilMonotone(f * (n as real), g * (n as real));
    }
  }

  function Max(s: seq<real>): (r: real)
    requires s != []
    ensures r in s && forall x | x in s :: x <= r
  {
    if |s| == 1 then s[0] else
      assert s == [s[0]] + s[1..];
      var rest := Max(s[1..]);
      if s[0] > rest then s[0] else rest
  }

  /** The summary is ordered: median, p90, p95, p99, maximum. */
  lemma {:induction false} SummaryOrdered(values: seq<real>, ordered: seq<real>)
    requires values != [] && SortedUp(ordered, values)
    ensures Pct(ordered, 0.5) <= Pct(ordered, 0.9) <= Pct(ordered, 0.95) <= Pct(ordered, 0.99) <= Max(values)
  {
    PercentileMonotone(ordered, 0.5, 0.9);
    PercentileMonotone(ordered, 0.9, 0.95);
    PercentileMonotone(ordered, 0.95, 0.99);
    PercentileRank(values, ordered, 0.99);
  }

  // ---- The two forms ---------------------------------------------------------------------------

  function Frac(x: real): real {
    x - x.Floor as real
  }

  /** The digest's truncation is the ceiling exactly when the fractional part is not tiny and positive. */
  lemma {:induction false} TruncationIsCeiling(x: real)
    requires x >= 0.0
    ensures (x + 0.999999).Floor == Ceil(x) <==> !(0.0 < Frac(x) < 0.000001)
  {
    var q := x.Floor;
    var d := Frac(x);
    if d == 0.0 {
      CeilIs(x, q);
      FloorIs(x + 0.999999, q);
    } else {
      CeilIs(x, q + 1);
      FloorIs(x + 0.999999, if d < 0.000001 then q else q + 1);
    }
  }

  lemma {:induction false} FloorIs(x: real, k: int)
    requires k as real <= x < k as real + 1.0
    ensures x.Floor == k
  {
  }

  lemma {:induction false} CeilIs(x: real, k: int)
    requires k as real - 1.0 < x <= k as real
    ensures Ceil(x) == k
  {
  }

  /** A number of hundredths has no tiny fractional part. */
  lemma {:induction false} HundredthsAreCoarse(x: real, m: nat)
    requires x * 100.0 == m as real
    ensures x >= 0.0 && !(0.0 < Frac(x) < 0.000001)
  {
    var q, r := m / 100, m % 100;
    assert x == q as real + (r as real) / 100.0;
    FloorIs(x, q);
  }

  /** For fractions in hundredths both reports pick the same position. */
  lemma {:induction false} SamePosition(n: nat, percent: nat)
    requires n > 0
    ensures Position(n, (percent as real) / 100.0) == DigestPosition(n, (percent as real) / 100.0)
  {
    var f := (percent as real) / 100.0;
    var x := f * (n as real);
    assert x * 100.0 == (percent * n) as real by {
      assert f * 100.0 == percent as real;
      assert x * 100.0 == (f * 100.0) * (n as real);
      assert (percent * n) as real == (percent as real) * (n as real);
    }
    HundredthsAreCoarse(x, percent * n);
    TruncationIsCeiling(x);
    assert (n as real) * f == x;
  }
}
