/**
 The greedy row matcher of the guidance-corpus certifier. Cells are normalised values: two rows agree
 on a field exactly when their cells are equal.
 */
module CorpusMatcher {
  import opened Common

  datatype Field = Metric | Period | Low | High | Point | Unit | Currency | Claim

  /** `ROW_FIELDS`, in order. */
  const ROW_FIELDS: seq<Field> := [Metric, Period, Low, High, Point, Unit, Currency, Claim]

  datatype Cells = Cells(
    metric: Option<string>, period: Option<string>, low: Option<string>, high: Option<string>,
    point: Option<string>, unit: Option<string>, currency: Option<string>, claim: Option<string>)

  /** An extracted row: its cells, what acceptance and evidence look at, and its sorted JSON text. */
  datatype Actual = Actual(
    cells: Cells, claim: Option<string>, confidence: string, locator: string, textHash: string, dump: string)

  datatype Match = Match(expected: Cells, actual: Option<Actual>, mismatched: seq<Field>)

  function Cell(c: Cells, f: Field): Option<string> {
    match f
    case Metric => c.metric
    case Period => c.period
    case Low => c.low
    case High => c.high
    case Point => c.point
    case Unit => c.unit
    case Currency => c.currency
    case Claim => c.claim
  }

  /** The fields of `fields` on which the two rows differ, in order. */
  function Differing(e: Cells, a: Cells, fields: seq<Field>): seq<Field> {
    if fields == [] then [] else
      (if Cell(e, fields[0]) != Cell(a, fields[0]) then [fields[0]] else []) + Differing(e, a, fields[1..])
  }

  lemma {:induction false} DifferingHas(e: Cells, a: Cells, fields: seq<Field>, f: Field)
    ensures f in Differing(e, a, fields) <==> f in fields && Cell(e, f) != Cell(a, f)
  {
    if fields != [] {
      DifferingHas(e, a, fields[1..], f);
      assert fields == [fields[0]] + fields[1..];
    }
  }

  /** `_mismatches`. */
  function Mismatches(e: Cells, a: Option<Actual>): seq<Field> {
    if a.None? then ROW_FIELDS else Differing(e, a.value.cells, ROW_FIELDS)
  }

  /** `_accepted`. */
  predicate Accepted(a: Actual) {
    && a.confidence == "HIGH" && a.cells.metric.Some? && a.cells.period.Some?
    && (a.cells.low.Some? || a.cells.point.Some? || a.claim == Some("WITHDRAWN"))
  }

  /** The sort key of a candidate: fewest mismatches, then the JSON text. */
  predicate Better(e: Cells, a: Actual, b: Actual) {
    var m, n := |Mismatches(e, Some(a))|, |Mismatches(e, Some(b))|;
    m < n || (m == n && !Le(b.dump, a.dump))
  }

  /** The position of the first candidate no other one beats. */
  function Best(e: Cells, rest: seq<Actual>): (p: nat)
    requires rest != []
    ensures p < |rest|
  {
    if |rest| == 1 then 0 else
      var q := Best(e, rest[..|rest| - 1]);
      if Better(e, rest[|rest| - 1], rest[q]) then |rest| - 1 else q
  }

  function Without<T>(s: seq<T>, p: nat): (r: seq<T>)
    requires p < |s|
    ensures |r| == |s| - 1
  {
    s[..p] + s[p + 1..]
  }

  /** `_match_rows`: one match per expected row, and the rows left over. */
  function MatchRows(expected: seq<Cells>, rest: seq<Actual>): (r: (seq<Match>, seq<Actual>))
    ensures |r.0| == |expected|
  {
    if expected == [] then ([], rest)
    else if rest == [] then
      var (ms, left) := MatchRows(expected[1..], rest);
      ([Match(expected[0], None, ROW_FIELDS)] + ms, left)
    else
      var p := Best(expected[0], rest);
      var (ms, left) := MatchRows(expected[1..], Without(rest, p));
      ([Match(expected[0], Some(rest[p]), Mismatches(expected[0], Some(rest[p])))] + ms, left)
  }

  // ---- What a minimum means --------------------------------------------------------------------

  lemma {:induction false} NoMismatch(e: Cells, a: Actual)
    ensures Mismatches(e, Some(a)) == [] <==> a.cells == e
  {
    assert Metric in ROW_FIELDS && Period in ROW_FIELDS && Low in ROW_FIELDS && High in ROW_FIELDS;
    assert Point in ROW_FIELDS && Unit in ROW_FIELDS && Currency in ROW_FIELDS && Claim in ROW_FIELDS;
    var ms := Mismatches(e, Some(a));
    forall f ensures f in ms <==> f in ROW_FIELDS && Cell(e, f) != Cell(a.cells, f) {
      DifferingHas(e, a.cells, ROW_FIELDS, f);
    }
    if ms == [] {
      assert forall f | f in ROW_FIELDS :: Cell(e, f) == Cell(a.cells, f);
      assert Cell(e, Metric) == Cell(a.cells, Metric) && Cell(e, Period) == Cell(a.cells, Period);
      assert Cell(e, Low) == Cell(a.cells, Low) && Cell(e, High) == Cell(a.cells, High);
      assert Cell(e, Point) == Cell(a.cells, Point) && Cell(e, Unit) == Cell(a.cells, Unit);
      assert Cell(e, Currency) == Cell(a.cells, Currency) && Cell(e, Claim) == Cell(a.cells, Claim);
    } else {
      assert ms[0] in ms;
    }
  }

  /** The chosen candidate has the fewest mismatches. */
  lemma {:induction false} BestIsMinimal(e: Cells, rest: seq<Actual>, i: nat)
    requires i < |rest|
    ensures |Mismatches(e, Some(rest[Best(e, rest)]))| <= |Mismatches(e, Some(rest[i]))|
  {
    if |rest| > 1 {
      var front, last := rest[..|rest| - 1], rest[|rest| - 1];
      var q := Best(e, front);
      assert front[q] == rest[q];
      BestIsMinimal(e, front, if i < |front| then i else 0);
      assert i < |front| ==> front[i] == rest[i];
      FewerOrEqual(e, last, rest[q]);
    }
  }

  lemma {:induction false} FewerOrEqual(e: Cells, a: Actual, b: Actual)
    ensures Better(e, a, b) ==> |Mismatches(e, Some(a))| <= |Mismatches(e, Some(b))|
    ensures !Better(e, a, b) ==> |Mismatches(e, Some(b))| <= |Mismatches(e, Some(a))|
  {
  }

  // ---- Exactness -------------------------------------------------------------------------------

  /** The rows' cells, in order. */
  function CellsOf(rows: seq<Actual>): (r: seq<Cells>)
    ensures |r| == |rows| && forall k | 0 <= k < |rows| :: r[k] == rows[k].cells
  {
    seq(|rows|, k requires 0 <= k < |rows| => rows[k].cells)
  }

  lemma {:induction false} WithoutOne<T>(s: seq<T>, p: nat)
    requires p < |s|
    ensures multiset(s) == multiset(Without(s, p)) + multiset{s[p]}
  {
    assert s == s[..p] + [s[p]] + s[p + 1..];
  }

  lemma {:induction false} CellsWithout(rows: seq<Actual>, p: nat)
    requires p < |rows|
    ensures CellsOf(Without(rows, p)) == Without(CellsOf(rows), p)
  {
  }

  /** Every expected row found an actual one without a mismatch. */
  ghost predicate AllExact(ms: seq<Match>) {
    forall m | m in ms :: m.actual.Some? && m.mismatched == []
  }

  lemma {:induction false} AllExactCons(m: Match, ms: seq<Match>)
    ensures AllExact([m] + ms) <==> m.actual.Some? && m.mismatched == [] && AllExact(ms)
  {
    assert m in [m] + ms;
    assert forall x :: x in [m] + ms <==> x == m || x in ms;
  }

  /** The greedy matching is exact, with nothing left over, iff the two bags of rows are equal. */
  lemma {:induction false} GreedyIsExact(expected: seq<Cells>, rest: seq<Actual>)
    ensures var (ms, left) := MatchRows(expected, rest);
            AllExact(ms) && left == [] <==> multiset(expected) == multiset(CellsOf(rest))
  {
    if expected == [] {
      if rest != [] {
        assert CellsOf(rest)[0] in multiset(CellsOf(rest));
      }
    } else if rest == [] {
      assert expected[0] in multiset(expected);
      AllExactCons(Match(expected[0], None, ROW_FIELDS), MatchRows(expected[1..], rest).0);
    } else {
      var e, p := expected[0], Best(expected[0], rest);
      GreedyIsExact(expected[1..], Without(rest, p));
      AllExactCons(Match(e, Some(rest[p]), Mismatches(e, Some(rest[p]))), MatchRows(expected[1..], Without(rest, p)).0);
      NoMismatch(e, rest[p]);
      CellsWithout(rest, p);
      WithoutOne(CellsOf(rest), p);
      WithoutOne(expected, 0);
      assert Without(expected, 0) == expected[1..];
      if rest[p].cells == e {
        Cancel(multiset(expected[1..]), multiset(CellsOf(Without(rest, p))), e);
      } else if multiset(expected) == multiset(CellsOf(rest)) {
        BestHitsEqual(e, rest, expected);
      }
    }
  }

  lemma {:induction false} Cancel<T>(a: multiset<T>, b: multiset<T>, x: T)
    ensures a + multiset{x} == b + multiset{x} <==> a == b
  {
    if a + multiset{x} == b + multiset{x} {
      assert a == (a + multiset{x}) - multiset{x};
      assert b == (b + multiset{x}) - multiset{x};
    }
  }

  /** If some row equals the expected one, the chosen row does. */
  lemma {:induction false} BestHitsEqual(e: Cells, rest: seq<Actual>, expected: seq<Cells>)
    requires rest != [] && e in expected && multiset(expected) == multiset(CellsOf(rest))
    ensures rest[Best(e, rest)].cells == e
  {
    assert e in multiset(CellsOf(rest));
    var i :| 0 <= i < |rest| && CellsOf(rest)[i] == e;
    NoMismatch(e, rest[i]);
    BestIsMinimal(e, rest, i);
    NoMismatch(e, rest[Best(e, rest)]);
  }

  /** The actual rows of the matches that have one. */
  function Taken(ms: seq<Match>): seq<Actual> {
    if ms == [] then [] else (if ms[0].actual.Some? then [ms[0].actual.value] else []) + Taken(ms[1..])
  }

  /** Every actual row is used by exactly one match or left over: the matcher loses and invents nothing. */
  lemma {:induction false} MatcherConserves(expected: seq<Cells>, rest: seq<Actual>)
    ensures var (ms, left) := MatchRows(expected, rest); multiset(Taken(ms)) + multiset(left) == multiset(rest)
  {
    if expected != [] {
      var (ms, left) := MatchRows(expected, rest);
      assert ms == [ms[0]] + ms[1..];
      if rest == [] {
        MatcherConserves(expected[1..], rest);
      } else {
        var p := Best(expected[0], rest);
        MatcherConserves(expected[1..], Without(rest, p));
        WithoutOne(rest, p);
        assert ms[1..] == MatchRows(expected[1..], Without(rest, p)).0;
        assert Taken(ms) == [rest[p]] + Taken(ms[1..]);
      }
    }
  }

  // ---- The loop --------------------------------------------------------------------------------

  function At(rows: seq<Actual>, indexes: seq<nat>): (r: seq<Actual>)
    requires forall k | 0 <= k < |indexes| :: indexes[k] < |rows|
    ensures |r| == |indexes| && forall k | 0 <= k < |indexes| :: r[k] == rows[indexes[k]]
  {
    seq(|indexes|, k requires 0 <= k < |indexes| => rows[indexes[k]])
  }

  /** What the loop still owes, put behind what it already has. */
  function Continued(done: seq<Match>, expected: seq<Cells>, rest: seq<Actual>): (seq<Match>, seq<Actual>) {
    var (ms, left) := MatchRows(expected, rest);
    (done + ms, left)
  }

  lemma {:induction false} ContinueNothing(expected: seq<Cells>, rest: seq<Actual>)
    ensures Continued([], expected, rest) == MatchRows(expected, rest)
  {
    assert [] + MatchRows(expected, rest).0 == MatchRows(expected, rest).0;
  }

  lemma {:induction false} ContinueDone(done: seq<Match>, rest: seq<Actual>)
    ensures Continued(done, [], rest) == (done, rest)
  {
    assert done + [] == done;
  }

  lemma {:induction false} AtWithout(rows: seq<Actual>, indexes: seq<nat>, p: nat)
    requires (forall k | 0 <= k < |indexes| :: indexes[k] < |rows|) && p < |indexes|
    ensures forall k | 0 <= k < |indexes| - 1 :: Without(indexes, p)[k] < |rows|
    ensures At(rows, Without(indexes, p)) == Without(At(rows, indexes), p)
  {
  }

  lemma {:induction false} ContinueMatched(done: seq<Match>, expected: seq<Cells>, rest: seq<Actual>)
    requires expected != [] && rest != []
    ensures var p := Best(expected[0], rest);
            var m := Match(expected[0], Some(rest[p]), Mismatches(expected[0], Some(rest[p])));
            Continued(done, expected, rest) == Continued(done + [m], expected[1..], Without(rest, p))
  {
    var p := Best(expected[0], rest);
    var m := Match(expected[0], Some(rest[p]), Mismatches(expected[0], Some(rest[p])));
    var ms := MatchRows(expected[1..], Without(rest, p)).0;
    assert done + ([m] + ms) == done + [m] + ms;
  }

  lemma {:induction false} ContinueUnmatched(done: seq<Match>, expected: seq<Cells>)
    requires expected != []
    ensures Continued(done, expected, []) == Continued(done + [Match(expected[0], None, ROW_FIELDS)], expected[1..], [])
  {
    var m := Match(expected[0], None, ROW_FIELDS);
    var ms := MatchRows(expected[1..], []).0;
    assert done + ([m] + ms) == done + [m] + ms;
  }

  /** One expected row takes its best remaining candidate, if any is left. */
  method MatchOne(e: Cells, actual: seq<Actual>, remaining: seq<nat>) returns (m: Match, left: seq<nat>)
    requires forall i | 0 <= i < |remaining| :: remaining[i] < |actual|
    ensures forall i | 0 <= i < |left| :: left[i] < |actual|
    ensures remaining == [] ==> m == Match(e, None, ROW_FIELDS) && left == []
    ensures remaining != [] ==>
              var rest := At(actual, remaining);
              var p := Best(e, rest);
              m == Match(e, Some(rest[p]), Mismatches(e, Some(rest[p]))) && At(actual, left) == Without(rest, p)
  {
    if remaining == [] {
      m, left := Match(e, None, ROW_FIELDS), [];
    } else {
      var chosen := ChooseBest(e, actual, remaining);
      var a := actual[remaining[chosen]];
      AtWithout(actual, remaining, chosen);
      left := Without(remaining, chosen);
      m := Match(e, Some(a), Mismatches(e, Some(a)));
    }
  }

  /** `_match_rows` as it runs: the list of remaining indexes shrinks as rows are chosen. */
  method RunMatcher(expected: seq<Cells>, actual: seq<Actual>) returns (matches: seq<Match>, unexpected: seq<Actual>)
    ensures (matches, unexpected) == MatchRows(expected, actual)
  {
    var remaining: seq<nat> := seq(|actual|, i => i);
    matches := [];
    ghost var goal, todo, rest := MatchRows(expected, actual), expected, actual;
    ContinueNothing(expected, actual);
    assert At(actual, remaining) == rest;
    for k := 0 to |expected|
      invariant todo == expected[k..]
      invariant forall i | 0 <= i < |remaining| :: remaining[i] < |actual|
      invariant rest == At(actual, remaining)
      invariant Continued(matches, todo, rest) == goal
    {
      if remaining == [] {
        ContinueUnmatched(matches, todo);
      } else {
        ContinueMatched(matches, todo, rest);
      }
      var m;
      m, remaining := MatchOne(expected[k], actual, remaining);
      matches := matches + [m];
      rest := At(actual, remaining);
      todo := todo[1..];
    }
    unexpected := At(actual, remaining);
    ContinueDone(matches, rest);
  }

  lemma {:induction false} BestStep(e: Cells, rows: seq<Actual>, k: nat)
    requires 0 < k < |rows|
    ensures var p := Best(e, rows[..k]); Best(e, rows[..k + 1]) == if Better(e, rows[k], rows[p]) then k else p
  {
    assert rows[..k + 1][..k] == rows[..k];
  }

  /** One comparison of the minimum search. */
  method ChooseBetter(e: Cells, actual: seq<Actual>, rest: seq<nat>, k: nat, p: nat) returns (q: nat)
    requires 0 < k < |rest| && forall i | 0 <= i < |rest| :: rest[i] < |actual|
    requires p == Best(e, At(actual, rest)[..k])
    ensures q == Best(e, At(actual, rest)[..k + 1])
  {
    BestStep(e, At(actual, rest), k);
    q := if Better(e, actual[rest[k]], actual[rest[p]]) then k else p;
  }

  /** `min` over the remaining indexes. */
  method ChooseBest(e: Cells, actual: seq<Actual>, rest: seq<nat>) returns (p: nat)
    requires rest != [] && forall i | 0 <= i < |rest| :: rest[i] < |actual|
    ensures p == Best(e, At(actual, rest))
  {
    ghost var rows := At(actual, rest);
    p := 0;
    for k := 1 to |rest|
      invariant p == Best(e, rows[..k])
    {
      p := ChooseBetter(e, actual, rest, k, p);
    }
    assert rows[..|rest|] == rows;
  }
}
