/** The short forward-path outcomes of the recalibration, in exact arithmetic. */
module ForwardPath {
  import opened Common

  datatype Bar = Bar(high: real, low: real, close: real)

  datatype Outcome = Outcome(ret: real, mfe: real, mae: real, timeToMfe: nat)

  const HORIZONS: seq<nat> := [1, 3, 5, 10]

  function MaxHigh(bars: seq<Bar>): (r: real)
    requires bars != []
    ensures forall i | 0 <= i < |bars| :: bars[i].high <= r
  {
    var n := |bars| - 1;
    if n == 0 then bars[0].high else
      var front := MaxHigh(bars[..n]);
      if bars[n].high > front then bars[n].high else front
  }

  function MinLow(bars: seq<Bar>): (r: real)
    requires bars != []
    ensures (forall i | 0 <= i < |bars| :: r <= bars[i].low) && exists i :: 0 <= i < |bars| && bars[i].low == r
  {
    var n := |bars| - 1;
    if n == 0 then bars[0].low else
      var front := MinLow(bars[..n]);
      if bars[n].low < front then bars[n].low else front
  }

  /** `np.argmax`: the first position of the highest high. */
  function ArgMax(bars: seq<Bar>): (r: nat)
    requires bars != []
    ensures r < |bars| && bars[r].high == MaxHigh(bars) && forall i | 0 <= i < r :: bars[i].high < bars[r].high
  {
    var n := |bars| - 1;
    if n == 0 then 0 else if bars[n].high > MaxHigh(bars[..n]) then n else ArgMax(bars[..n])
  }

  function Percent(price: real, entry: real): real
    requires entry > 0.0
  {
    (price / entry - 1.0) * 100.0
  }

  /** The outcome at one horizon. */
  function At(future: seq<Bar>, entry: Option<real>, horizon: nat): Option<Outcome>
    requires horizon > 0
  {
    if entry.None? || entry.value <= 0.0 || |future| < horizon then None else
      var window := future[..horizon];
      Some(Outcome(Percent(window[horizon - 1].close, entry.value), Percent(MaxHigh(window), entry.value),
                   Percent(MinLow(window), entry.value), ArgMax(window) + 1))
  }

  /** The outcome of one horizon, from the window the source slices. */
  method OutcomeAt(future: seq<Bar>, entry: Option<real>, horizon: nat) returns (outcome: Option<Outcome>)
    requires horizon > 0
    ensures outcome == At(future, entry, horizon)
  {
    var window := if |future| < horizon then future else future[..horizon];
    if entry.None? || entry.value <= 0.0 || |window| < horizon {
      return None;
    }
    var price := entry.value;
    var close := window[|window| - 1].close;
    outcome := Some(Outcome(Percent(close, price), Percent(MaxHigh(window), price), Percent(MinLow(window), price), ArgMax(window) + 1));
  }

  /** `_short_path_outcomes`: one outcome per horizon. */
  method ShortPathOutcomes(future: seq<Bar>, entry: Option<real>) returns (result: map<nat, Option<Outcome>>)
    ensures result.Keys == set h | h in HORIZONS
    ensures forall h | h in HORIZONS :: h > 0 && result[h] == At(future, entry, h)
  {
    result := map[];
    for k := 0 to |HORIZONS|
      invariant result.Keys == set h | h in HORIZONS[..k]
      invariant forall h | h in HORIZONS[..k] :: h > 0 && result[h] == At(future, entry, h)
    {
      assert HORIZONS[..k + 1] == HORIZONS[..k] + [HORIZONS[k]];
      var outcome := OutcomeAt(future, entry, HORIZONS[k]);
      result := result[HORIZONS[k] := outcome];
    }
    assert HORIZONS[..|HORIZONS|] == HORIZONS;
  }

  // ---- Across horizons ---------------------------------------------------------------------------

  lemma {:induction false} PercentMonotone(a: real, b: real, entry: real)
    requires entry > 0.0
    ensures a <= b <==> Percent(a, entry) <= Percent(b, entry)
  {
    var x, y := a / entry, b / entry;
    assert x * entry == a && y * entry == b;
    if x <= y {
      assert (y - x) * entry >= 0.0;
    } else {
      assert (x - y) * entry > 0.0;
    }
  }

  /** A longer window has no lower high and no higher low; its first maximum moves only to a higher high. */
  lemma {:induction false} WindowGrows(bars: seq<Bar>, short: nat, long: nat)
    requires 0 < short <= long <= |bars|
    ensures MaxHigh(bars[..short]) <= MaxHigh(bars[..long]) && MinLow(bars[..long]) <= MinLow(bars[..short])
    ensures MaxHigh(bars[..short]) == MaxHigh(bars[..long]) ==> ArgMax(bars[..long]) == ArgMax(bars[..short])
    ensures MaxHigh(bars[..short]) < MaxHigh(bars[..long]) ==> ArgMax(bars[..long]) >= short
  {
    var a, b := bars[..short], bars[..long];
    assert forall i | 0 <= i < short :: a[i] == b[i];
    var i, j := ArgMax(a), ArgMax(b);
    assert a[i].high == b[i].high <= b[j].high;
    if j < short {
      assert b[j].high == a[j].high;
    }
  }

  /**
   A horizon is available only if every shorter one is. MFE never falls and MAE never rises with the
   horizon; the time to MFE changes exactly when the MFE does, and then passes the shorter horizon.
   */
  lemma {:induction false} ExcursionsWiden(future: seq<Bar>, entry: Option<real>, short: nat, long: nat)
    requires 0 < short < long && At(future, entry, long).Some?
    ensures At(future, entry, short).Some?
    ensures var a, b := At(future, entry, short).value, At(future, entry, long).value;
            && a.mfe <= b.mfe && b.mae <= a.mae
            && 1 <= a.timeToMfe <= short
            && (a.mfe == b.mfe <==> b.timeToMfe == a.timeToMfe)
            && (a.mfe < b.mfe <==> b.timeToMfe > short)
  {
    var price := entry.value;
    WindowGrows(future, short, long);
    var high, higher := MaxHigh(future[..short]), MaxHigh(future[..long]);
    PercentMonotone(high, higher, price);
    PercentMonotone(higher, high, price);
    PercentMonotone(MinLow(future[..long]), MinLow(future[..short]), price);
  }

  /** The time to MFE is the first bar that reaches it. */
  lemma {:induction false} TimeIsFirstMaximum(future: seq<Bar>, entry: Option<real>, horizon: nat, k: nat)
    requires 0 < horizon && At(future, entry, horizon).Some? && k < horizon
    ensures var o := At(future, entry, horizon).value;
            && Percent(future[k].high, entry.value) <= o.mfe
            && Percent(future[o.timeToMfe - 1].high, entry.value) == o.mfe
            && (k < o.timeToMfe - 1 ==> Percent(future[k].high, entry.value) < o.mfe)
  {
    var window := future[..horizon];
    assert window[k] == future[k];
    PercentMonotone(future[k].high, MaxHigh(window), entry.value);
    PercentMonotone(MaxHigh(window), future[k].high, entry.value);
  }

  predicate Consistent(bars: seq<Bar>) {
    forall i | 0 <= i < |bars| :: bars[i].low <= bars[i].close <= bars[i].high
  }

  /** With consistent bars every shorter horizon's return lies between the longer one's MAE and MFE. */
  lemma {:induction false} ReturnsWithinExcursions(future: seq<Bar>, entry: Option<real>, short: nat, long: nat)
    requires Consistent(future) && 0 < short <= long && At(future, entry, long).Some?
    ensures At(future, entry, short).Some?
    ensures At(future, entry, long).value.mae <= At(future, entry, short).value.ret <= At(future, entry, long).value.mfe
  {
    var window := future[..long];
    assert window[short - 1] == future[short - 1] == future[..short][short - 1];
    var close := window[short - 1].close;
    assert MinLow(window) <= close <= MaxHigh(window);
    PercentMonotone(MinLow(window), close, entry.value);
    PercentMonotone(close, MaxHigh(window), entry.value);
  }
}
