/**
 The restart budget of a supervised role: failures inside a sliding window, and the crash-loop flag
 that stops restarts. Times are microseconds of the monotonic clock.
 */
module RestartBudget {
  import opened Common
  import opened Timeline

  datatype Budget = Budget(limit: nat, window: nat, restarts: nat, failures: seq<int>, crashLoop: bool)

  function NewBudget(limit: nat, window: nat): Budget {
    Budget(limit, window, 0, [], false)
  }

  /** The times no further than `window` before `now`. */
  function Recent(times: seq<int>, now: int, window: nat): seq<int> {
    if times == [] then [] else
      Recent(Init(times), now, window) + if now - Last(times) <= window then [Last(times)] else []
  }

  /** `record_failure`: prune, append, and decide afresh whether the role is crash looping. */
  function Record(b: Budget, now: int): Budget {
    var failures := Recent(b.failures, now, b.window) + [now];
    b.(restarts := b.restarts + 1, failures := failures, crashLoop := |failures| >= b.limit)
  }

  function RecordAll(b: Budget, times: seq<int>): Budget {
    if times == [] then b else Record(RecordAll(b, Init(times)), Last(times))
  }

  ghost predicate Nondecreasing(times: seq<int>) {
    forall i, j | 0 <= i <= j < |times| :: times[i] <= times[j]
  }

  /** The object the supervisor keeps per role. */
  class RestartTracker {
    const limit: nat
    const window: nat
    var restarts: nat
    var failures: seq<int>
    var crashLoop: bool

    function Value(): Budget
      reads this
    {
      Budget(limit, window, restarts, failures, crashLoop)
    }

    constructor (limit: nat, window: nat)
      ensures Value() == NewBudget(limit, window)
    {
      this.limit := limit;
      this.window := window;
      restarts := 0;
      failures := [];
      crashLoop := false;
    }

    method RecordFailure(now: int) returns (looping: bool)
      modifies this
      ensures Value() == Record(old(Value()), now)
      ensures looping == crashLoop
    {
      var kept: seq<int> := [];
      for k := 0 to |failures|
        invariant kept == Recent(failures[..k], now, window)
        invariant Value() == old(Value())
      {
        assert Init(failures[..k + 1]) == failures[..k];
        if now - failures[k] <= window {
          kept := kept + [failures[k]];
        }
      }
      assert failures[..|failures|] == failures;
      failures := kept + [now];
      restarts := restarts + 1;
      crashLoop := |failures| >= limit;
      looping := crashLoop;
    }
  }

  // ---- Pruning loses nothing -------------------------------------------------------------------

  lemma {:induction false} RecentOfRecent(times: seq<int>, a: int, b: int, window: nat)
    requires a <= b
    ensures Recent(Recent(times, a, window), b, window) == Recent(times, b, window)
  {
    if times != [] {
      RecentOfRecent(Init(times), a, b, window);
      var kept := Recent(Init(times), a, window);
      if a - Last(times) <= window {
        assert Init(kept + [Last(times)]) == kept;
      } else {
        assert kept + [] == kept;
      }
    }
  }

  lemma {:induction false} RecentAppend(times: seq<int>, t: int, now: int, window: nat)
    ensures Recent(times + [t], now, window) == Recent(times, now, window) + if now - t <= window then [t] else []
  {
    assert Init(times + [t]) == times;
  }

  /** On a monotone clock the pruned list is the window over the whole history. */
  lemma {:induction false} PruningIsExact(limit: nat, window: nat, history: seq<int>)
    requires history != [] && Nondecreasing(history)
    ensures var b := RecordAll(NewBudget(limit, window), history);
            && b.failures == Recent(history, Last(history), window)
            && b.restarts == |history| && b.limit == limit && b.window == window
            && b.crashLoop == (|b.failures| >= limit)
  {
    var now := Last(history);
    var before := Init(history);
    assert history == before + [now];
    RecentAppend(before, now, now, window);
    if before != [] {
      PruningIsExact(limit, window, before);
      RecentOfRecent(before, Last(before), now, window);
    }
  }

  /** Counting the window from the end: at least `n` recent failures means the `n`-th latest is recent. */
  lemma {:induction false} RecentCount(times: seq<int>, now: int, window: nat, n: nat)
    requires Nondecreasing(times) && forall t | t in times :: t <= now
    ensures |Recent(times, now, window)| >= n <==> n == 0 || (n <= |times| && now - times[|times| - n] <= window)
  {
    if times != [] {
      var last, front := Last(times), Init(times);
      if now - last <= window {
        if n > 0 {
          assert forall t | t in front :: t in times;
          RecentCount(front, now, window, n - 1);
          if n == 1 {
          } else {
            assert n <= |times| ==> front[|front| - (n - 1)] == times[|times| - n];
          }
        }
      } else {
        RecentNone(front, now, window);
        if 0 < n <= |times| {
          assert times[|times| - n] <= last;
        }
      }
    }
  }

  lemma {:induction false} RecentAll(times: seq<int>, now: int, window: nat)
    requires forall t | t in times :: now - t <= window
    ensures Recent(times, now, window) == times
  {
    if times != [] {
      assert forall t | t in Init(times) :: t in times;
      assert Last(times) in times;
      RecentAll(Init(times), now, window);
    }
  }

  lemma {:induction false} RecentNone(times: seq<int>, now: int, window: nat)
    ensures (forall t | t in times :: now - t > window) ==> Recent(times, now, window) == []
  {
    if times != [] {
      RecentNone(Init(times), now, window);
      assert forall t | t in Init(times) :: t in times;
      assert Last(times) in times;
    }
  }

  /** A role is crash looping exactly when its `limit`-th latest failure lies in the window. */
  lemma {:induction false} CrashLoopExactly(limit: nat, window: nat, history: seq<int>)
    requires history != [] && Nondecreasing(history)
    ensures RecordAll(NewBudget(limit, window), history).crashLoop <==>
            limit == 0 || (limit <= |history| && Last(history) - history[|history| - limit] <= window)
  {
    PruningIsExact(limit, window, history);
    RecentCount(history, Last(history), window, limit);
  }

  // ---- The crash loop is not terminal ----------------------------------------------------------

  /** Another failure leaves the crash loop exactly when too few of the remembered ones are recent. */
  lemma {:induction false} LeavesCrashLoop(b: Budget, now: int)
    requires Nondecreasing(b.failures) && forall t | t in b.failures :: t <= now
    ensures Record(b, now).crashLoop <==>
            b.limit <= 1 || (b.limit - 1 <= |b.failures| && now - b.failures[|b.failures| - (b.limit - 1)] <= b.window)
  {
    if b.limit > 1 {
      RecentCount(b.failures, now, b.window, b.limit - 1);
    }
  }

  lemma {:induction false} RecentSubset(times: seq<int>, now: int, window: nat)
    ensures forall t | t in Recent(times, now, window) :: t in times
  {
    if times != [] {
      RecentSubset(Init(times), now, window);
      assert forall t | t in Init(times) :: t in times;
    }
  }

  function Periodic(start: int, period: nat, n: nat): seq<int> {
    seq(n, k => start + k * period)
  }

  lemma {:induction false} PeriodicGrows(start: int, period: nat, n: nat)
    ensures Nondecreasing(Periodic(start, period, n))
  {
    forall i, j | 0 <= i <= j < n ensures start + i * period <= start + j * period {
      MulMonotone(i, j, period);
    }
  }

  lemma {:induction false} MulMonotone(i: nat, j: nat, p: nat)
    requires i <= j
    ensures i * p <= j * p
  {
    assert j * p - i * p == (j - i) * p;
  }

  /**
   A role that fails once per period is in crash loop after its `n`-th failure exactly when the
   budget is spent and the period is short enough for the window to hold the whole budget.
   */
  lemma {:induction false} PeriodicCrashLoop(limit: nat, window: nat, start: int, period: nat, n: nat)
    requires n > 0
    ensures RecordAll(NewBudget(limit, window), Periodic(start, period, n)).crashLoop <==>
            limit == 0 || (limit <= n && (limit - 1) * period <= window)
  {
    var h := Periodic(start, period, n);
    PeriodicGrows(start, period, n);
    CrashLoopExactly(limit, window, h);
    if 0 < limit <= n {
      assert Last(h) - h[n - limit] == (n - 1) * period - (n - limit) * period;
      assert (n - 1) * period - (n - limit) * period == (limit - 1) * period;
    }
  }

  lemma {:induction false} LateFailureForgives(limit: nat, window: nat, h: seq<int>)
    requires limit >= 2 && h != [] && forall t | t in h :: t == 0
    ensures Recent(Recent(h, Last(h), window), window + 1, window) == []
  {
    RecentSubset(h, Last(h), window);
    RecentNone(Recent(h, Last(h), window), window + 1, window);
  }

  /** Whatever the settings, a spent budget of two or more is forgiven by one late failure. */
  lemma {:induction false} CrashLoopEnds(limit: nat, window: nat)
    requires limit >= 2
    ensures var spent := RecordAll(NewBudget(limit, window), Periodic(0, 0, limit));
            spent.crashLoop && !Record(spent, window + 1).crashLoop
  {
    var h := Periodic(0, 0, limit);
    PeriodicCrashLoop(limit, window, 0, 0, limit);
    PeriodicGrows(0, 0, limit);
    PruningIsExact(limit, window, h);
    LateFailureForgives(limit, window, h);
  }
}
