/** Concrete runs of the web role: a crash loop that is left again, and launches that go unrecorded. */
module WebExamples {
  import opened Common
  import opened Timeline
  import opened JobTable
  import opened Runtime
  import opened SuperviseOnce
  import opened RestartBudget
  import opened SupervisorLoop
  import opened LoopSafety
  import opened LoopTimeline
  import opened WebRestarts
  import opened WebCrashLoop

  const IDLE: Oracle := Oracle(_ => [], _ => Fine, _ => Rows([], {}, {}), [], false, true, true, 0)

  /**
   One owned iteration: `tick` passes before it and `pause` between its two polls, a process may exit between
   them, and a spawn works or fails.
   */
  datatype Turn = Turn(tick: nat, pause: nat, exits: Option<int>, spawns: bool, pid: int)

  function Between(t: Turn): seq<Step> {
    [Tick(0, t.pause)] + if t.exits.Some? then [Exit(t.exits.value, 1)] else []
  }

  /** The iteration does what the turn says, and does not look at the worker. */
  ghost predicate Acts(i: Input, t: Turn) {
    && !i.stop && i.check == Checked(true) && !i.rowReads && i.webSpawns == t.spawns && i.webPid == t.pid
    && i.env(PreCycle) == [Tick(0, t.tick)] && i.env(PreWeb) == [] && i.env(BetweenPolls) == Between(t)
  }

  ghost predicate ActAll(inputs: seq<Input>, turns: seq<Turn>) {
    |inputs| == |turns| && forall k | 0 <= k < |turns| :: Acts(inputs[k], turns[k])
  }

  function InputOf(t: Turn): Input {
    Input(false, Checked(true),
          p => if p == PreCycle then [Tick(0, t.tick)] else if p == BetweenPolls then Between(t) else [],
          t.spawns, t.pid, false, IDLE, IDLE)
  }

  /** There are such runs for any turns. */
  lemma {:induction false} SuchInputs(turns: seq<Turn>) returns (inputs: seq<Input>)
    ensures ActAll(inputs, turns)
  {
    inputs := seq(|turns|, k requires 0 <= k < |turns| => InputOf(turns[k]));
    forall k | 0 <= k < |turns| ensures Acts(inputs[k], turns[k]) {
      assert inputs[k] == InputOf(turns[k]);
    }
  }

  /** A supervisor that has just started, with no process around. */
  ghost predicate Starting(l: Loop, limit: nat, window: nat) {
    !l.done && ViewOf(l) == View(None, NewBudget(limit, window), l.world.mono, map[], Tally(0, 0, 0, 0, false))
  }

  /** The time the turns take. */
  function Elapsed(turns: seq<Turn>): nat {
    if turns == [] then 0 else Elapsed(Init(turns)) + Last(turns).tick + Last(turns).pause
  }

  // ---- Such a run, as far as the web role goes -----------------------------------------------------

  datatype View = View(web: Option<Child>, budget: Budget, now: int, procs: map<int, Proc>, tally: Tally)

  function ViewOf(l: Loop): View {
    View(l.web, l.webBudget, l.world.mono, l.world.procs, TallyOf(l.world.store.log))
  }

  predicate Runs(procs: map<int, Proc>, web: Option<Child>) {
    web.Some? && web.value.pid in procs && procs[web.value.pid].exit.None?
  }

  function Reaped(v: View, now: int): View {
    if v.web.Some? && !Runs(v.procs, v.web)
    then View(None, Record(v.budget, now), now, v.procs, Count(v.tally, Failure(Web, ChildExited)))
    else v.(now := now)
  }

  /** The time and the exit between the polls. */
  function Paused(v: View, t: Turn): View {
    v.(now := v.now + t.pause, procs := if t.exits.Some? then ExitProc(v.procs, t.exits.value, 1) else v.procs)
  }

  function Polled(v: View, spawns: bool, pid: int): View {
    if v.budget.crashLoop || Runs(v.procs, v.web) then v
    else if !spawns || pid in v.procs
    then v.(budget := Record(v.budget, v.now), tally := Count(v.tally, Failure(Web, SpawnFailed)))
    else View(Some(Child(pid, v.now)), v.budget, v.now, v.procs[pid := Proc(0, None)], Count(v.tally, Launched(Web, pid)))
  }

  function Started(v: View, t: Turn): View {
    Polled(Paused(v, t), t.spawns, t.pid)
  }

  function After(v: View, t: Turn): View {
    Started(Reaped(v, v.now + t.tick), t)
  }

  function AfterAll(v: View, turns: seq<Turn>): View {
    if turns == [] then v else After(AfterAll(v, Init(turns)), Last(turns))
  }

  lemma {:induction false} EnvOne(w: World, c: Settings, e: Step)
    ensures Env(w, c, [e]) == Do(w, c, e)
  {
    assert Init([e]) == [];
    assert Env(w, c, []) == w;
  }

  lemma {:induction false} EnvBetween(w: World, c: Settings, t: Turn)
    ensures var w1 := Do(w, c, Tick(0, t.pause));
            Env(w, c, Between(t)) == if t.exits.Some? then Do(w1, c, Exit(t.exits.value, 1)) else w1
  {
    EnvOne(w, c, Tick(0, t.pause));
    if t.exits.Some? {
      assert Init(Between(t)) == [Tick(0, t.pause)];
    } else {
      assert Between(t) == [Tick(0, t.pause)];
    }
  }

  lemma {:induction false} PausedView(l: Loop, c: Settings, i: Input, t: Turn)
    requires Acts(i, t)
    ensures var l1 := Move(l, c, i, BetweenPolls); ViewOf(l1) == Paused(ViewOf(l), t) && l1.world.wall == 0 && l1.done == l.done
  {
    EnvBetween(l.world, c, t);
    MoveTally(l.world, c, i.env(BetweenPolls));
  }

  /** What the second poll leads to. */
  function Outcome(l: Loop, spawns: bool, pid: int): Loop {
    if l.webBudget.crashLoop || (l.web.Some? && StillRuns(l.world, l.web.value.pid)) then l
    else if !spawns || pid in l.world.procs then ChargeWeb(l, SpawnFailed)
    else l.(world := Emit(l.world.(procs := l.world.procs[pid := Proc(l.world.wall, None)]), Launched(Web, pid)),
            web := Some(Child(pid, l.world.mono)))
  }

  lemma {:induction false} OutcomeView(l: Loop, spawns: bool, pid: int)
    requires l.world.wall == 0
    ensures ViewOf(Outcome(l, spawns, pid)) == Polled(ViewOf(l), spawns, pid) && Outcome(l, spawns, pid).done == l.done
  {
    ChargeTally(l, SpawnFailed);
    TallyNext(l.world.store.log, Launched(Web, pid));
  }

  lemma {:induction false} EnsureIsOutcome(l: Loop, c: Settings, i: Input)
    ensures EnsureWeb(l, c, i) == Outcome(Move(l, c, i, BetweenPolls), i.webSpawns, i.webPid)
  {
  }

  lemma {:induction false} StartView(l: Loop, c: Settings, i: Input, t: Turn)
    requires Acts(i, t)
    ensures var l' := EnsureWeb(l, c, i); ViewOf(l') == Started(ViewOf(l), t) && l'.done == l.done
  {
    var l1 := Move(l, c, i, BetweenPolls);
    PausedView(l, c, i, t);
    OutcomeView(l1, t.spawns, t.pid);
    EnsureIsOutcome(l, c, i);
  }

  lemma {:induction false} ReapView(l: Loop, c: Settings, i: Input, t: Turn)
    requires Acts(i, t)
    ensures var l' := ReapWeb(l, c, i);
            ViewOf(l') == Reaped(ViewOf(l), l.world.mono) && l'.done == l.done && l'.world.wall == l.world.wall
  {
    ReapTally(l, c, i);
  }

  lemma {:induction false} AtWebView(l: Loop, c: Settings, i: Input, t: Turn)
    requires !l.done && Acts(i, t)
    ensures var m := AtWeb(l, c, i);
            ViewOf(m) == ViewOf(l).(now := l.world.mono + t.tick) && m.world.wall == 0 && !m.done
  {
    EnvOne(l.world, c, Tick(0, t.tick));
    AtWebSame(l, c, i, true);
  }

  lemma {:induction false} TurnIsWebPart(l: Loop, c: Settings, i: Input, t: Turn)
    requires !l.done && Acts(i, t)
    ensures Cycle(l, c, i) == WebPart(AtWeb(l, c, i), c, i)
  {
  }

  lemma {:induction false} PartView(l: Loop, c: Settings, i: Input, t: Turn)
    requires !l.done && Acts(i, t)
    ensures var l' := WebPart(l, c, i); !l'.done && ViewOf(l') == Started(Reaped(ViewOf(l), l.world.mono), t)
  {
    ReapView(l, c, i, t);
    StartView(ReapWeb(l, c, i), c, i, t);
  }

  lemma {:induction false} TurnView(l: Loop, c: Settings, i: Input, t: Turn)
    requires !l.done && Acts(i, t)
    ensures var l' := Cycle(l, c, i); !l'.done && ViewOf(l') == After(ViewOf(l), t)
  {
    AtWebView(l, c, i, t);
    PartView(AtWeb(l, c, i), c, i, t);
    TurnIsWebPart(l, c, i, t);
  }

  lemma {:induction false} TurnsView(l: Loop, c: Settings, inputs: seq<Input>, turns: seq<Turn>)
    requires !l.done && ActAll(inputs, turns)
    ensures var l' := Run(l, c, inputs); !l'.done && ViewOf(l') == AfterAll(ViewOf(l), turns)
  {
    if turns != [] {
      assert forall k | 0 <= k < |Init(turns)| :: Init(turns)[k] == turns[k] && Init(inputs)[k] == inputs[k];
      TurnsView(l, c, Init(inputs), Init(turns));
      TurnView(Run(l, c, Init(inputs)), c, Last(inputs), Last(turns));
    }
  }

  lemma {:induction false} AfterNext(v: View, turns: seq<Turn>, t: Turn)
    ensures AfterAll(v, turns + [t]) == After(AfterAll(v, turns), t)
  {
    assert Init(turns + [t]) == turns;
  }

  // ---- A crash loop that is left again -----------------------------------------------------------

  lemma {:induction false} RecordRecent(b: Budget, now: int)
    requires forall t | t in b.failures :: now - t <= b.window
    ensures Record(b, now) ==
            Budget(b.limit, b.window, b.restarts + 1, b.failures + [now], |b.failures| + 1 >= b.limit)
  {
    RecentAll(b.failures, now, b.window);
  }

  predicate Fails(t: Turn) {
    t.exits.None? && !t.spawns
  }

  predicate Launching(t: Turn, pid: int) {
    t.exits.None? && t.spawns && t.pid == pid
  }

  /**
   Failed spawns up to one less than the budget, a launch, and an exit between the polls whose respawn fails, all
   within one window from the first failure on.
   */
  ghost predicate IntoLoop(turns: seq<Turn>, limit: nat, window: nat) {
    && limit >= 1 && |turns| == limit + 1
    && (forall k | 0 <= k < limit - 1 :: Fails(turns[k]))
    && Launching(turns[limit - 1], 1) && turns[limit].exits == Some(1) && !turns[limit].spawns
    && Elapsed(turns) - turns[0].tick - turns[0].pause <= window
  }

  /** `n` failures, none before `from`, all within the window. */
  ghost predicate FailedOften(v: View, from: int, limit: nat, window: nat, n: nat) {
    && v.budget == Budget(limit, window, n, v.budget.failures, false) && |v.budget.failures| == n
    && forall t | t in v.budget.failures :: from <= t <= v.now
  }

  ghost predicate Failing(v: View, from: int, limit: nat, window: nat, n: nat) {
    v.web.None? && v.procs == map[] && FailedOften(v, from, limit, window, n)
  }

  lemma {:induction false} FailStep(v: View, t: Turn, from: int, limit: nat, window: nat, n: nat)
    requires Failing(v, from, limit, window, n) && Fails(t) && n + 1 < limit
    requires from <= v.now + t.tick + t.pause <= from + window
    ensures var v' := After(v, t); Failing(v', from, limit, window, n + 1) && v'.now == v.now + t.tick + t.pause
  {
    RecordRecent(v.budget, v.now + t.tick + t.pause);
  }

  lemma {:induction false} ElapsedFirst(turns: seq<Turn>)
    requires turns != []
    ensures Elapsed(turns) >= turns[0].tick + turns[0].pause
  {
    if |turns| > 1 {
      ElapsedFirst(Init(turns));
    } else {
      assert Init(turns) == [];
    }
  }

  lemma {:induction false} FailsView(v: View, turns: seq<Turn>, from: int, limit: nat, window: nat)
    requires Failing(v, from, limit, window, 0) && |turns| < limit && forall k | 0 <= k < |turns| :: Fails(turns[k])
    requires turns != [] ==> from == v.now + turns[0].tick + turns[0].pause
    requires v.now + Elapsed(turns) <= from + window
    ensures var v' := AfterAll(v, turns); Failing(v', from, limit, window, |turns|) && v'.now == v.now + Elapsed(turns)
  {
    if turns != [] {
      var front := Init(turns);
      assert forall k | 0 <= k < |front| :: front[k] == turns[k];
      ElapsedFirst(turns);
      FailsView(v, front, from, limit, window);
      FailStep(AfterAll(v, front), Last(turns), from, limit, window, |front|);
    }
  }

  ghost predicate Served(v: View, from: int, limit: nat, window: nat, n: nat) {
    v.web.Some? && v.web.value.pid == 1 && v.procs == map[1 := Proc(0, None)] && FailedOften(v, from, limit, window, n)
  }

  lemma {:induction false} LaunchStep(v: View, t: Turn, from: int, limit: nat, window: nat, n: nat)
    requires Failing(v, from, limit, window, n) && Launching(t, 1)
    ensures var v' := After(v, t); Served(v', from, limit, window, n) && v'.now == v.now + t.tick + t.pause
  {
  }

  /** Crash looping with the exited child still tracked. */
  ghost predicate Stuck(v: View, limit: nat, window: nat) {
    && v.web.Some? && v.web.value.pid == 1 && v.procs == map[1 := Proc(0, Some(1))]
    && v.budget == Budget(limit, window, limit, v.budget.failures, true)
    && forall t | t in v.budget.failures :: t <= v.now
  }

  lemma {:induction false} LoseStep(v: View, t: Turn, from: int, limit: nat, window: nat)
    requires limit >= 1 && Served(v, from, limit, window, limit - 1) && t.exits == Some(1) && !t.spawns
    requires limit >= 2 ==> v.now + t.tick + t.pause <= from + window
    ensures Stuck(After(v, t), limit, window)
  {
    RecordRecent(v.budget, v.now + t.tick + t.pause);
  }

  lemma {:induction false} ElapsedNext(turns: seq<Turn>, t: Turn)
    ensures Elapsed(turns + [t]) == Elapsed(turns) + t.tick + t.pause
  {
    assert Init(turns + [t]) == turns;
  }

  lemma {:induction false} ServedView(v: View, fails: seq<Turn>, t: Turn, from: int, limit: nat, window: nat)
    requires Failing(v, from, limit, window, 0) && |fails| + 1 == limit && forall k | 0 <= k < |fails| :: Fails(fails[k])
    requires Launching(t, 1) && (fails != [] ==> from == v.now + fails[0].tick + fails[0].pause)
    requires v.now + Elapsed(fails) <= from + window
    ensures var v' := AfterAll(v, fails + [t]);
            Served(v', from, limit, window, limit - 1) && v'.now == v.now + Elapsed(fails) + t.tick + t.pause
  {
    FailsView(v, fails, from, limit, window);
    AfterNext(v, fails, t);
    LaunchStep(AfterAll(v, fails), t, from, limit, window, limit - 1);
  }

  lemma {:induction false} IntoLoopView(v: View, turns: seq<Turn>, limit: nat, window: nat)
    requires v.web.None? && v.procs == map[] && v.budget == NewBudget(limit, window) && IntoLoop(turns, limit, window)
    ensures Stuck(AfterAll(v, turns), limit, window)
  {
    var fails, launch, lose := turns[..limit - 1], turns[limit - 1], turns[limit];
    var from := v.now + turns[0].tick + turns[0].pause;
    assert turns == fails + [launch] + [lose];
    ElapsedNext(fails, launch);
    ElapsedNext(fails + [launch], lose);
    ServedView(v, fails, launch, from, limit, window);
    AfterNext(v, fails + [launch], lose);
    LoseStep(AfterAll(v, fails + [launch]), lose, from, limit, window);
  }

  /** The next failure is recorded after the window has passed: it is the only recent one. */
  lemma {:induction false} LateCharge(b: Budget, now: int)
    requires forall t | t in b.failures :: now - t > b.window
    ensures Record(b, now) == Budget(b.limit, b.window, b.restarts + 1, [now], 1 >= b.limit)
  {
    RecentNone(b.failures, now, b.window);
  }

  lemma {:induction false} RelaunchView(v: View, t: Turn, limit: nat, window: nat)
    requires limit >= 2 && Stuck(v, limit, window) && Launching(t, 2) && t.tick > window
    ensures var v' := After(v, t);
            !v'.budget.crashLoop && v'.web.Some? && v'.tally.launches == v.tally.launches + 1
  {
    LateReap(v, v.now + t.tick, limit, window);
    FreshStart(Reaped(v, v.now + t.tick), t);
  }

  /** The exited child is charged after the window has passed: the crash loop is left without a child. */
  lemma {:induction false} LateReap(v: View, now: int, limit: nat, window: nat)
    requires limit >= 2 && Stuck(v, limit, window) && now > v.now + window
    ensures var v1 := Reaped(v, now);
            && v1.web.None? && !v1.budget.crashLoop && v1.procs == v.procs && v1.tally.launches == v.tally.launches
  {
    LateCharge(v.budget, now);
  }

  lemma {:induction false} FreshStart(v: View, t: Turn)
    requires v.web.None? && !v.budget.crashLoop && t.exits.None? && t.spawns && t.pid !in v.procs
    ensures var v' := Started(v, t);
            !v'.budget.crashLoop && v'.web.Some? && v'.tally.launches == v.tally.launches + 1
  {
  }

  /**
   The web crash loop is not terminal. For every budget of at least two and whatever the waits, such a run enters
   the crash loop, and a further iteration after the window has passed leaves it and launches the web child.
   */
  lemma {:induction false} WebCrashLoopLeft(
    begin: Loop, limit: nat, window: nat, c: Settings, inputs: seq<Input>, turns: seq<Turn>, last: Input, t: Turn)
    requires Starting(begin, limit, window) && limit >= 2
    requires ActAll(inputs, turns) && IntoLoop(turns, limit, window)
    requires Acts(last, t) && Launching(t, 2) && t.tick > window
    ensures var l := Run(begin, c, inputs);
            var l' := Cycle(l, c, last);
            l.webBudget.crashLoop && !l'.webBudget.crashLoop && l'.web.Some? && Launches(l') == Launches(l) + 1
  {
    var l := Run(begin, c, inputs);
    IntoLoopView(ViewOf(begin), turns, limit, window);
    TurnsView(begin, c, inputs, turns);
    RelaunchView(ViewOf(l), t, limit, window);
    TurnView(l, c, last, t);
  }

  /** Waits of any length fit before every iteration, as long as the window holds the budget that often. */
  lemma {:induction false} EvenTurns(limit: nat, window: nat, gap: nat) returns (turns: seq<Turn>)
    requires limit >= 1 && limit * gap <= window
    ensures IntoLoop(turns, limit, window) && forall t | t in turns :: t.tick == gap
  {
    turns := seq(limit - 1, _ => Turn(gap, 0, None, false, 0)) + [Turn(gap, 0, None, true, 1)] + [Turn(gap, 0, Some(1), false, 2)];
    ElapsedEvenly(turns, gap);
  }

  lemma {:induction false} ElapsedEvenly(turns: seq<Turn>, gap: nat)
    requires forall k | 0 <= k < |turns| :: turns[k].tick == gap && turns[k].pause == 0
    ensures Elapsed(turns) == |turns| * gap
  {
    if turns != [] {
      assert forall k | 0 <= k < |turns| - 1 :: Init(turns)[k] == turns[k];
      ElapsedEvenly(Init(turns), gap);
    }
  }

  // ---- Launches that go unrecorded -----------------------------------------------------------------

  /** A launch and `n` races: each time the child exits between the polls, and the spawn works. */
  ghost predicate Races(turns: seq<Turn>, n: nat) {
    && |turns| == n + 1 && Launching(turns[0], 1)
    && forall k | 0 < k <= n :: turns[k].exits == Some(k) && turns[k].spawns && turns[k].pid == k + 1
  }

  ghost predicate Racing(v: View, b: Budget, n: nat) {
    && v.web.Some? && v.web.value.pid == n + 1 && v.budget == b && Runs(v.procs, v.web)
    && (forall pid | pid in v.procs :: pid <= n + 1) && v.tally == Tally(n + 1, 0, 0, n, true)
  }

  lemma {:induction false} RaceStep(v: View, t: Turn, b: Budget, n: nat)
    requires Racing(v, b, n) && !b.crashLoop && t.exits == Some(n + 1) && t.spawns && t.pid == n + 2
    ensures Racing(After(v, t), b, n + 1)
  {
  }

  lemma {:induction false} RacesView(v: View, b: Budget, turns: seq<Turn>, n: nat)
    requires v == View(None, b, v.now, map[], Tally(0, 0, 0, 0, false)) && !b.crashLoop && Races(turns, n)
    ensures Racing(AfterAll(v, turns), b, n)
  {
    if n == 0 {
      assert Init(turns) == [];
      assert AfterAll(v, turns) == After(v, turns[0]);
    } else {
      var front := Init(turns);
      assert forall k | 0 <= k < |front| :: front[k] == turns[k];
      RacesView(v, b, front, n - 1);
      RaceStep(AfterAll(v, front), Last(turns), b, n - 1);
    }
  }

  /** The bound fails by any amount: for every `n` and whatever the waits, runs with `n + 1` launches and no recorded failure. */
  lemma {:induction false} LaunchesUnbounded(begin: Loop, limit: nat, window: nat, c: Settings, n: nat, inputs: seq<Input>, turns: seq<Turn>)
    requires Starting(begin, limit, window) && ActAll(inputs, turns) && Races(turns, n)
    ensures TallyOf(Run(begin, c, inputs).world.store.log) == Tally(n + 1, 0, 0, n, true)
  {
    RacesView(ViewOf(begin), begin.webBudget, turns, n);
    TurnsView(begin, c, inputs, turns);
  }
}
