/**
 The web child over whole runs: what its launches and failures on the timeline add up to, when the
 crash loop is left again, and how often a launch goes unrecorded.
 */
module WebRestarts {
  import opened Common
  import opened Timeline
  import opened JobTable
  import opened Runtime
  import opened SuperviseOnce
  import opened Recycling
  import opened RestartBudget
  import opened SupervisorLoop
  import opened LoopSafety
  import opened LoopTimeline

  // ---- The timeline of the web role ------------------------------------------------------------

  /**
   The web launches, recorded failures and failed spawns of a timeline. A race is a launch while the
   previous child has not been recorded as exited; `tracks` says that there is such a child.
   */
  datatype Tally = Tally(launches: nat, failures: nat, spawnFailures: nat, races: nat, tracks: bool)

  function Count(t: Tally, e: Event): Tally {
    if Foreign(e) then t
    else if e.Launched? then
      t.(launches := t.launches + 1, races := t.races + if t.tracks then 1 else 0, tracks := true)
    else if e.cause == SpawnFailed then t.(failures := t.failures + 1, spawnFailures := t.spawnFailures + 1)
    else t.(failures := t.failures + 1, tracks := false)
  }

  function TallyOf(log: seq<Event>): Tally {
    if log == [] then Tally(0, 0, 0, 0, false) else Count(TallyOf(Init(log)), Last(log))
  }

  predicate Foreign(e: Event) {
    !((e.Launched? || e.Failure?) && e.role == Web)
  }

  lemma {:induction false} TallyNext(log: seq<Event>, e: Event)
    ensures TallyOf(log + [e]) == Count(TallyOf(log), e)
  {
    assert Init(log + [e]) == log;
  }

  lemma {:induction false} TallyForeign(a: seq<Event>, b: seq<Event>)
    requires a <= b && forall k | |a| <= k < |b| :: Foreign(b[k])
    ensures TallyOf(b) == TallyOf(a)
    decreases |b|
  {
    if |b| == |a| {
      assert a == b;
    } else {
      assert a <= Init(b);
      TallyForeign(a, Init(b));
    }
  }

  // ---- The count over runs -----------------------------------------------------------------------

  /** The loop's web fields agree with the timeline, and every launch is accounted for. */
  ghost predicate Counted(l: Loop) {
    var t := TallyOf(l.world.store.log);
    && t.tracks == l.web.Some?
    && l.webBudget.restarts == t.failures
    && Balanced(t)
  }

  /** Every launch is followed by a recorded exit, is still tracked, or was overtaken by a race. */
  predicate Balanced(t: Tally) {
    t.launches + t.spawnFailures == t.failures + t.races + if t.tracks then 1 else 0
  }

  lemma {:induction false} MoveTally(w: World, c: Settings, steps: seq<Step>)
    ensures TallyOf(Env(w, c, steps).store.log) == TallyOf(w.store.log)
  {
    EnvKeeps(w, c, steps);
    TallyForeign(w.store.log, Env(w, c, steps).store.log);
  }

  lemma {:induction false} ChargeTally(l: Loop, cause: Cause)
    ensures TallyOf(ChargeWeb(l, cause).world.store.log) == Count(TallyOf(l.world.store.log), Failure(Web, cause))
  {
    TallyNext(l.world.store.log, Failure(Web, cause));
  }

  lemma {:induction false} ReapTally(l: Loop, c: Settings, i: Input)
    ensures var t := TallyOf(l.world.store.log);
            TallyOf(ReapWeb(l, c, i).world.store.log)
            == if FirstPollExited(l, c, i) then Count(t, Failure(Web, ChildExited)) else t
  {
    MoveTally(l.world, c, i.env(PreWeb));
    var l1 := Move(l, c, i, PreWeb);
    if FirstPollExited(l, c, i) {
      var e := ExitSeen(l1.web.value.pid);
      TallyNext(l1.world.store.log, e);
      ChargeTally(l1.(world := Emit(l1.world, e), web := None), ChildExited);
    }
  }

  lemma {:induction false} EnsureTally(l: Loop, c: Settings, i: Input)
    ensures var t, t' := TallyOf(l.world.store.log), TallyOf(EnsureWeb(l, c, i).world.store.log);
            t' == if !Starts(l, c, i) then t
                  else if SpawnWorks(l, c, i) then Count(t, Launched(Web, i.webPid))
                  else Count(t, Failure(Web, SpawnFailed))
  {
    MoveTally(l.world, c, i.env(BetweenPolls));
    var l1 := Move(l, c, i, BetweenPolls);
    if Starts(l, c, i) {
      if SpawnWorks(l, c, i) {
        TallyNext(l1.world.store.log, Launched(Web, i.webPid));
      } else {
        ChargeTally(l1, SpawnFailed);
      }
    }
  }

  /** The first poll of the iteration sees the tracked child exited. */
  predicate FirstPollExited(l: Loop, c: Settings, i: Input) {
    var l1 := Move(l, c, i, PreWeb);
    l1.web.Some? && !StillRuns(l1.world, l1.web.value.pid)
  }

  /** The second poll leads to an attempt to start a child. */
  predicate Starts(l: Loop, c: Settings, i: Input) {
    var l1 := Move(l, c, i, BetweenPolls);
    !l.webBudget.crashLoop && !(l1.web.Some? && StillRuns(l1.world, l1.web.value.pid))
  }

  predicate SpawnWorks(l: Loop, c: Settings, i: Input) {
    i.webSpawns && i.webPid !in Move(l, c, i, BetweenPolls).world.procs
  }

  function WebPart(l: Loop, c: Settings, i: Input): Loop {
    EnsureWeb(ReapWeb(l, c, i), c, i)
  }

  /** Equal in everything that concerns the web role. */
  ghost predicate SameWeb(a: Loop, b: Loop) {
    a.web == b.web && a.webBudget == b.webBudget && TallyOf(a.world.store.log) == TallyOf(b.world.store.log)
  }

  lemma {:induction false} ForeignSame(a: Loop, b: Loop)
    requires a.web == b.web && a.webBudget == b.webBudget && GrowsBy(a.world.store.log, b.world.store.log, Foreign)
    ensures SameWeb(a, b)
  {
    TallyForeign(a.world.store.log, b.world.store.log);
  }

  lemma {:induction false} ShutdownSame(l: Loop, c: Settings, i: Input)
    requires Safe(l.world)
    ensures SameWeb(l, Shutdown(l, c, i))
  {
    ShutdownWrites(l, c, i);
    ForeignSame(l, Shutdown(l, c, i));
  }

  lemma {:induction false} WorkerPartSame(l: Loop, c: Settings, i: Input)
    requires Safe(l.world)
    ensures SameWeb(l, WorkerPart(l, c, i))
  {
    WorkerPartWrites(l, c, i);
    WorkerPartLeavesWeb(l, c, i);
    ForeignSame(l, WorkerPart(l, c, i));
  }

  lemma {:induction false} AtWebSame(l: Loop, c: Settings, i: Input, owned: bool)
    ensures SameWeb(l, Answer(Move(l, c, i, PreCycle), owned)) && SameWeb(l, Move(l, c, i, PreCycle))
  {
    EnvKeeps(l.world, c, i.env(PreCycle));
    ForeignSame(l, Move(l, c, i, PreCycle));
    ForeignSame(l, Answer(Move(l, c, i, PreCycle), owned));
  }

  lemma {:induction false} DecideSame(l: Loop, c: Settings, i: Input)
    requires Safe(l.world)
    ensures SameWeb(if l.owns then WebPart(l, c, i) else l, Decide(l, c, i))
  {
    if l.owns {
      WebPartSafe(l, c, i);
      WorkerPartSame(WebPart(l, c, i), c, i);
    } else {
      ShutdownSame(l, c, i);
    }
  }

  /** An iteration does to the web role what its web part does, if it gets that far, and otherwise nothing. */
  lemma {:induction false} CycleOfWeb(l: Loop, c: Settings, i: Input)
    requires Safe(l.world)
    ensures SameWeb(if Supervises(l, i) then WebPart(AtWeb(l, c, i), c, i) else l, Cycle(l, c, i))
  {
    if !l.done {
      var l0 := Move(l, c, i, PreCycle);
      AtWebSame(l, c, i, i.check.Checked? && i.check.owned);
      MoveSafe(l, c, i, PreCycle);
      if i.stop {
        ShutdownSame(l0, c, i);
      } else if i.check.Checked? {
        AnswerSafe(l0.world, i.check.owned);
        DecideSame(Answer(l0, i.check.owned), c, i);
      }
    }
  }

  lemma {:induction false} WebPartCounted(l: Loop, c: Settings, i: Input)
    requires Counted(l)
    ensures Counted(WebPart(l, c, i))
  {
    ReapTally(l, c, i);
    var l1 := ReapWeb(l, c, i);
    assert Counted(l1);
    EnsureTally(l1, c, i);
  }

  lemma {:induction false} CycleCounted(l: Loop, c: Settings, i: Input)
    requires Counted(l) && Safe(l.world)
    ensures Counted(Cycle(l, c, i))
  {
    CycleOfWeb(l, c, i);
    if Supervises(l, i) {
      AtWebSame(l, c, i, true);
      WebPartCounted(AtWeb(l, c, i), c, i);
    }
  }

  /** Over every run each web launch is a recorded exit, the child still tracked, or a race. */
  lemma {:induction false} RunCounted(l: Loop, c: Settings, inputs: seq<Input>)
    requires Counted(l) && Safe(l.world)
    ensures Counted(Run(l, c, inputs))
  {
    if inputs != [] {
      var l1 := Run(l, c, Init(inputs));
      RunCounted(l, c, Init(inputs));
      assert Safe(l1.world) by {
        RunKeeps(l, c, Init(inputs));
      }
      CycleCounted(l1, c, Last(inputs));
    }
  }

  /** Web launches stay within one plus the recorded failures exactly when races are covered by failed spawns. */
  lemma {:induction false} LaunchBoundExactly(l: Loop, c: Settings, inputs: seq<Input>)
    requires Counted(l) && Safe(l.world)
    ensures var t := TallyOf(Run(l, c, inputs).world.store.log);
            t.launches <= 1 + t.failures <==> t.races + (if t.tracks then 1 else 0) <= 1 + t.spawnFailures
  {
    RunCounted(l, c, inputs);
  }

  // ---- Races -----------------------------------------------------------------------------------

  predicate NoExitBetween(i: Input) {
    forall e | e in i.env(BetweenPolls) :: !e.Exit?
  }

  lemma {:induction false} StaysRunning(w: World, c: Settings, steps: seq<Step>, pid: int)
    requires StillRuns(w, pid) && forall e | e in steps :: !e.Exit?
    ensures StillRuns(Env(w, c, steps), pid)
  {
    if steps != [] {
      assert forall e | e in Init(steps) :: e in steps;
      StaysRunning(w, c, Init(steps), pid);
      assert Last(steps) in steps;
    }
  }

  lemma {:induction false} RacelessPart(l: Loop, c: Settings, i: Input)
    requires Counted(l) && NoExitBetween(i)
    ensures TallyOf(WebPart(l, c, i).world.store.log).races == TallyOf(l.world.store.log).races
  {
    ReapTally(l, c, i);
    var l1 := ReapWeb(l, c, i);
    EnsureTally(l1, c, i);
    if l1.web.Some? {
      StaysRunning(l1.world, c, i.env(BetweenPolls), l1.web.value.pid);
    }
  }

  lemma {:induction false} RacelessCycle(l: Loop, c: Settings, i: Input)
    requires Counted(l) && Safe(l.world) && NoExitBetween(i)
    ensures TallyOf(Cycle(l, c, i).world.store.log).races == TallyOf(l.world.store.log).races
  {
    CycleOfWeb(l, c, i);
    if Supervises(l, i) {
      AtWebSame(l, c, i, true);
      RacelessPart(AtWeb(l, c, i), c, i);
    }
  }

  lemma {:induction false} RacelessRun(l: Loop, c: Settings, inputs: seq<Input>)
    requires Counted(l) && Safe(l.world) && forall i | i in inputs :: NoExitBetween(i)
    ensures TallyOf(Run(l, c, inputs).world.store.log).races == TallyOf(l.world.store.log).races
  {
    if inputs != [] {
      assert forall i | i in Init(inputs) :: i in inputs;
      assert Last(inputs) in inputs;
      RacelessRun(l, c, Init(inputs));
      RunCounted(l, c, Init(inputs));
      assert Safe(Run(l, c, Init(inputs)).world) by {
        RunKeeps(l, c, Init(inputs));
      }
      RacelessCycle(Run(l, c, Init(inputs)), c, Last(inputs));
    }
  }

  /**
   Over every run web launches never exceed one plus the recorded failures plus the races; and there are no races
   if no process exits between the two polls of an iteration.
   */
  lemma {:induction false} WebLaunchesBounded(l: Loop, c: Settings, inputs: seq<Input>)
    requires Counted(l) && Safe(l.world)
    ensures var t, t' := TallyOf(l.world.store.log), TallyOf(Run(l, c, inputs).world.store.log);
            && t'.launches <= 1 + t'.failures + t'.races
            && ((forall i | i in inputs :: NoExitBetween(i)) ==> t'.races == t.races)
  {
    RunCounted(l, c, inputs);
    if forall i | i in inputs :: NoExitBetween(i) {
      RacelessRun(l, c, inputs);
    }
  }
}
