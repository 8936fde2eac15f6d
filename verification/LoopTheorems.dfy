/** Everything a supervisor keeps, from its start to its end. */
module LoopTheorems {
  import opened Common
  import opened Timeline
  import opened JobTable
  import opened Runtime
  import opened SuperviseOnce
  import opened CallSafety
  import opened RecoverySafety
  import opened StrandedJobs
  import opened Launchers
  import opened Recycling
  import opened RestartBudget
  import opened SupervisorLoop
  import opened LoopSafety
  import opened LoopTimeline
  import opened LoopDiscipline
  import opened WebRestarts
  import opened WorkerRestarts
  import opened RestartClocks
  import JobHistory

  /**
   Executions end once, recoveries are fenced and recycling is justified; every action was taken under ownership;
   every web launch is accounted for; and the recorded failures follow the clock.
   */
  ghost predicate Sound(l: Loop) {
    GateHolds(l) && Counted(l) && Clocked(l)
  }

  /** Each worker launcher was seen to exit, or was sent a termination, before the next one was started. */
  ghost predicate Sequential(l: Loop) {
    Orderly(l.world.store.log) && (!l.done ==> InOrder(l))
  }

  lemma {:induction false} InitialSound(l: Loop)
    requires Initial(l)
    ensures Sound(l) && (l.world.blind == {} ==> Sequential(l))
  {
    InitialSafe(l);
    var none: seq<Event> := [];
    OwnedCarries(none, l.world.store.log);
    TallyForeign(none, l.world.store.log);
  }

  /** A supervisor can start on any job table in order: the table has a history from which the theorems hold. */
  lemma {:induction false} AnyTableStarts(l: Loop) returns (history: seq<Event>)
    requires JobHistory.InOrder(l.world.store.jobs, l.world.store.next)
    requires l.child.None? && l.web.None? && !l.owns && !l.done
    requires l.webBudget.restarts == 0 && l.webBudget.failures == [] && l.workerBudget.failures == []
    ensures Initial(l.(world := l.world.(store := l.world.store.(log := history))))
  {
    history := JobHistory.HistoryOf(l.world.store.jobs, l.world.store.next);
    assert l.world.store.(log := history) == Store(l.world.store.jobs, l.world.store.next, history);
  }

  lemma {:induction false} CycleSound(l: Loop, c: Settings, i: Input)
    requires Sound(l)
    ensures Sound(Cycle(l, c, i)) && StaysParked(l.world.store, Cycle(l, c, i).world.store)
  {
    CycleGated(l, c, i);
    CycleCounted(l, c, i);
    CycleClocked(l, c, i);
    CycleKeeps(l.world.store, l, c, i);
  }

  lemma {:induction false} CycleSequential(l: Loop, c: Settings, i: Input)
    requires Sequential(l) && ClearInput(i)
    ensures Sequential(Cycle(l, c, i))
  {
    if !l.done {
      CycleInOrder(l, c, i);
    }
  }

  lemma {:induction false} RunSound(l: Loop, c: Settings, inputs: seq<Input>)
    requires Sound(l)
    ensures Sound(Run(l, c, inputs)) && StaysParked(l.world.store, Run(l, c, inputs).world.store)
  {
    RunGated(l, c, inputs);
    RunCounted(l, c, inputs);
    RunClocked(l, c, inputs);
    RunKeeps(l, c, inputs);
  }

  /** From any start, over any run. */
  lemma {:induction false} StartedRun(l: Loop, c: Settings, inputs: seq<Input>)
    requires Initial(l)
    ensures Sound(Run(l, c, inputs)) && StaysParked(l.world.store, Run(l, c, inputs).world.store)
    ensures l.world.blind == {} && (forall i | i in inputs :: ClearInput(i)) ==> Sequential(Run(l, c, inputs))
  {
    InitialSound(l);
    RunSound(l, c, inputs);
    if l.world.blind == {} && forall i | i in inputs :: ClearInput(i) {
      RunInOrder(l, c, inputs);
    }
  }

  /** What one iteration keeps. */
  ghost predicate IterationKept(l: Loop, l': Loop, i: Input) {
    && (Sound(l) ==> Sound(l') && StaysParked(l.world.store, l'.world.store))
    && (Sequential(l) && ClearInput(i) ==> Sequential(l'))
  }

  lemma {:induction false} IterationKeeps(l: Loop, c: Settings, i: Input)
    ensures IterationKept(l, Cycle(l, c, i), i)
  {
    if Sound(l) {
      CycleSound(l, c, i);
    }
    if Sequential(l) && ClearInput(i) {
      CycleSequential(l, c, i);
    }
  }

  lemma {:induction false} WholeRun(l: Loop, c: Settings, inputs: seq<Input>)
    ensures Sound(l) || Initial(l) ==> Sound(Run(l, c, inputs)) && StaysParked(l.world.store, Run(l, c, inputs).world.store)
    ensures Initial(l) && l.world.blind == {} && (forall i | i in inputs :: ClearInput(i)) ==> Sequential(Run(l, c, inputs))
  {
    if Initial(l) {
      StartedRun(l, c, inputs);
    } else if Sound(l) {
      RunSound(l, c, inputs);
    }
  }

  // ---- What each step of the supervisor promises ---------------------------------------------------

  /** Nothing is recovered or launched, and with working signals the launcher is settled. */
  ghost predicate LauncherStopped(a: World, b: World, o: Oracle, pid: int) {
    && (Ledger(a.store) ==> Calmly(a, b))
    && (Ledger(a.store) && Sighted(a, o) ==> SettledSince(b.store.log, |a.store.log|, pid))
    && (o.mishap(SignalLauncher) == Fine && o.launcherDies ==> !StillRuns(b, pid))
  }

  lemma {:induction false} LauncherStops(w: World, c: Settings, o: Oracle, pid: int)
    ensures LauncherStopped(w, TerminateLauncher(w, c, o, pid), o, pid)
  {
    if Ledger(w.store) {
      TerminateLauncherCalm(w, c, o, pid);
      if Sighted(w, o) {
        TerminateLauncherSettles(w, c, o, pid);
      }
    }
  }

  /** Nothing is recovered or launched, no worker but the registered one is killed, and the launcher is settled. */
  ghost predicate InstanceStopped(a: World, b: World, o: Oracle, r: Registration, child: Option<Child>) {
    && (Ledger(a.store) ==> Calmly(a, b))
    && GrowsBy(a.store.log, b.store.log, Handling)
    && (forall k | |a.store.log| <= k < |b.store.log| && b.store.log[k].KillWorker? :: b.store.log[k].pid == PidOf(r))
    && (Ledger(a.store) && Sighted(a, o) && Recorded(a, r) && child.Some? ==>
          SettledSince(b.store.log, |a.store.log|, child.value.pid))
  }

  lemma {:induction false} InstanceStops(w: World, c: Settings, o: Oracle, r: Registration, child: Option<Child>)
    ensures InstanceStopped(w, TerminateInstance(w, c, o, r, child), o, r, child)
  {
    TerminateInstanceHandles(w, c, o, r, child);
    if Ledger(w.store) {
      TerminateInstanceCalm(w, c, o, r, child);
      if Sighted(w, o) && Recorded(w, r) && child.Some? {
        TerminateInstanceSettles(w, c, o, r, child.value);
      }
    }
  }

  /** The row of `r` is left stopping, unless it is another worker's by now or the write was rolled back. */
  ghost predicate RegistrationRetired(a: World, b: World, o: Oracle, r: Registration) {
    && (Ledger(a.store) ==> Calmly(a, b))
    && (o.mishap(RetireRow) != RolledBack && SameRegistration(b.reg, r) ==> !Active(b.reg))
  }

  lemma {:induction false} RegistrationRetires(w: World, c: Settings, o: Oracle, r: Registration)
    ensures RegistrationRetired(w, Retire(w, c, o, r), o, r)
  {
    if Ledger(w.store) {
      RetireCalm(w, c, o, r);
    }
  }

  /** The call keeps the ledger, the fences and the justifications, disturbs no parked job, and launches at most last. */
  ghost predicate WorkerSupervised(a: World, b: World, out: Outcome) {
    Safe(a) ==> Keeps(a.store, b) && Onward(a, b) && LaunchesLast(a.store.log, b.store.log, out)
  }

  lemma {:induction false} WorkerSupervises(w: World, c: Settings, o: Oracle, child: Option<Child>)
    ensures var (w', out) := SuperviseOnce.SuperviseOnce(w, c, o, child); WorkerSupervised(w, w', out)
  {
    if Safe(w) {
      CallBacked(w, c, o, child);
      CallJustified(w, c, o, child);
      CallStrands(w, c, o, child);
      OneLaunchPerCall(w, c, o, child);
    }
  }

  /** The web role's launches stay accounted for, and the worker role is left alone. */
  ghost predicate WebSupervised(l: Loop, l': Loop) {
    && (Counted(l) ==> Counted(l')) && (Safe(l.world) ==> Safe(l'.world)) && (Clocked(l) ==> Clocked(l'))
    && l'.child == l.child && SameWorker(l, l')
  }

  lemma {:induction false} WebSupervises(l: Loop, c: Settings, i: Input)
    ensures WebSupervised(l, WebPart(l, c, i))
  {
    if Counted(l) {
      WebPartCounted(l, c, i);
    }
    if Safe(l.world) {
      WebPartSafe(l, c, i);
    }
    if Clocked(l) {
      WebPartClocked(l, c, i);
    }
    WebPartLeavesWorker(l, c, i);
    WebPartSameWorker(l, c, i);
  }

  /** One charge for the three failures and none otherwise; nothing is launched. */
  ghost predicate LauncherReviewed(l: Loop, l': Loop, c: Settings, i: Input) {
    && l'.workerBudget == (if Charged(l, c, i) then Record(l.workerBudget, ReviewClock(l, c, i)) else l.workerBudget)
    && WorkerStarts(l') == WorkerStarts(l) && (Safe(l.world) ==> Keeps(l.world.store, l'.world))
  }

  lemma {:induction false} LauncherReviews(l: Loop, c: Settings, i: Input)
    ensures LauncherReviewed(l, ReviewWorker(l, c, i), c, i)
  {
    ReviewBudget(l, c, i);
    ReviewCounts(l, c, i);
    if Safe(l.world) {
      ReviewKeeps(l.world.store, l, c, i);
    }
  }

  /** The shutdown recovers like a call does, and starts nothing. */
  ghost predicate WorkerStopped(a: World, b: World) {
    Safe(a) ==> Keeps(a.store, b) && GrowsBy(a.store.log, b.store.log, ShutEvent)
  }

  lemma {:induction false} WorkerStops(w: World, c: Settings, o: Oracle, child: Option<Child>)
    ensures WorkerStopped(w, StopWorker(w, c, o, child))
  {
    if Safe(w) {
      StopWorkerKeeps(w.store, w, c, o, child);
      StopWorkerWrites(w, c, o, child);
    }
  }
}
