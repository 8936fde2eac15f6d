/** The worker role over whole runs: which reviews are charged, which calls launch, and when a crash loop is left again. */
module WorkerRestarts {
  import opened Common
  import opened Timeline
  import opened JobTable
  import opened Runtime
  import opened SuperviseOnce
  import opened Launchers
  import opened CallSafety
  import opened RecoverySafety
  import opened Recycling
  import opened RestartBudget
  import opened SupervisorLoop
  import opened LoopSafety
  import opened LoopTimeline
  import opened WebRestarts

  // ---- What a review charges -------------------------------------------------------------------

  function RowRead(l: Loop, c: Settings, i: Input): Option<Registration> {
    Move(l, c, i, PreRow).world.reg
  }

  /** The state the review judges: the row has been read and the launcher polled. */
  function Polled(l: Loop, c: Settings, i: Input): Loop {
    PollChild(Move(Move(l, c, i, PreRow), c, i, PostRow))
  }

  predicate RowAlive(l: Loop, c: Settings, i: Input) {
    ProcessAlive(Polled(l, c, i).world, c, RowRead(l, c, i))
  }

  predicate RowGraceful(l: Loop, c: Settings, i: Input) {
    Graceful(Polled(l, c, i).world, RowRead(l, c, i), l.child)
  }

  /** The registered process is gone. */
  predicate LostProcess(l: Loop, c: Settings, i: Input) {
    Active(RowRead(l, c, i)) && !RowAlive(l, c, i)
  }

  /** The launcher exited and no worker is registered. */
  predicate ExitedEarly(l: Loop, c: Settings, i: Input) {
    !Active(RowRead(l, c, i)) && !RowGraceful(l, c, i) && HasExited(Polled(l, c, i))
  }

  /** The launcher has been running without a registered process for the registration timeout. */
  predicate TimedOut(l: Loop, c: Settings, i: Input) {
    && !Active(RowRead(l, c, i)) && !RowAlive(l, c, i) && l.child.Some? && !HasExited(Polled(l, c, i))
    && Polled(l, c, i).world.mono - l.child.value.at >= REGISTRATION_TIMEOUT
  }

  predicate Charged(l: Loop, c: Settings, i: Input) {
    LostProcess(l, c, i) || ExitedEarly(l, c, i) || TimedOut(l, c, i)
  }

  function ReviewClock(l: Loop, c: Settings, i: Input): int {
    Polled(l, c, i).world.mono
  }

  /** The budget after the review, for every input: one charge for the three failures, none otherwise. */
  lemma {:induction false} ReviewBudget(l: Loop, c: Settings, i: Input)
    ensures ReviewWorker(l, c, i).workerBudget
            == if Charged(l, c, i) then Record(l.workerBudget, ReviewClock(l, c, i)) else l.workerBudget
  {
    var l2 := Polled(l, c, i);
    assert l2.child == l.child && l2.workerBudget == l.workerBudget;
    JudgeBudget(l2, c, i, RowRead(l, c, i), RowAlive(l, c, i));
  }

  lemma {:induction false} JudgeBudget(l: Loop, c: Settings, i: Input, worker: Option<Registration>, alive: bool)
    ensures Judge(l, c, i, worker, alive).workerBudget ==
            if (Active(worker) && !alive) || (!Active(worker) && !Graceful(l.world, worker, l.child) && HasExited(l))
               || (!Active(worker) && !alive && l.child.Some? && !HasExited(l) && l.world.mono - l.child.value.at >= REGISTRATION_TIMEOUT)
            then Record(l.workerBudget, l.world.mono) else l.workerBudget
  {
  }

  // ---- Worker launches on the timeline ----------------------------------------------------------

  predicate StartsWorker(e: Event) {
    e.Launched? && e.role == Worker
  }

  predicate StartsNoWorker(e: Event) {
    !StartsWorker(e)
  }

  function WorkerLaunches(log: seq<Event>): nat {
    if log == [] then 0 else WorkerLaunches(Init(log)) + if StartsWorker(Last(log)) then 1 else 0
  }

  lemma {:induction false} LaunchesSame(a: seq<Event>, b: seq<Event>)
    requires GrowsBy(a, b, StartsNoWorker)
    ensures WorkerLaunches(b) == WorkerLaunches(a)
    decreases |b|
  {
    if |b| == |a| {
      assert a == b;
    } else {
      assert a <= Init(b);
      LaunchesSame(a, Init(b));
    }
  }

  function WorkerStarts(l: Loop): nat {
    WorkerLaunches(l.world.store.log)
  }

  lemma {:induction false} LastCounts(a: seq<Event>, b: seq<Event>)
    requires a < b && StartsWorker(Last(b)) && forall k | |a| <= k < |b| - 1 :: !b[k].Launched?
    ensures WorkerLaunches(b) == WorkerLaunches(a) + 1
  {
    assert a <= Init(b);
    LaunchesSame(a, Init(b));
  }

  // ---- When a call launches -----------------------------------------------------------------------

  /** The tracked launcher is polled before its age is looked at. */
  function AgePolled(w: World, c: Settings, o: Oracle, child: Option<Child>): World {
    if child.None? then w else Poll(Yield(w, c, o, PreAgePoll), child.value.pid)
  }

  /** A running launcher that may still register. */
  predicate MayRegister(w: World, worker: Option<Registration>, child: Option<Child>) {
    && child.Some? && StillRuns(w, child.value.pid) && !Active(worker)
    && w.mono - child.value.at < REGISTRATION_TIMEOUT
  }

  /** The fence answers, and so does the requeue if there is anything to requeue. */
  predicate Recoverable(w: World, c: Settings, o: Oracle, r: Registration) {
    var w1, rows := Yield(w, c, o, PreFence), o.rows(FenceJobs);
    && o.mishap(FenceJobs) == Fine
    && (Reconcile(w1.store, c.worker, r.instance, false, rows, rows.order).1.fenced == [] || o.mishap(RequeueJobs) == Fine)
  }

  function Repaired(w: World, c: Settings, o: Oracle, worker: Option<Registration>): World {
    if Active(worker) then RecoverLost(w, c, o, worker.value).0 else w
  }

  /** The spawn works, under a process id nobody has. */
  predicate Spawnable(w: World, c: Settings, o: Oracle, child: Option<Child>) {
    o.mishap(SpawnChild) == Fine && o.newPid !in Yield(StopRunning(w, c, o, child), c, o, PreSpawn).procs
  }

  predicate MayReplace(w: World, c: Settings, o: Oracle, worker: Option<Registration>, child: Option<Child>) {
    var w1 := AgePolled(w, c, o, child);
    && !MayRegister(w1, worker, child) && (Active(worker) ==> Recoverable(w1, c, o, worker.value))
    && Spawnable(Repaired(w1, c, o, worker), c, o, child)
  }

  /** The guards on the way to a launch: the row reads, no process is found, and nothing stands against a replacement. */
  predicate MayLaunch(w: World, c: Settings, o: Oracle, child: Option<Child>) {
    var g := Assess(w, c, o, w.reg);
    o.mishap(ReadRow) == Fine && !g.process && MayReplace(g.world, c, o, w.reg, child)
  }

  lemma {:induction false} RecoverableExactly(w: World, c: Settings, o: Oracle, r: Registration)
    ensures RecoverLost(w, c, o, r).1 <==> Recoverable(w, c, o, r)
  {
  }

  lemma {:induction false} ReplaceCounts(w: World, c: Settings, o: Oracle, child: Option<Child>)
    requires Ledger(w.store)
    ensures WorkerLaunches(Replace(w, c, o, child).0.store.log)
            == WorkerLaunches(w.store.log) + if Spawnable(w, c, o, child) then 1 else 0
  {
    var a, b := w.store.log, Replace(w, c, o, child).0.store.log;
    ReplaceLaunchesLast(w, c, o, child);
    StopRunningCalm(w, c, o, child);
    YieldCalm(StopRunning(w, c, o, child), c, o, PreSpawn);
    if Spawnable(w, c, o, child) {
      LastCounts(a, b);
    } else {
      LaunchesSame(a, b);
    }
  }

  lemma {:induction false} RecoverCounts(w: World, c: Settings, o: Oracle, r: Registration, from: nat)
    requires Ledger(w.store) && AllBacked(w.store.log) && Begun(w.store.log, from, r)
    ensures var (w', ok) := RecoverLost(w, c, o, r);
            Ledger(w'.store) && WorkerLaunches(w'.store.log) == WorkerLaunches(w.store.log) && (ok <==> Recoverable(w, c, o, r))
  {
    RecoverLostBacked(w, c, o, r, from);
    RecoverableExactly(w, c, o, r);
    LaunchesSame(w.store.log, RecoverLost(w, c, o, r).0.store.log);
  }

  lemma {:induction false} NoUsableCounts(w: World, c: Settings, o: Oracle, worker: Option<Registration>, child: Option<Child>, from: nat)
    requires Ledger(w.store) && AllBacked(w.store.log)
    requires worker.Some? ==> Begun(w.store.log, from, worker.value)
    ensures WorkerLaunches(NoUsableWorker(w, c, o, worker, child).0.store.log)
            == WorkerLaunches(w.store.log) + if MayReplace(w, c, o, worker, child) then 1 else 0
  {
    AgePollCalm(w, c, o, child);
    var w1 := AgePolled(w, c, o, child);
    LaunchesSame(w.store.log, w1.store.log);
    if Active(worker) {
      CalmKeepsBacked(w.store.log, w1.store.log);
      RecoverCounts(w1, c, o, worker.value, from);
      ReplaceCounts(RecoverLost(w1, c, o, worker.value).0, c, o, child);
    } else {
      ReplaceCounts(w1, c, o, child);
    }
  }

  lemma {:induction false} UsableCounts(w: World, c: Settings, o: Oracle, r: Registration, child: Option<Child>, from: nat)
    requires Ledger(w.store) && AllBacked(w.store.log) && Begun(w.store.log, from, r)
    ensures WorkerLaunches(UsableWorker(w, c, o, r, child).0.store.log) == WorkerLaunches(w.store.log)
    ensures WorkerLaunches(StaleLoop(w, c, o, r, child).0.store.log) == WorkerLaunches(w.store.log)
  {
    UsableWorkerBacked(w, c, o, r, child, from);
    LaunchesSame(w.store.log, UsableWorker(w, c, o, r, child).0.store.log);
    StaleLoopBacked(w, c, o, r, child, from);
    LaunchesSame(w.store.log, StaleLoop(w, c, o, r, child).0.store.log);
  }

  /** Under any oracle: a call launches one worker exactly when the guards are open, and otherwise none. */
  lemma {:induction false} CallLaunchesExactly(w: World, c: Settings, o: Oracle, child: Option<Child>)
    requires Ledger(w.store) && AllBacked(w.store.log)
    ensures WorkerLaunches(SuperviseOnce.SuperviseOnce(w, c, o, child).0.store.log)
            == WorkerLaunches(w.store.log) + if MayLaunch(w, c, o, child) then 1 else 0
  {
    if o.mishap(ReadRow) == Fine {
      CallOpens(w, c, o);
      var g, from := Assess(w, c, o, w.reg), |w.store.log|;
      LaunchesSame(w.store.log, g.world.store.log);
      if !g.process {
        NoUsableCounts(g.world, c, o, w.reg, child, from);
      } else {
        UsableCounts(g.world, c, o, w.reg.value, child, from);
      }
    }
  }

  lemma {:induction false} CallCounts(l: Loop, c: Settings, i: Input)
    requires Safe(l.world) && !l.workerBudget.crashLoop
    ensures WorkerStarts(CallWorker(l, c, i)) == WorkerStarts(l) + if MayLaunch(l.world, c, i.call, l.child) then 1 else 0
  {
    CallLaunchesExactly(l.world, c, i.call, l.child);
    var w := SuperviseOnce.SuperviseOnce(l.world, c, i.call, l.child).0;
    LaunchesSame(w.store.log, w.store.log + [Failure(Worker, SpawnFailed)]);
  }

  lemma {:induction false} ReviewCounts(l: Loop, c: Settings, i: Input)
    ensures WorkerStarts(ReviewWorker(l, c, i)) == WorkerStarts(l)
  {
    ReviewWrites(l, c, i);
    LaunchesSame(l.world.store.log, ReviewWorker(l, c, i).world.store.log);
  }

  // ---- The worker part -----------------------------------------------------------------------------

  /** The state the call is made in, if it is made. */
  function AtCall(l: Loop, c: Settings, i: Input): Loop {
    BeforeCall(ReviewWorker(l, c, i), c, i)
  }

  /** The review leaves the role in crash loop. */
  predicate Barred(l: Loop, c: Settings, i: Input) {
    if Charged(l, c, i) then Record(l.workerBudget, ReviewClock(l, c, i)).crashLoop else l.workerBudget.crashLoop
  }

  /** This worker part launches: the row is read, the role is not barred, and the call's guards are open. */
  predicate PartLaunches(l: Loop, c: Settings, i: Input) {
    i.rowReads && !Barred(l, c, i) && MayLaunch(AtCall(l, c, i).world, c, i.call, AtCall(l, c, i).child)
  }

  lemma {:induction false} BeforeCallCounts(l: Loop, c: Settings, i: Input)
    ensures WorkerStarts(BeforeCall(l, c, i)) == WorkerStarts(l) && BeforeCall(l, c, i).workerBudget == l.workerBudget
  {
    EnvKeeps(l.world, c, i.env(PreCall));
    LaunchesSame(l.world.store.log, Move(l, c, i, PreCall).world.store.log);
  }

  lemma {:induction false} ReviewBars(l: Loop, c: Settings, i: Input)
    ensures ReviewWorker(l, c, i).workerBudget.crashLoop == Barred(l, c, i)
  {
    ReviewBudget(l, c, i);
  }

  /** For every state: the worker part launches one worker exactly under its guards. */
  lemma {:induction false} PartCounts(l: Loop, c: Settings, i: Input)
    requires Safe(l.world)
    ensures WorkerStarts(WorkerPart(l, c, i)) == WorkerStarts(l) + if PartLaunches(l, c, i) then 1 else 0
  {
    if i.rowReads {
      var l1 := ReviewWorker(l, c, i);
      ReviewCounts(l, c, i);
      ReviewBars(l, c, i);
      BeforeCallCounts(l1, c, i);
      assert Safe(BeforeCall(l1, c, i).world) by {
        ReviewKeeps(l.world.store, l, c, i);
        BeforeCallKeeps(l.world.store, l1, c, i);
      }
      if !l1.workerBudget.crashLoop {
        CallCounts(BeforeCall(l1, c, i), c, i);
      }
    }
  }

  /** The charge of this review leaves the crash loop. */
  predicate Leaves(l: Loop, c: Settings, i: Input) {
    i.rowReads && Charged(l, c, i) && !Record(l.workerBudget, ReviewClock(l, c, i)).crashLoop
  }

  /** In crash loop the worker part is the review alone, unless the review's charge leaves the crash loop. */
  lemma {:induction false} LoopingPart(l: Loop, c: Settings, i: Input)
    requires l.workerBudget.crashLoop
    ensures var l1, l' := ReviewWorker(l, c, i), WorkerPart(l, c, i);
            && (i.rowReads && !Leaves(l, c, i) ==> l' == l1)
            && (!Leaves(l, c, i) ==> l'.workerBudget.crashLoop)
            && (Leaves(l, c, i) ==> l' == CallWorker(AtCall(l, c, i), c, i) && !l1.workerBudget.crashLoop)
            && (PartLaunches(l, c, i) <==> Leaves(l, c, i) && MayLaunch(AtCall(l, c, i).world, c, i.call, AtCall(l, c, i).child))
  {
    ReviewBars(l, c, i);
  }

  // ---- Iterations and runs -----------------------------------------------------------------------

  /** The state in which an owned iteration turns to the worker. */
  function AtWorker(l: Loop, c: Settings, i: Input): Loop {
    WebPart(AtWeb(l, c, i), c, i)
  }

  ghost predicate SameWorker(a: Loop, b: Loop) {
    a.workerBudget == b.workerBudget && WorkerStarts(a) == WorkerStarts(b)
  }

  lemma {:induction false} ShutdownSameWorker(l: Loop, c: Settings, i: Input)
    requires Safe(l.world)
    ensures SameWorker(l, Shutdown(l, c, i))
  {
    ShutdownWrites(l, c, i);
    LaunchesSame(l.world.store.log, Shutdown(l, c, i).world.store.log);
  }

  lemma {:induction false} AnswerSameWorker(l: Loop, c: Settings, i: Input, owned: bool)
    ensures SameWorker(l, Move(l, c, i, PreCycle)) && SameWorker(l, Answer(Move(l, c, i, PreCycle), owned))
  {
    EnvKeeps(l.world, c, i.env(PreCycle));
    LaunchesSame(l.world.store.log, Move(l, c, i, PreCycle).world.store.log);
    LaunchesSame(l.world.store.log, Answer(Move(l, c, i, PreCycle), owned).world.store.log);
  }

  lemma {:induction false} WebPartSameWorker(l: Loop, c: Settings, i: Input)
    ensures SameWorker(l, WebPart(l, c, i))
  {
    var l1 := ReapWeb(l, c, i);
    ReapWrites(l, c, i);
    EnsureWrites(l1, c, i);
    LaunchesSame(l.world.store.log, l1.world.store.log);
    LaunchesSame(l1.world.store.log, EnsureWeb(l1, c, i).world.store.log);
    WebPartLeavesWorker(l, c, i);
  }

  lemma {:induction false} AtWorkerSame(l: Loop, c: Settings, i: Input)
    requires Safe(l.world)
    ensures SameWorker(l, AtWorker(l, c, i)) && Safe(AtWorker(l, c, i).world)
  {
    AnswerSameWorker(l, c, i, true);
    WebPartSameWorker(AtWeb(l, c, i), c, i);
    AtWebSafe(l, c, i);
    WebPartSafe(AtWeb(l, c, i), c, i);
  }

  lemma {:induction false} UnownedSameWorker(l: Loop, c: Settings, i: Input)
    requires Safe(l.world) && !l.owns
    ensures SameWorker(l, Decide(l, c, i))
  {
    ShutdownSameWorker(l, c, i);
  }

  lemma {:induction false} IdleSameWorker(l: Loop, c: Settings, i: Input)
    requires Safe(l.world) && !Supervises(l, i)
    ensures SameWorker(l, Cycle(l, c, i))
  {
    if !l.done {
      var l0 := Move(l, c, i, PreCycle);
      MoveSafe(l, c, i, PreCycle);
      AnswerSameWorker(l, c, i, false);
      if i.stop {
        ShutdownSameWorker(l0, c, i);
      } else if i.check.Checked? {
        AnswerSafe(l0.world, false);
        UnownedSameWorker(Answer(l0, false), c, i);
      }
    }
  }

  lemma {:induction false} SupervisedCycle(l: Loop, c: Settings, i: Input)
    requires Supervises(l, i)
    ensures Cycle(l, c, i) == WorkerPart(AtWorker(l, c, i), c, i)
  {
  }

  predicate Escapes(l: Loop, c: Settings, i: Input) {
    Supervises(l, i) && Leaves(AtWorker(l, c, i), c, i)
  }

  /** The guards of a launch in this iteration. */
  predicate LaunchesNow(l: Loop, c: Settings, i: Input) {
    Supervises(l, i) && PartLaunches(AtWorker(l, c, i), c, i)
  }

  /** For every state: an iteration launches one worker exactly under its guards. */
  lemma {:induction false} CycleCounts(l: Loop, c: Settings, i: Input)
    requires Safe(l.world)
    ensures WorkerStarts(Cycle(l, c, i)) == WorkerStarts(l) + if LaunchesNow(l, c, i) then 1 else 0
  {
    if Supervises(l, i) {
      AtWorkerSame(l, c, i);
      PartCounts(AtWorker(l, c, i), c, i);
      SupervisedCycle(l, c, i);
    } else {
      IdleSameWorker(l, c, i);
    }
  }

  function LaunchesIn(l: Loop, c: Settings, inputs: seq<Input>): nat {
    if inputs == [] then 0 else
      LaunchesIn(l, c, Init(inputs)) + if LaunchesNow(Run(l, c, Init(inputs)), c, Last(inputs)) then 1 else 0
  }

  /** Over every run: as many worker launches as iterations whose guards were open. */
  lemma {:induction false} RunCounts(l: Loop, c: Settings, inputs: seq<Input>)
    requires Safe(l.world)
    ensures WorkerStarts(Run(l, c, inputs)) == WorkerStarts(l) + LaunchesIn(l, c, inputs)
  {
    if inputs != [] {
      RunCounts(l, c, Init(inputs));
      assert Safe(Run(l, c, Init(inputs)).world) by {
        RunKeeps(l, c, Init(inputs));
      }
      CycleCounts(Run(l, c, Init(inputs)), c, Last(inputs));
    }
  }

  /**
   In crash loop, an iteration launches a worker if and only if one of the three failures is charged,
   that charge leaves the crash loop, and the guards of the call are open.
   */
  lemma {:induction false} LoopingCycle(l: Loop, c: Settings, i: Input)
    requires Safe(l.world) && l.workerBudget.crashLoop
    ensures var l', m := Cycle(l, c, i), AtCall(AtWorker(l, c, i), c, i);
            && WorkerStarts(l') == WorkerStarts(l) + (if Escapes(l, c, i) && MayLaunch(m.world, c, i.call, m.child) then 1 else 0)
            && (!Escapes(l, c, i) ==> l'.workerBudget.crashLoop)
  {
    CycleCounts(l, c, i);
    if Supervises(l, i) {
      AtWorkerSame(l, c, i);
      LoopingPart(AtWorker(l, c, i), c, i);
      SupervisedCycle(l, c, i);
    } else {
      IdleSameWorker(l, c, i);
    }
  }

  function EscapesIn(l: Loop, c: Settings, inputs: seq<Input>): nat {
    if inputs == [] then 0 else
      EscapesIn(l, c, Init(inputs)) + if Escapes(Run(l, c, Init(inputs)), c, Last(inputs)) then 1 else 0
  }

  /** A run without an escape stays in crash loop and launches no worker. */
  lemma {:induction false} LoopingRun(l: Loop, c: Settings, inputs: seq<Input>)
    requires Safe(l.world) && l.workerBudget.crashLoop && EscapesIn(l, c, inputs) == 0
    ensures var l' := Run(l, c, inputs); l'.workerBudget.crashLoop && WorkerStarts(l') == WorkerStarts(l)
  {
    if inputs != [] {
      LoopingRun(l, c, Init(inputs));
      assert Safe(Run(l, c, Init(inputs)).world) by {
        RunKeeps(l, c, Init(inputs));
      }
      LoopingCycle(Run(l, c, Init(inputs)), c, Last(inputs));
    }
  }

  /**
   From a crash loop, over every run: worker launches are the iterations whose guards were open, and the first
   of them comes with or after an escape.
   */
  lemma {:induction false} RelaunchExactly(l: Loop, c: Settings, inputs: seq<Input>)
    requires Safe(l.world) && l.workerBudget.crashLoop
    ensures WorkerStarts(Run(l, c, inputs)) > WorkerStarts(l) <==> LaunchesIn(l, c, inputs) > 0
    ensures LaunchesIn(l, c, inputs) > 0 ==> EscapesIn(l, c, inputs) > 0
  {
    RunCounts(l, c, inputs);
    if EscapesIn(l, c, inputs) == 0 {
      LoopingRun(l, c, inputs);
    }
  }
}
