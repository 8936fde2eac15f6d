/** The recorded failures follow the monotonic clock, so that leaving a crash loop is a comparison of times. */
module RestartClocks {
  import opened Common
  import opened Timeline
  import opened JobTable
  import opened Runtime
  import opened SuperviseOnce
  import opened CallSafety
  import opened RecoverySafety
  import opened RestartBudget
  import opened SupervisorLoop
  import opened LoopSafety
  import opened LoopTimeline
  import opened WebRestarts
  import WebCrashLoop
  import WorkerRestarts

  /** The remembered failures are in order and not later than `now`. */
  ghost predicate InClock(b: Budget, now: int) {
    Nondecreasing(b.failures) && forall t | t in b.failures :: t <= now
  }

  lemma {:induction false} RecentOrdered(times: seq<int>, now: int, window: nat)
    requires Nondecreasing(times)
    ensures Nondecreasing(Recent(times, now, window))
  {
    if times != [] {
      var kept, last := Recent(Init(times), now, window), Last(times);
      RecentOrdered(Init(times), now, window);
      RecentSubset(Init(times), now, window);
      assert forall t | t in kept :: t <= last;
      assert forall k | 0 <= k < |kept| :: kept[k] in kept;
    }
  }

  lemma {:induction false} RecordInClock(b: Budget, now: int)
    requires InClock(b, now)
    ensures InClock(Record(b, now), now)
  {
    var kept := Recent(b.failures, now, b.window);
    RecentOrdered(b.failures, now, b.window);
    RecentSubset(b.failures, now, b.window);
    assert forall k | 0 <= k < |kept| :: kept[k] in kept;
  }

  /** A loop that has ended records nothing more. */
  ghost predicate Clocked(l: Loop) {
    l.done || (InClock(l.webBudget, l.world.mono) && InClock(l.workerBudget, l.world.mono))
  }

  lemma {:induction false} MoveClocked(l: Loop, c: Settings, i: Input, at: LoopPoint)
    requires Clocked(l)
    ensures Clocked(Move(l, c, i, at)) && Move(l, c, i, at).world.mono >= l.world.mono
  {
    EnvKeeps(l.world, c, i.env(at));
  }

  lemma {:induction false} WebPartClocked(l: Loop, c: Settings, i: Input)
    requires Clocked(l)
    ensures Clocked(WebPart(l, c, i))
  {
    MoveClocked(l, c, i, PreWeb);
    RecordInClockIf(Move(l, c, i, PreWeb), Move(l, c, i, PreWeb).webBudget);
    var l1 := ReapWeb(l, c, i);
    assert Clocked(l1);
    MoveClocked(l1, c, i, BetweenPolls);
    RecordInClockIf(Move(l1, c, i, BetweenPolls), l1.webBudget);
  }

  lemma {:induction false} RecordInClockIf(l: Loop, b: Budget)
    ensures InClock(b, l.world.mono) ==> InClock(Record(b, l.world.mono), l.world.mono)
  {
    if InClock(b, l.world.mono) {
      RecordInClock(b, l.world.mono);
    }
  }

  lemma {:induction false} JudgeClocked(l: Loop, c: Settings, i: Input, worker: Option<Registration>, alive: bool)
    requires Clocked(l) && Ledger(l.world.store)
    ensures Clocked(Judge(l, c, i, worker, alive))
  {
    RecordInClockIf(l, l.workerBudget);
    if l.child.Some? {
      NoteKeeps(l.world.store, Failure(Worker, RegistrationTimeout));
      TerminateLauncherCalm(ChargeWorker(l, RegistrationTimeout).world, c, i.review, l.child.value.pid);
    }
  }

  lemma {:induction false} ReviewClocked(l: Loop, c: Settings, i: Input)
    requires Clocked(l) && Safe(l.world)
    ensures Clocked(ReviewWorker(l, c, i))
  {
    var l1 := Move(l, c, i, PreRow);
    MoveClocked(l, c, i, PreRow);
    MoveSafe(l, c, i, PreRow);
    MoveClocked(l1, c, i, PostRow);
    MoveSafe(l1, c, i, PostRow);
    PollChildKeeps(Move(l1, c, i, PostRow).world.store, Move(l1, c, i, PostRow));
    var l2 := PollChild(Move(l1, c, i, PostRow));
    JudgeClocked(l2, c, i, l1.world.reg, ProcessAlive(l2.world, c, l1.world.reg));
  }

  lemma {:induction false} CallClocked(l: Loop, c: Settings, i: Input)
    requires Clocked(l) && Safe(l.world)
    ensures Clocked(CallWorker(l, c, i))
  {
    CallBacked(l.world, c, i.call, l.child);
    var w := SuperviseOnce.SuperviseOnce(l.world, c, i.call, l.child).0;
    RecordInClockIf(l.(world := w), l.workerBudget);
  }

  lemma {:induction false} WorkerPartClocked(l: Loop, c: Settings, i: Input)
    requires Clocked(l) && Safe(l.world)
    ensures Clocked(WorkerPart(l, c, i))
  {
    if i.rowReads {
      ReviewClocked(l, c, i);
      var l1 := ReviewWorker(l, c, i);
      ReviewKeeps(l.world.store, l, c, i);
      MoveClocked(l1, c, i, PreCall);
      BeforeCallKeeps(l.world.store, l1, c, i);
      CallClocked(BeforeCall(l1, c, i), c, i);
    }
  }

  lemma {:induction false} CycleClocked(l: Loop, c: Settings, i: Input)
    requires Clocked(l) && Safe(l.world)
    ensures Clocked(Cycle(l, c, i))
  {
    if Supervises(l, i) {
      MoveClocked(l, c, i, PreCycle);
      AtWebSafe(l, c, i);
      var m := AtWeb(l, c, i);
      WebPartClocked(m, c, i);
      WebPartSafe(m, c, i);
      WorkerPartClocked(WebPart(m, c, i), c, i);
      WorkerRestarts.SupervisedCycle(l, c, i);
    } else if !l.done {
      MoveClocked(l, c, i, PreCycle);
    }
  }

  lemma {:induction false} RunClocked(l: Loop, c: Settings, inputs: seq<Input>)
    requires Clocked(l) && Safe(l.world)
    ensures Clocked(Run(l, c, inputs))
  {
    if inputs != [] {
      RunClocked(l, c, Init(inputs));
      assert Safe(Run(l, c, Init(inputs)).world) by {
        RunKeeps(l, c, Init(inputs));
      }
      CycleClocked(Run(l, c, Init(inputs)), c, Last(inputs));
    }
  }

  // ---- Leaving a crash loop, in times -----------------------------------------------------------

  /** The failure that must still be recent for another charge at `now` to keep the crash loop. */
  predicate AgedOut(b: Budget, now: int) {
    b.limit >= 2 && (|b.failures| < b.limit - 1 || now - b.failures[|b.failures| - (b.limit - 1)] > b.window)
  }

  /** In every state of a run, the web crash loop is left exactly by a late enough exit of a tracked child. */
  lemma {:induction false} WebEscapesExactly(l: Loop, c: Settings, i: Input)
    requires Clocked(l)
    ensures WebCrashLoop.Escapes(l, c, i) <==>
            && Supervises(l, i) && FirstPollExited(AtWeb(l, c, i), c, i)
            && AgedOut(l.webBudget, WebCrashLoop.PollClock(l, c, i))
  {
    if Supervises(l, i) {
      MoveClocked(l, c, i, PreCycle);
      MoveClocked(AtWeb(l, c, i), c, i, PreWeb);
      LeavesCrashLoop(l.webBudget, WebCrashLoop.PollClock(l, c, i));
    }
  }

  /** In every state of a run, the worker crash loop is left exactly by a late enough charged review. */
  lemma {:induction false} WorkerEscapesExactly(l: Loop, c: Settings, i: Input)
    requires Clocked(l)
    ensures var m := WorkerRestarts.AtWorker(l, c, i);
            WorkerRestarts.Escapes(l, c, i) <==>
            && Supervises(l, i) && i.rowReads && WorkerRestarts.Charged(m, c, i)
            && AgedOut(l.workerBudget, WorkerRestarts.ReviewClock(m, c, i))
  {
    if Supervises(l, i) {
      MoveClocked(l, c, i, PreCycle);
      var m := WorkerRestarts.AtWorker(l, c, i);
      WebPartClocked(AtWeb(l, c, i), c, i);
      WebPartLeavesWorker(AtWeb(l, c, i), c, i);
      MoveClocked(m, c, i, PreRow);
      MoveClocked(Move(m, c, i, PreRow), c, i, PostRow);
      LeavesCrashLoop(l.workerBudget, WorkerRestarts.ReviewClock(m, c, i));
    }
  }
}
