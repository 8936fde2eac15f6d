/** What each part of an iteration of `main` may leave on the timeline. */
module LoopTimeline {
  import opened Common
  import opened Timeline
  import opened JobTable
  import opened Runtime
  import opened SuperviseOnce
  import opened CallSafety
  import opened RecoverySafety
  import opened Recycling
  import opened SupervisorLoop
  import opened LoopSafety

  /** The web part: reaping and starting the web child. */
  predicate WebEvent(e: Event) {
    Outside(e) || e.ExitSeen? || (e.Failure? && e.role == Web) || (e.Launched? && e.role == Web)
  }

  /** The review of the worker's launcher: nothing is started. */
  predicate ReviewEvent(e: Event) {
    Outside(e) || e.ExitSeen? || e.KillLauncher? || (e.Failure? && e.role == Worker)
  }

  /** The worker part: the review, the call, and the charge for a raising call. */
  predicate WorkerEvent(e: Event) {
    ReviewEvent(e) || CallEvent(e)
  }

  /** The shutdown: nothing is started. */
  predicate ShutEvent(e: Event) {
    Handling(e) || Repairing(e) || e.Read? || e.Closing?
  }

  lemma {:induction false} ReapWrites(l: Loop, c: Settings, i: Input)
    ensures GrowsBy(l.world.store.log, ReapWeb(l, c, i).world.store.log, WebEvent)
  {
    EnvKeeps(l.world, c, i.env(PreWeb));
  }

  lemma {:induction false} EnsureWrites(l: Loop, c: Settings, i: Input)
    ensures GrowsBy(l.world.store.log, EnsureWeb(l, c, i).world.store.log, WebEvent)
  {
    EnvKeeps(l.world, c, i.env(BetweenPolls));
  }

  lemma {:induction false} JudgeWrites(l: Loop, c: Settings, i: Input, worker: Option<Registration>, alive: bool)
    ensures GrowsBy(l.world.store.log, Judge(l, c, i, worker, alive).world.store.log, ReviewEvent)
  {
    if l.child.Some? && !HasExited(l) {
      TimeoutWrites(ChargeWorker(l, RegistrationTimeout).world, c, i.review, l.child.value.pid);
      GrowsTrans(l.world.store.log, ChargeWorker(l, RegistrationTimeout).world.store.log,
                 TerminateLauncher(ChargeWorker(l, RegistrationTimeout).world, c, i.review, l.child.value.pid).store.log, ReviewEvent);
    }
  }

  lemma {:induction false} TimeoutWrites(w: World, c: Settings, o: Oracle, pid: int)
    ensures GrowsBy(w.store.log, TerminateLauncher(w, c, o, pid).store.log, ReviewEvent)
  {
    YieldHandles(w, c, o, PreSignal);
  }

  lemma {:induction false} ReviewWrites(l: Loop, c: Settings, i: Input)
    ensures GrowsBy(l.world.store.log, ReviewWorker(l, c, i).world.store.log, ReviewEvent)
  {
    var l1 := Move(l, c, i, PreRow);
    EnvKeeps(l.world, c, i.env(PreRow));
    EnvKeeps(l1.world, c, i.env(PostRow));
    var l2 := PollChild(Move(l1, c, i, PostRow));
    JudgeWrites(l2, c, i, l1.world.reg, ProcessAlive(l2.world, c, l1.world.reg));
  }

  lemma {:induction false} CallWorkerWrites(l: Loop, c: Settings, i: Input)
    requires Ledger(l.world.store)
    ensures GrowsBy(l.world.store.log, CallWorker(l, c, i).world.store.log, WorkerEvent)
  {
    CallWrites(l.world, c, i.call, l.child);
  }

  lemma {:induction false} WorkerPartWrites(l: Loop, c: Settings, i: Input)
    requires Safe(l.world)
    ensures GrowsBy(l.world.store.log, WorkerPart(l, c, i).world.store.log, WorkerEvent)
  {
    if i.rowReads {
      var l1 := ReviewWorker(l, c, i);
      ReviewWrites(l, c, i);
      ReviewKeeps(l.world.store, l, c, i);
      EnvKeeps(l1.world, c, i.env(PreCall));
      CallWorkerWrites(BeforeCall(l1, c, i), c, i);
    }
  }

  lemma {:induction false} StopWorkerWrites(w: World, c: Settings, o: Oracle, child: Option<Child>)
    requires Ledger(w.store)
    ensures GrowsBy(w.store.log, StopWorker(w, c, o, child).store.log, ShutEvent)
  {
    if o.mishap(ReadRow) == Fine {
      var w0 := Emit(Emit(w, Read(w.reg)), Closing);
      NoteKeeps(w.store, Read(w.reg));
      NoteKeeps(Note(w.store, Read(w.reg)), Closing);
      YieldHandles(w0, c, o, PostRead);
      YieldCalm(w0, c, o, PostRead);
      var w1 := Yield(w0, c, o, PostRead);
      if ProcessAlive(w1, c, w.reg) {
        TerminateInstanceHandles(w1, c, o, w.reg.value, child);
        TerminateInstanceCalm(w1, c, o, w.reg.value, child);
        RecoverLostRecords(TerminateInstance(w1, c, o, w.reg.value, child), c, o, w.reg.value);
      } else if child.Some? {
        TerminateLauncherHandles(w1, c, o, child.value.pid);
      }
    }
  }

  lemma {:induction false} ShutdownWrites(l: Loop, c: Settings, i: Input)
    requires Ledger(l.world.store)
    ensures GrowsBy(l.world.store.log, Shutdown(l, c, i).world.store.log, ShutEvent)
  {
    if l.owns {
      EnvKeeps(l.world, c, i.env(PreShutdown));
      var w := Env(l.world, c, i.env(PreShutdown));
      StopWebWrites(w, c, i.review, l.web);
      StopWorkerWrites(StopWeb(w, c, i.review, l.web), c, i.call, l.child);
    }
  }

  lemma {:induction false} StopWebWrites(w: World, c: Settings, o: Oracle, web: Option<Child>)
    requires Ledger(w.store)
    ensures GrowsBy(w.store.log, StopWeb(w, c, o, web).store.log, ShutEvent) && Ledger(StopWeb(w, c, o, web).store)
  {
    YieldHandles(w, c, o, PreSignal);
    YieldCalm(w, c, o, PreSignal);
    if web.Some? {
      TerminateLauncherHandles(w, c, o, web.value.pid);
      TerminateLauncherCalm(w, c, o, web.value.pid);
    }
  }

  // ---- What each part leaves alone -------------------------------------------------------------

  lemma {:induction false} JudgeLeavesWeb(l: Loop, c: Settings, i: Input, worker: Option<Registration>, alive: bool)
    ensures var l' := Judge(l, c, i, worker, alive); l'.web == l.web && l'.webBudget == l.webBudget && l'.done == l.done && l'.owns == l.owns && l'.deadline == l.deadline
  {
  }

  lemma {:induction false} WorkerPartLeavesWeb(l: Loop, c: Settings, i: Input)
    ensures var l' := WorkerPart(l, c, i); l'.web == l.web && l'.webBudget == l.webBudget && l'.done == l.done && l'.owns == l.owns && l'.deadline == l.deadline
  {
    ReviewLeavesWeb(l, c, i);
    CallLeavesWeb(ReviewWorker(l, c, i), c, i);
  }

  lemma {:induction false} ReviewLeavesWeb(l: Loop, c: Settings, i: Input)
    ensures var l' := ReviewWorker(l, c, i); l'.web == l.web && l'.webBudget == l.webBudget && l'.done == l.done && l'.owns == l.owns && l'.deadline == l.deadline
  {
    var l1 := Move(l, c, i, PreRow);
    var l2 := PollChild(Move(l1, c, i, PostRow));
    JudgeLeavesWeb(l2, c, i, l1.world.reg, ProcessAlive(l2.world, c, l1.world.reg));
  }

  lemma {:induction false} CallLeavesWeb(l: Loop, c: Settings, i: Input)
    ensures var l' := CallWorker(BeforeCall(l, c, i), c, i);
            l'.web == l.web && l'.webBudget == l.webBudget && l'.done == l.done && l'.owns == l.owns && l'.deadline == l.deadline
  {
  }

  lemma {:induction false} WebPartLeavesWorker(l: Loop, c: Settings, i: Input)
    ensures var l' := EnsureWeb(ReapWeb(l, c, i), c, i);
            l'.child == l.child && l'.workerBudget == l.workerBudget && l'.done == l.done && l'.owns == l.owns
  {
    var l1 := ReapWeb(l, c, i);
    assert l1.child == l.child && l1.workerBudget == l.workerBudget && l1.done == l.done && l1.owns == l.owns;
  }

  lemma {:induction false} WebPartSafe(l: Loop, c: Settings, i: Input)
    requires Safe(l.world)
    ensures Safe(EnsureWeb(ReapWeb(l, c, i), c, i).world)
  {
    ReapKeeps(l.world.store, l, c, i);
    EnsureKeeps(l.world.store, ReapWeb(l, c, i), c, i);
  }

  lemma {:induction false} MoveSafe(l: Loop, c: Settings, i: Input, at: LoopPoint)
    requires Safe(l.world)
    ensures Safe(Move(l, c, i, at).world)
  {
    EnvPlain(l.world.store, l.world, c, i.env(at));
  }

  lemma {:induction false} AnswerSafe(w: World, owned: bool)
    requires Safe(w)
    ensures Safe(Emit(w, Ownership(owned)))
  {
    EmitPlain(w.store, w, Ownership(owned));
  }

  /** The state in which an owned iteration turns to the web child. */
  function AtWeb(l: Loop, c: Settings, i: Input): Loop {
    Answer(Move(l, c, i, PreCycle), true)
  }

  /** This iteration supervises: it is not stopped and the ownership check says yes. */
  predicate Supervises(l: Loop, i: Input) {
    !l.done && !i.stop && i.check == Checked(true)
  }

  lemma {:induction false} AtWebSafe(l: Loop, c: Settings, i: Input)
    requires Safe(l.world)
    ensures Safe(AtWeb(l, c, i).world)
  {
    MoveSafe(l, c, i, PreCycle);
    AnswerSafe(Move(l, c, i, PreCycle).world, true);
  }
}
