/** What every run of the supervisor keeps, whatever the inputs and the steps in between. */
module LoopSafety {
  import opened Common
  import opened Timeline
  import opened JobTable
  import opened Runtime
  import opened SuperviseOnce
  import opened CallSafety
  import opened RecoverySafety
  import opened StrandedJobs
  import opened Recycling
  import opened RestartBudget
  import opened SupervisorLoop

  /** Every ending happened once, every recovery is fenced, every recycling is justified. */
  ghost predicate Safe(w: World) {
    Ledger(w.store) && AllBacked(w.store.log) && Justified(w.store.log)
  }

  /** Events of the loop itself: no recovery, no read of a call, no signal to a registered process. */
  predicate Plain(e: Event) {
    Outside(e) || e.ExitSeen? || e.KillLauncher? || e.Launched? || e.Failure? || e.Ownership?
  }

  lemma {:induction false} PlainKeeps(a: World, b: World)
    requires Safe(a) && Ledger(b.store) && GrowsBy(a.store.log, b.store.log, Plain)
    ensures Safe(b)
  {
    CalmKeepsBacked(a.store.log, b.store.log);
    Extend(a.store.log, b.store.log);
  }

  /** Safe, and no job that was parked in `s` has been requeued. */
  ghost predicate Keeps(s: Store, w: World) {
    Safe(w) && StaysParked(s, w.store)
  }

  lemma {:induction false} EnvPlain(s: Store, w: World, c: Settings, steps: seq<Step>)
    requires Keeps(s, w)
    ensures Keeps(s, Env(w, c, steps))
  {
    EnvKeeps(w, c, steps);
    PlainKeeps(w, Env(w, c, steps));
  }

  lemma {:induction false} EmitPlain(s: Store, w: World, e: Event)
    requires Keeps(s, w) && Plain(e) && !IsJobEvent(e)
    ensures Keeps(s, Emit(w, e))
  {
    NoteKeeps(w.store, e);
    PlainKeeps(w, Emit(w, e));
  }

  lemma {:induction false} StopPlain(s: Store, w: World, c: Settings, o: Oracle, pid: int)
    requires Keeps(s, w)
    ensures Keeps(s, TerminateLauncher(w, c, o, pid))
  {
    TerminateLauncherCalm(w, c, o, pid);
    TerminateLauncherHandles(w, c, o, pid);
    YieldHandles(w, c, o, PreSignal);
    PlainKeeps(w, TerminateLauncher(w, c, o, pid));
  }

  lemma {:induction false} ReapKeeps(s: Store, l: Loop, c: Settings, i: Input)
    requires Keeps(s, l.world)
    ensures Keeps(s, ReapWeb(l, c, i).world)
  {
    EnvPlain(s, l.world, c, i.env(PreWeb));
    var w := Env(l.world, c, i.env(PreWeb));
    if l.web.Some? {
      EmitPlain(s, w, ExitSeen(l.web.value.pid));
      EmitPlain(s, Emit(w, ExitSeen(l.web.value.pid)), Failure(Web, ChildExited));
    }
  }

  lemma {:induction false} EnsureKeeps(s: Store, l: Loop, c: Settings, i: Input)
    requires Keeps(s, l.world)
    ensures Keeps(s, EnsureWeb(l, c, i).world)
  {
    EnvPlain(s, l.world, c, i.env(BetweenPolls));
    var w := Env(l.world, c, i.env(BetweenPolls));
    EmitPlain(s, w, Failure(Web, SpawnFailed));
    EmitPlain(s, w, Launched(Web, i.webPid));
  }

  lemma {:induction false} PollChildKeeps(s: Store, l: Loop)
    requires Keeps(s, l.world)
    ensures Keeps(s, PollChild(l).world)
  {
    if HasExited(l) {
      EmitPlain(s, l.world, ExitSeen(l.child.value.pid));
    }
  }

  lemma {:induction false} TimeoutKeeps(s: Store, l: Loop, c: Settings, i: Input, pid: int)
    requires Keeps(s, l.world)
    ensures Keeps(s, TerminateLauncher(ChargeWorker(l, RegistrationTimeout).world, c, i.review, pid))
  {
    EmitPlain(s, l.world, Failure(Worker, RegistrationTimeout));
    StopPlain(s, Emit(l.world, Failure(Worker, RegistrationTimeout)), c, i.review, pid);
  }

  lemma {:induction false} JudgeKeeps(s: Store, l: Loop, c: Settings, i: Input, worker: Option<Registration>, alive: bool)
    requires Keeps(s, l.world)
    ensures Keeps(s, Judge(l, c, i, worker, alive).world)
  {
    if Active(worker) && !alive {
      EmitPlain(s, l.world, Failure(Worker, ProcessLost));
    } else if HasExited(l) {
      EmitPlain(s, l.world, Failure(Worker, BeforeRegistration));
    } else if l.child.Some? {
      TimeoutKeeps(s, l, c, i, l.child.value.pid);
    }
  }

  lemma {:induction false} ReviewKeeps(s: Store, l: Loop, c: Settings, i: Input)
    requires Keeps(s, l.world)
    ensures Keeps(s, ReviewWorker(l, c, i).world)
  {
    EnvPlain(s, l.world, c, i.env(PreRow));
    var l1 := Move(l, c, i, PreRow);
    EnvPlain(s, l1.world, c, i.env(PostRow));
    PollChildKeeps(s, Move(l1, c, i, PostRow));
    var l2 := PollChild(Move(l1, c, i, PostRow));
    JudgeKeeps(s, l2, c, i, l1.world.reg, ProcessAlive(l2.world, c, l1.world.reg));
  }

  lemma {:induction false} BeforeCallKeeps(s: Store, l: Loop, c: Settings, i: Input)
    requires Keeps(s, l.world)
    ensures Keeps(s, BeforeCall(l, c, i).world)
  {
    EnvPlain(s, l.world, c, i.env(PreCall));
  }

  lemma {:induction false} CallKeeps(s: Store, l: Loop, c: Settings, i: Input)
    requires Keeps(s, l.world)
    ensures Keeps(s, CallWorker(l, c, i).world)
  {
    CallBacked(l.world, c, i.call, l.child);
    CallJustified(l.world, c, i.call, l.child);
    CallStrands(l.world, c, i.call, l.child);
    var w := SuperviseOnce.SuperviseOnce(l.world, c, i.call, l.child).0;
    EmitPlain(s, w, Failure(Worker, SpawnFailed));
  }

  /** The shutdown reads the row, marks that it is closing, and lets the world move on. */
  lemma {:induction false} ClosingKeeps(s: Store, w: World, c: Settings, o: Oracle)
    requires Keeps(s, w)
    ensures var from, w1 := |w.store.log|, Yield(Emit(Emit(w, Read(w.reg)), Closing), c, o, PostRead);
            && Keeps(s, w1) && from + 1 < |w1.store.log|
            && w1.store.log[from] == Read(w.reg) && w1.store.log[from + 1] == Closing
            && forall k | from < k < |w1.store.log| :: !w1.store.log[k].Assessed? && !w1.store.log[k].Read?
  {
    var w0 := Emit(Emit(w, Read(w.reg)), Closing);
    NoteKeeps(w.store, Read(w.reg));
    NoteKeeps(Note(w.store, Read(w.reg)), Closing);
    YieldCalm(w0, c, o, PostRead);
    YieldHandles(w0, c, o, PostRead);
    var w1 := Yield(w0, c, o, PostRead);
    CalmKeepsBacked(w.store.log, w1.store.log);
    Extend(w.store.log, w1.store.log);
  }

  /** The shutdown's own fence, retirement and requeue are backed and justified like a call's. */
  lemma {:induction false} StopWorkerKeeps(s: Store, w: World, c: Settings, o: Oracle, child: Option<Child>)
    requires Keeps(s, w)
    ensures Keeps(s, StopWorker(w, c, o, child))
  {
    if o.mishap(ReadRow) == Fine {
      ClosingKeeps(s, w, c, o);
      var w1 := Yield(Emit(Emit(w, Read(w.reg)), Closing), c, o, PostRead);
      if ProcessAlive(w1, c, w.reg) {
        StopInstanceKeeps(s, w1, c, o, w.reg.value, child, |w.store.log|);
      } else if child.Some? {
        StopPlain(s, w1, c, o, child.value.pid);
      }
    }
  }

  lemma {:induction false} StopInstanceKeeps(s: Store, w: World, c: Settings, o: Oracle, r: Registration, child: Option<Child>, from: nat)
    requires Keeps(s, w) && Begun(w.store.log, from, r)
    requires from + 1 < |w.store.log| && w.store.log[from + 1] == Closing
    requires forall k | from < k < |w.store.log| :: !w.store.log[k].Assessed?
    ensures Keeps(s, RecoverLost(TerminateInstance(w, c, o, r, child), c, o, r).0)
  {
    TerminateInstanceCalm(w, c, o, r, child);
    TerminateInstanceHandles(w, c, o, r, child);
    var w1 := TerminateInstance(w, c, o, r, child);
    CalmKeepsBacked(w.store.log, w1.store.log);
    HandlingJustified(w.store.log, w1.store.log, r, from, from + 1);
    RecoverLostBacked(w1, c, o, r, from);
    RecoverLostParks(s, w1, c, o, r);
    RecoverLostRecords(w1, c, o, r);
    RecordingJustified(w1.store.log, RecoverLost(w1, c, o, r).0.store.log, from, from + 1);
  }

  lemma {:induction false} ShutdownKeeps(s: Store, l: Loop, c: Settings, i: Input)
    requires Keeps(s, l.world)
    ensures Keeps(s, Shutdown(l, c, i).world)
  {
    if l.owns {
      EnvPlain(s, l.world, c, i.env(PreShutdown));
      var w := Env(l.world, c, i.env(PreShutdown));
      StopWebKeeps(s, w, c, i.review, l.web);
      StopWorkerKeeps(s, StopWeb(w, c, i.review, l.web), c, i.call, l.child);
    }
  }

  lemma {:induction false} StopWebKeeps(s: Store, w: World, c: Settings, o: Oracle, web: Option<Child>)
    requires Keeps(s, w)
    ensures Keeps(s, StopWeb(w, c, o, web))
  {
    if web.Some? {
      StopPlain(s, w, c, o, web.value.pid);
    } else {
      EnvPlain(s, w, c, o.env(PreSignal));
    }
  }

  lemma {:induction false} CycleKeeps(s: Store, l: Loop, c: Settings, i: Input)
    requires Keeps(s, l.world)
    ensures Keeps(s, Cycle(l, c, i).world)
  {
    if !l.done {
      EnvPlain(s, l.world, c, i.env(PreCycle));
      var l0 := Move(l, c, i, PreCycle);
      if i.stop {
        ShutdownKeeps(s, l0, c, i);
      } else if i.check.Checked? {
        EmitPlain(s, l0.world, Ownership(i.check.owned));
        var l1 := l0.(owns := i.check.owned, world := Emit(l0.world, Ownership(i.check.owned)));
        if l1.owns {
          ReapKeeps(s, l1, c, i);
          EnsureKeeps(s, ReapWeb(l1, c, i), c, i);
          var l2 := EnsureWeb(ReapWeb(l1, c, i), c, i);
          ReviewKeeps(s, l2, c, i);
          BeforeCallKeeps(s, ReviewWorker(l2, c, i), c, i);
          CallKeeps(s, BeforeCall(ReviewWorker(l2, c, i), c, i), c, i);
        } else {
          ShutdownKeeps(s, l1, c, i);
        }
      }
    }
  }

  /**
   Over every run: the ledger holds, every recovery was fenced in its own call against the exact
   registration read there, every recycling was justified, and a job that was parked at the start
   is parked at the end.
   */
  lemma {:induction false} RunKeeps(l: Loop, c: Settings, inputs: seq<Input>)
    requires Safe(l.world)
    ensures Safe(Run(l, c, inputs).world)
    ensures StaysParked(l.world.store, Run(l, c, inputs).world.store)
  {
    if inputs != [] {
      RunKeeps(l, c, Init(inputs));
      CycleKeeps(l.world.store, Run(l, c, Init(inputs)), c, Last(inputs));
    }
  }

  /** No run lets a fenced execution commit. */
  lemma {:induction false} RunFences(l: Loop, c: Settings, inputs: seq<Input>, i: nat, j: nat)
    requires Safe(l.world)
    requires var log := Run(l, c, inputs).world.store.log;
             i < |log| && j < |log| && log[i].Revoked? && log[j].Settled?
    ensures var log := Run(l, c, inputs).world.store.log; !(log[i].job == log[j].job && log[i].token == log[j].token)
  {
    RunKeeps(l, c, inputs);
    FencedNeverCommits(Run(l, c, inputs).world.store, i, j);
  }

  /**
   A supervisor that has just started, on any database with the ledger: rows may be left running by a dead worker,
   and its registration may still be there. The timeline holds what happened before, which is job transactions only.
   */
  ghost predicate Initial(l: Loop) {
    && Ledger(l.world.store) && (forall k | 0 <= k < |l.world.store.log| :: Outside(l.world.store.log[k]))
    && l.child.None? && l.web.None? && !l.owns && !l.done
    && l.webBudget.restarts == 0 && l.webBudget.failures == [] && l.workerBudget.failures == []
  }

  lemma {:induction false} InitialSafe(l: Loop)
    requires Initial(l)
    ensures Safe(l.world)
  {
  }
}
