/**
 The worker role does not depend on the web role: two runs that differ only in the web child, its budget and
 what happens to web processes make the same worker decisions.
 */
module WorkerIsolation {
  import opened Common
  import opened Timeline
  import opened JobTable
  import opened Runtime
  import opened SuperviseOnce
  import opened RestartBudget
  import opened SupervisorLoop
  import opened WorldLikeness
  import opened CallIsolation

  /** The process ids `webs` are those of web children, in either run. */
  ghost predicate SameLoop(l: Loop, m: Loop, webs: set<int>) {
    && Like(l.world, m.world, webs)
    && l.child == m.child && OwnChild(l.child, webs) && l.workerBudget == m.workerBudget
    && l.owns == m.owns && l.deadline == m.deadline && l.done == m.done
    && (l.web.Some? ==> l.web.value.pid in webs) && (m.web.Some? ==> m.web.value.pid in webs)
  }

  /** Equal but for the web spawns and the steps of web processes. */
  ghost predicate SameInput(i: Input, j: Input, webs: set<int>) {
    && i.stop == j.stop && i.check == j.check && i.rowReads == j.rowReads
    && (forall at :: SameSteps(i.env(at), j.env(at), webs))
    && Agree(i.review, j.review, webs) && Agree(i.call, j.call, webs)
    && i.webPid in webs && j.webPid in webs
  }

  lemma {:induction false} MoveLike(l: Loop, m: Loop, c: Settings, i: Input, j: Input, at: LoopPoint, webs: set<int>)
    requires SameLoop(l, m, webs) && SameInput(i, j, webs)
    ensures SameLoop(Move(l, c, i, at), Move(m, c, j, at), webs)
  {
    assert SameSteps(i.env(at), j.env(at), webs);
    EnvLike(l.world, m.world, c, i.env(at), j.env(at), webs);
  }

  // ---- The web part is not seen -----------------------------------------------------------------

  lemma {:induction false} HiddenEvent(a: World, b: World, e: Event, webs: set<int>)
    requires Like(a, b, webs) && !Mine(e, webs)
    ensures Like(Emit(a, e), b, webs) && Like(a, Emit(b, e), webs)
  {
    EmitHidden(a, e, webs);
    EmitHidden(b, e, webs);
  }

  lemma {:induction false} HiddenReap(w: World, a: World, pid: int, webs: set<int>)
    requires Like(w, a, webs) && pid in webs
    ensures var e, f := ExitSeen(pid), Failure(Web, ChildExited);
            Like(Emit(Emit(w, e), f), a, webs) && Like(a, Emit(Emit(w, e), f), webs)
  {
    HiddenEvent(w, a, ExitSeen(pid), webs);
    HiddenEvent(Emit(w, ExitSeen(pid)), a, Failure(Web, ChildExited), webs);
  }

  lemma {:induction false} LikeSymmetric(a: World, b: World, webs: set<int>)
    requires Like(a, b, webs)
    ensures Like(b, a, webs)
  {
  }

  lemma {:induction false} ReapLike(l: Loop, m: Loop, c: Settings, i: Input, j: Input, webs: set<int>)
    requires SameLoop(l, m, webs) && SameInput(i, j, webs)
    ensures SameLoop(ReapWeb(l, c, i), ReapWeb(m, c, j), webs)
  {
    MoveLike(l, m, c, i, j, PreWeb, webs);
    var l1, m1 := Move(l, c, i, PreWeb), Move(m, c, j, PreWeb);
    var l2, m2 := ReapWeb(l, c, i), ReapWeb(m, c, j);
    if l1.web.Some? && !StillRuns(l1.world, l1.web.value.pid) {
      HiddenReap(l1.world, m1.world, l1.web.value.pid, webs);
    }
    assert Like(l2.world, m1.world, webs);
    if m1.web.Some? && !StillRuns(m1.world, m1.web.value.pid) {
      LikeSymmetric(l2.world, m1.world, webs);
      HiddenReap(m1.world, l2.world, m1.web.value.pid, webs);
    }
  }

  /** Starting a web child, or failing to, on one side only. */
  lemma {:induction false} HiddenStart(w: World, b: World, pid: int, webs: set<int>)
    requires Like(w, b, webs) && pid in webs
    ensures Like(Emit(w, Failure(Web, SpawnFailed)), b, webs)
    ensures Like(Emit(w.(procs := w.procs[pid := Proc(w.wall, None)]), Launched(Web, pid)), b, webs)
  {
    HiddenEvent(w, b, Failure(Web, SpawnFailed), webs);
    HiddenEvent(w.(procs := w.procs[pid := Proc(w.wall, None)]), b, Launched(Web, pid), webs);
  }

  lemma {:induction false} EnsureHidden(l: Loop, c: Settings, i: Input, b: World, webs: set<int>)
    requires Like(Move(l, c, i, BetweenPolls).world, b, webs) && i.webPid in webs && (l.web.Some? ==> l.web.value.pid in webs)
    ensures var l' := EnsureWeb(l, c, i);
            && Like(l'.world, b, webs) && (l'.web.Some? ==> l'.web.value.pid in webs)
            && l'.child == l.child && l'.workerBudget == l.workerBudget
            && l'.owns == l.owns && l'.deadline == l.deadline && l'.done == l.done
  {
    HiddenStart(Move(l, c, i, BetweenPolls).world, b, i.webPid, webs);
  }

  lemma {:induction false} EnsureLike(l: Loop, m: Loop, c: Settings, i: Input, j: Input, webs: set<int>)
    requires SameLoop(l, m, webs) && SameInput(i, j, webs)
    ensures SameLoop(EnsureWeb(l, c, i), EnsureWeb(m, c, j), webs)
  {
    MoveLike(l, m, c, i, j, BetweenPolls, webs);
    var l', m' := EnsureWeb(l, c, i), EnsureWeb(m, c, j);
    var b := Move(m, c, j, BetweenPolls).world;
    EnsureHidden(l, c, i, b, webs);
    LikeSymmetric(l'.world, b, webs);
    EnsureHidden(m, c, j, l'.world, webs);
    LikeSymmetric(m'.world, l'.world, webs);
  }

  // ---- The worker part ----------------------------------------------------------------------------

  lemma {:induction false} ChargeLike(l: Loop, m: Loop, cause: Cause, webs: set<int>)
    requires SameLoop(l, m, webs)
    ensures SameLoop(ChargeWorker(l, cause), ChargeWorker(m, cause), webs)
  {
    EmitLike(l.world, m.world, Failure(Worker, cause), webs);
  }

  lemma {:induction false} PollChildLike(l: Loop, m: Loop, webs: set<int>)
    requires SameLoop(l, m, webs)
    ensures SameLoop(PollChild(l), PollChild(m), webs) && HasExited(l) == HasExited(m)
  {
    if l.child.Some? {
      PollLike(l.world, m.world, l.child.value.pid, webs);
      EmitLike(l.world, m.world, ExitSeen(l.child.value.pid), webs);
    }
  }

  lemma {:induction false} TimeoutLike(l: Loop, m: Loop, c: Settings, i: Input, j: Input, webs: set<int>)
    requires SameLoop(l, m, webs) && SameInput(i, j, webs) && l.child.Some?
    ensures var pid := l.child.value.pid;
            var a, b := ChargeWorker(l, RegistrationTimeout), ChargeWorker(m, RegistrationTimeout);
            SameLoop(a.(world := TerminateLauncher(a.world, c, i.review, pid), child := None),
                     b.(world := TerminateLauncher(b.world, c, j.review, pid), child := None), webs)
  {
    ChargeLike(l, m, RegistrationTimeout, webs);
    var a, b := ChargeWorker(l, RegistrationTimeout), ChargeWorker(m, RegistrationTimeout);
    TerminateLauncherLike(a.world, b.world, c, i.review, j.review, l.child.value.pid, webs);
  }

  lemma {:induction false} LostLike(l: Loop, m: Loop, webs: set<int>)
    requires SameLoop(l, m, webs)
    ensures SameLoop(ChargeWorker(l, ProcessLost).(child := if HasExited(l) then None else l.child),
                     ChargeWorker(m, ProcessLost).(child := if HasExited(m) then None else m.child), webs)
  {
    PollChildLike(l, m, webs);
    ChargeLike(l, m, ProcessLost, webs);
  }

  lemma {:induction false} EarlyLike(l: Loop, m: Loop, webs: set<int>)
    requires SameLoop(l, m, webs)
    ensures SameLoop(l.(child := None), m.(child := None), webs)
    ensures SameLoop(ChargeWorker(l, BeforeRegistration).(child := None), ChargeWorker(m, BeforeRegistration).(child := None), webs)
  {
    ChargeLike(l, m, BeforeRegistration, webs);
  }

  lemma {:induction false} VerdictsLike(l: Loop, m: Loop, worker: Option<Registration>, webs: set<int>)
    requires SameLoop(l, m, webs)
    ensures HasExited(l) == HasExited(m) && Graceful(l.world, worker, l.child) == Graceful(m.world, worker, m.child)
  {
  }

  lemma {:induction false} JudgeLike(
    l: Loop, m: Loop, c: Settings, i: Input, j: Input, worker: Option<Registration>, alive: bool, webs: set<int>)
    requires SameLoop(l, m, webs) && SameInput(i, j, webs)
    ensures SameLoop(Judge(l, c, i, worker, alive), Judge(m, c, j, worker, alive), webs)
  {
    VerdictsLike(l, m, worker, webs);
    if Active(worker) && !alive {
      LostLike(l, m, webs);
    } else if Graceful(l.world, worker, l.child) || (HasExited(l) && !Active(worker)) {
      EarlyLike(l, m, webs);
    } else if l.child.Some? {
      TimeoutLike(l, m, c, i, j, webs);
    }
  }

  lemma {:induction false} ReviewLike(l: Loop, m: Loop, c: Settings, i: Input, j: Input, webs: set<int>)
    requires SameLoop(l, m, webs) && SameInput(i, j, webs)
    ensures SameLoop(ReviewWorker(l, c, i), ReviewWorker(m, c, j), webs)
  {
    MoveLike(l, m, c, i, j, PreRow, webs);
    var l1, m1 := Move(l, c, i, PreRow), Move(m, c, j, PreRow);
    MoveLike(l1, m1, c, i, j, PostRow, webs);
    PollChildLike(Move(l1, c, i, PostRow), Move(m1, c, j, PostRow), webs);
    var l2, m2 := PollChild(Move(l1, c, i, PostRow)), PollChild(Move(m1, c, j, PostRow));
    if l1.world.reg.Some? {
      ReadingsLike(l2.world, m2.world, c, l1.world.reg.value, webs);
    }
    JudgeLike(l2, m2, c, i, j, l1.world.reg, ProcessAlive(l2.world, c, l1.world.reg), webs);
  }

  lemma {:induction false} CallWorkerLike(l: Loop, m: Loop, c: Settings, i: Input, j: Input, webs: set<int>)
    requires SameLoop(l, m, webs) && SameInput(i, j, webs)
    ensures SameLoop(CallWorker(l, c, i), CallWorker(m, c, j), webs)
  {
    CallLike(l.world, m.world, c, i.call, j.call, l.child, webs);
    CallReturns(l.world, c, i.call, l.child);
    var a, b := SuperviseOnce.SuperviseOnce(l.world, c, i.call, l.child).0, SuperviseOnce.SuperviseOnce(m.world, c, j.call, l.child).0;
    ChargeLike(l.(world := a), m.(world := b), SpawnFailed, webs);
  }

  // ---- Shutdown -------------------------------------------------------------------------------------

  lemma {:induction false} StopWorkerLike(a: World, b: World, c: Settings, o: Oracle, p: Oracle, child: Option<Child>, webs: set<int>)
    requires Like(a, b, webs) && Agree(o, p, webs) && OwnChild(child, webs)
    ensures Like(StopWorker(a, c, o, child), StopWorker(b, c, p, child), webs)
  {
    var worker := a.reg;
    EmitLike(a, b, Read(worker), webs);
    EmitLike(Emit(a, Read(worker)), Emit(b, Read(worker)), Closing, webs);
    YieldLike(Emit(Emit(a, Read(worker)), Closing), Emit(Emit(b, Read(worker)), Closing), c, o, p, PostRead, webs);
    var a1, b1 := Yield(Emit(Emit(a, Read(worker)), Closing), c, o, PostRead), Yield(Emit(Emit(b, Read(worker)), Closing), c, p, PostRead);
    if worker.Some? {
      ReadingsLike(a1, b1, c, worker.value, webs);
      TerminateInstanceLike(a1, b1, c, o, p, worker.value, child, webs);
      RecoverLostLike(TerminateInstance(a1, c, o, worker.value, child), TerminateInstance(b1, c, p, worker.value, child), c, o, p, worker.value, webs);
    }
    if child.Some? {
      TerminateLauncherLike(a1, b1, c, o, p, child.value.pid, webs);
    }
  }

  lemma {:induction false} WebStopHidden(w: World, c: Settings, o: Oracle, web: Option<Child>, b: World, webs: set<int>)
    requires (web.Some? ==> web.value.pid in webs) && Like(Yield(w, c, o, PreSignal), b, webs)
    ensures Like(StopWeb(w, c, o, web), b, webs)
  {
    if web.Some? {
      var w1, pid := Yield(w, c, o, PreSignal), web.value.pid;
      HiddenEvent(w1, b, ExitSeen(pid), webs);
      HiddenEvent(w1, b, KillLauncher(pid), webs);
    }
  }

  lemma {:induction false} WebStopLike(
    a: World, b: World, c: Settings, o: Oracle, p: Oracle, web: Option<Child>, web': Option<Child>, webs: set<int>)
    requires Like(a, b, webs) && Agree(o, p, webs)
    requires (web.Some? ==> web.value.pid in webs) && (web'.Some? ==> web'.value.pid in webs)
    ensures Like(StopWeb(a, c, o, web), StopWeb(b, c, p, web'), webs)
  {
    YieldLike(a, b, c, o, p, PreSignal, webs);
    var a', b1 := StopWeb(a, c, o, web), Yield(b, c, p, PreSignal);
    WebStopHidden(a, c, o, web, b1, webs);
    LikeSymmetric(a', b1, webs);
    WebStopHidden(b, c, p, web', a', webs);
    LikeSymmetric(StopWeb(b, c, p, web'), a', webs);
  }

  lemma {:induction false} ShutdownLike(l: Loop, m: Loop, c: Settings, i: Input, j: Input, webs: set<int>)
    requires SameLoop(l, m, webs) && SameInput(i, j, webs)
    ensures SameLoop(Shutdown(l, c, i), Shutdown(m, c, j), webs)
  {
    MoveLike(l, m, c, i, j, PreShutdown, webs);
    var a, b := Move(l, c, i, PreShutdown).world, Move(m, c, j, PreShutdown).world;
    WebStopLike(a, b, c, i.review, j.review, l.web, m.web, webs);
    StopWorkerLike(StopWeb(a, c, i.review, l.web), StopWeb(b, c, j.review, m.web), c, i.call, j.call, l.child, webs);
  }

  // ---- Iterations and runs ------------------------------------------------------------------------

  lemma {:induction false} OwnedCycleLike(l: Loop, m: Loop, c: Settings, i: Input, j: Input, webs: set<int>)
    requires SameLoop(l, m, webs) && SameInput(i, j, webs)
    ensures SameLoop(OwnedCycle(l, c, i), OwnedCycle(m, c, j), webs)
  {
    ReapLike(l, m, c, i, j, webs);
    EnsureLike(ReapWeb(l, c, i), ReapWeb(m, c, j), c, i, j, webs);
    var l1, m1 := EnsureWeb(ReapWeb(l, c, i), c, i), EnsureWeb(ReapWeb(m, c, j), c, j);
    ReviewLike(l1, m1, c, i, j, webs);
    var l2, m2 := ReviewWorker(l1, c, i), ReviewWorker(m1, c, j);
    MoveLike(l2, m2, c, i, j, PreCall, webs);
    CallWorkerLike(BeforeCall(l2, c, i), BeforeCall(m2, c, j), c, i, j, webs);
  }

  lemma {:induction false} DecideLike(l: Loop, m: Loop, c: Settings, i: Input, j: Input, webs: set<int>)
    requires SameLoop(l, m, webs) && SameInput(i, j, webs)
    ensures SameLoop(Decide(l, c, i), Decide(m, c, j), webs)
  {
    OwnedCycleLike(l, m, c, i, j, webs);
    ShutdownLike(l, m, c, i, j, webs);
  }

  lemma {:induction false} CycleLike(l: Loop, m: Loop, c: Settings, i: Input, j: Input, webs: set<int>)
    requires SameLoop(l, m, webs) && SameInput(i, j, webs)
    ensures SameLoop(Cycle(l, c, i), Cycle(m, c, j), webs)
  {
    MoveLike(l, m, c, i, j, PreCycle, webs);
    var l0, m0 := Move(l, c, i, PreCycle), Move(m, c, j, PreCycle);
    ShutdownLike(l0, m0, c, i, j, webs);
    if i.check.Checked? {
      EmitLike(l0.world, m0.world, Ownership(i.check.owned), webs);
      DecideLike(Answer(l0, i.check.owned), Answer(m0, i.check.owned), c, i, j, webs);
    }
  }

  /**
   Over whole runs: the same launcher and worker budget, the same jobs, registration and other processes, and the
   same timeline of worker events, whatever happens to the web role.
   */
  lemma {:induction false} WorkerIgnoresWeb(l: Loop, m: Loop, c: Settings, ins: seq<Input>, js: seq<Input>, webs: set<int>)
    requires SameLoop(l, m, webs) && |ins| == |js| && forall k | 0 <= k < |ins| :: SameInput(ins[k], js[k], webs)
    ensures SameLoop(Run(l, c, ins), Run(m, c, js), webs)
  {
    if ins != [] {
      assert forall k | 0 <= k < |Init(ins)| :: Init(ins)[k] == ins[k] && Init(js)[k] == js[k];
      WorkerIgnoresWeb(l, m, c, Init(ins), Init(js), webs);
      CycleLike(Run(l, c, Init(ins)), Run(m, c, Init(js)), c, Last(ins), Last(js), webs);
    }
  }
}
