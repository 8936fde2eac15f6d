/** The worker side of an iteration touches no web process and, when it takes no time, no web decision. */
module WebFrame {
  import opened Common
  import opened Timeline
  import opened JobTable
  import opened Runtime
  import opened SuperviseOnce
  import opened SupervisorLoop
  import opened WorldLikeness

  /** The registered worker is no web process. */
  predicate Apart(w: World, webs: set<int>) {
    w.reg.Some? ==> OwnPid(w.reg.value, webs)
  }

  /** The same clock, and the same web processes with the same exits. */
  ghost predicate SameWebs(a: World, b: World, webs: set<int>) {
    && a.mono == b.mono
    && forall pid | pid in webs :: (pid in a.procs <==> pid in b.procs) && (pid in a.procs ==> a.procs[pid].exit == b.procs[pid].exit)
  }

  ghost predicate Aside(a: World, b: World, webs: set<int>) {
    SameWebs(a, b, webs) && Apart(b, webs)
  }

  /** Neither a web process nor the monotonic clock moves. */
  predicate Idle(e: Step, webs: set<int>) {
    Fair(e, webs) && !WebStep(e, webs) && (e.Tick? ==> e.mono == 0)
  }

  ghost predicate IdleSteps(steps: seq<Step>, webs: set<int>) {
    forall e | e in steps :: Idle(e, webs)
  }

  ghost predicate IdleOracle(o: Oracle, webs: set<int>) {
    (forall p :: IdleSteps(o.env(p), webs)) && o.newPid !in webs
  }

  lemma {:induction false} DoAside(a: World, w: World, c: Settings, e: Step, webs: set<int>)
    requires Aside(a, w, webs) && Idle(e, webs)
    ensures Aside(a, Do(w, c, e), webs)
  {
  }

  lemma {:induction false} EnvAside(a: World, w: World, c: Settings, steps: seq<Step>, webs: set<int>)
    requires Aside(a, w, webs) && IdleSteps(steps, webs)
    ensures Aside(a, Env(w, c, steps), webs)
  {
    if steps != [] {
      assert (forall e | e in Init(steps) :: e in steps) && Last(steps) in steps;
      EnvAside(a, w, c, Init(steps), webs);
      DoAside(a, Env(w, c, Init(steps)), c, Last(steps), webs);
    }
  }

  lemma {:induction false} YieldAside(a: World, w: World, c: Settings, o: Oracle, at: Point, webs: set<int>)
    requires Aside(a, w, webs) && IdleOracle(o, webs)
    ensures Aside(a, Yield(w, c, o, at), webs)
  {
    EnvAside(a, w, c, o.env(at), webs);
  }

  // ---- Processes -----------------------------------------------------------------------------------

  lemma {:induction false} TerminateLauncherAside(a: World, w: World, c: Settings, o: Oracle, pid: int, webs: set<int>)
    requires Aside(a, w, webs) && IdleOracle(o, webs) && pid !in webs
    ensures Aside(a, TerminateLauncher(w, c, o, pid), webs)
  {
    YieldAside(a, w, c, o, PreSignal, webs);
  }

  lemma {:induction false} TerminateInstanceAside(
    a: World, w: World, c: Settings, o: Oracle, r: Registration, child: Option<Child>, webs: set<int>)
    requires Aside(a, w, webs) && IdleOracle(o, webs) && OwnPid(r, webs) && OwnChild(child, webs)
    ensures Aside(a, TerminateInstance(w, c, o, r, child), webs)
  {
    YieldAside(a, w, c, o, PreKill, webs);
    var w1 := KillRegistered(w, c, o, r);
    assert Aside(a, w1, webs);
    if child.Some? {
      YieldAside(a, w1, c, o, PreKillPoll, webs);
      TerminateLauncherAside(a, Poll(Yield(w1, c, o, PreKillPoll), child.value.pid), c, o, child.value.pid, webs);
    }
  }

  lemma {:induction false} StopRunningAside(a: World, w: World, c: Settings, o: Oracle, child: Option<Child>, webs: set<int>)
    requires Aside(a, w, webs) && IdleOracle(o, webs) && OwnChild(child, webs)
    ensures Aside(a, StopRunning(w, c, o, child), webs)
  {
    if child.Some? {
      YieldAside(a, w, c, o, PreReplacePoll, webs);
      TerminateLauncherAside(a, Poll(Yield(w, c, o, PreReplacePoll), child.value.pid), c, o, child.value.pid, webs);
    }
  }

  lemma {:induction false} ReplaceAside(a: World, w: World, c: Settings, o: Oracle, child: Option<Child>, webs: set<int>)
    requires Aside(a, w, webs) && IdleOracle(o, webs) && OwnChild(child, webs)
    ensures Aside(a, Replace(w, c, o, child).0, webs)
  {
    StopRunningAside(a, w, c, o, child, webs);
    YieldAside(a, StopRunning(w, c, o, child), c, o, PreSpawn, webs);
  }

  // ---- Durable recovery ------------------------------------------------------------------------------

  lemma {:induction false} RetireAndRequeueAside(a: World, w: World, c: Settings, o: Oracle, r: Registration, ids: seq<JobId>, webs: set<int>)
    requires Aside(a, w, webs) && IdleOracle(o, webs)
    ensures Aside(a, RetireAndRequeue(w, c, o, r, ids).0, webs)
  {
    YieldAside(a, w, c, o, PreRetire, webs);
    var w1 := Retire(w, c, o, r);
    assert Aside(a, w1, webs);
    YieldAside(a, w1, c, o, PreRequeue, webs);
  }

  lemma {:induction false} RecoverLostAside(a: World, w: World, c: Settings, o: Oracle, r: Registration, webs: set<int>)
    requires Aside(a, w, webs) && IdleOracle(o, webs)
    ensures Aside(a, RecoverLost(w, c, o, r).0, webs)
  {
    YieldAside(a, w, c, o, PreFence, webs);
    var (w1, ids) := FenceLost(w, c, o, r, false);
    if ids.Some? {
      RetireAndRequeueAside(a, w1, c, o, r, ids.value, webs);
    }
  }

  lemma {:induction false} FenceUsableAside(a: World, w: World, c: Settings, o: Oracle, r: Registration, webs: set<int>)
    requires Aside(a, w, webs) && IdleOracle(o, webs)
    ensures Aside(a, FenceUsable(w, c, o, r).0, webs)
  {
    YieldAside(a, w, c, o, PreWatchdog, webs);
    var w1 := FenceFrozen(w, c, o, r).0;
    assert Aside(a, w1, webs);
    YieldAside(a, w1, c, o, PreFence, webs);
  }

  // ---- The branches of the call ----------------------------------------------------------------------

  lemma {:induction false} StaleLoopAside(
    a: World, w: World, c: Settings, o: Oracle, r: Registration, child: Option<Child>, webs: set<int>)
    requires Aside(a, w, webs) && IdleOracle(o, webs) && OwnPid(r, webs) && OwnChild(child, webs)
    ensures Aside(a, StaleLoop(w, c, o, r, child).0, webs)
  {
    TerminateInstanceAside(a, w, c, o, r, child, webs);
    YieldAside(a, TerminateInstance(w, c, o, r, child), c, o, PostKill, webs);
    var w2 := Yield(TerminateInstance(w, c, o, r, child), c, o, PostKill);
    RecoverLostAside(a, Emit(w2, FoundDead(PidOf(r))), c, o, r, webs);
  }

  lemma {:induction false} TrackLauncherAside(
    a: World, w: World, c: Settings, o: Oracle, r: Registration, child: Option<Child>, webs: set<int>)
    requires Aside(a, w, webs) && IdleOracle(o, webs) && OwnChild(child, webs)
    ensures Aside(a, TrackLauncher(w, c, o, r, child).0, webs) && OwnChild(TrackLauncher(w, c, o, r, child).1, webs)
  {
    if child.Some? {
      YieldAside(a, w, c, o, PreAssociate, webs);
      var w1 := AssociateLauncher(w, c, o, r, child.value.pid);
      assert Aside(a, w1, webs);
      YieldAside(a, w1, c, o, PreTrackPoll, webs);
    }
  }

  lemma {:induction false} UsableWorkerAside(
    a: World, w: World, c: Settings, o: Oracle, r: Registration, child: Option<Child>, webs: set<int>)
    requires Aside(a, w, webs) && IdleOracle(o, webs) && OwnPid(r, webs) && OwnChild(child, webs)
    ensures Aside(a, UsableWorker(w, c, o, r, child).0, webs)
  {
    TrackLauncherAside(a, w, c, o, r, child, webs);
    var (w1, kept) := TrackLauncher(w, c, o, r, child);
    FenceUsableAside(a, w1, c, o, r, webs);
    var (w2, stalled) := FenceUsable(w1, c, o, r);
    if stalled.Some? {
      TerminateInstanceAside(a, w2, c, o, r, kept, webs);
      RetireAndRequeueAside(a, TerminateInstance(w2, c, o, r, kept), c, o, r, stalled.value, webs);
    }
  }

  lemma {:induction false} NoUsableWorkerAside(
    a: World, w: World, c: Settings, o: Oracle, worker: Option<Registration>, child: Option<Child>, webs: set<int>)
    requires Aside(a, w, webs) && IdleOracle(o, webs) && OwnChild(child, webs)
    ensures Aside(a, NoUsableWorker(w, c, o, worker, child).0, webs)
  {
    var w1 := w;
    if child.Some? {
      YieldAside(a, w, c, o, PreAgePoll, webs);
      w1 := Poll(Yield(w, c, o, PreAgePoll), child.value.pid);
    }
    if Active(worker) {
      RecoverLostAside(a, w1, c, o, worker.value, webs);
      ReplaceAside(a, RecoverLost(w1, c, o, worker.value).0, c, o, child, webs);
    } else {
      ReplaceAside(a, w1, c, o, child, webs);
    }
  }

  lemma {:induction false} AssessAside(a: World, w: World, c: Settings, o: Oracle, worker: Option<Registration>, webs: set<int>)
    requires Aside(a, w, webs) && IdleOracle(o, webs)
    ensures Aside(a, Assess(w, c, o, worker).world, webs)
  {
    var w0 := Emit(w, Read(worker));
    YieldAside(a, w0, c, o, PostRead, webs);
    var w1 := Yield(w0, c, o, PostRead);
    YieldAside(a, w1, c, o, PostProcess, webs);
    var w2 := Yield(w1, c, o, PostProcess);
    YieldAside(a, w2, c, o, PostControl, webs);
    YieldAside(a, Yield(w2, c, o, PostControl), c, o, PostSampler, webs);
  }

  lemma {:induction false} CallAside(a: World, w: World, c: Settings, o: Oracle, child: Option<Child>, webs: set<int>)
    requires Aside(a, w, webs) && IdleOracle(o, webs) && OwnChild(child, webs)
    ensures Aside(a, SuperviseOnce.SuperviseOnce(w, c, o, child).0, webs)
  {
    if o.mishap(ReadRow) == Fine {
      AssessAside(a, w, c, o, w.reg, webs);
      var g := Assess(w, c, o, w.reg);
      if !g.process {
        NoUsableWorkerAside(a, g.world, c, o, w.reg, child, webs);
      } else if Excused(g) {
        UsableWorkerAside(a, g.world, c, o, w.reg.value, child, webs);
      } else {
        StaleLoopAside(a, g.world, c, o, w.reg.value, child, webs);
      }
    }
  }
}
