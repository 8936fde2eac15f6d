/** A call of `_supervise_once` decides the same in worlds that differ only in web processes. */
module CallIsolation {
  import opened Common
  import opened Timeline
  import opened JobTable
  import opened Runtime
  import opened SuperviseOnce
  import opened WorldLikeness

  /** The same answers from outside, but for the steps of web processes. */
  ghost predicate Agree(o: Oracle, p: Oracle, webs: set<int>) {
    && (forall at :: SameSteps(o.env(at), p.env(at), webs))
    && o.mishap == p.mishap && o.rows == p.rows && o.sightings == p.sightings && o.critical == p.critical
    && o.workerDies == p.workerDies && o.launcherDies == p.launcherDies && o.newPid == p.newPid && o.newPid !in webs
  }

  lemma {:induction false} YieldLike(a: World, b: World, c: Settings, o: Oracle, p: Oracle, at: Point, webs: set<int>)
    requires Like(a, b, webs) && Agree(o, p, webs)
    ensures Like(Yield(a, c, o, at), Yield(b, c, p, at), webs)
  {
    assert SameSteps(o.env(at), p.env(at), webs);
    EnvLike(a, b, c, o.env(at), p.env(at), webs);
  }

  // ---- Processes -------------------------------------------------------------------------------

  lemma {:induction false} ReadingsLike(a: World, b: World, c: Settings, r: Registration, webs: set<int>)
    requires Like(a, b, webs) && OwnPid(r, webs)
    ensures IsAlive(a, r.pid, r.started) == IsAlive(b, r.pid, r.started)
    ensures ProcessAlive(a, c, Some(r)) == ProcessAlive(b, c, Some(r))
    ensures ExecutionAlive(a, c, r) == ExecutionAlive(b, c, r)
  {
    assert forall id :: Executing(a, c, r, id) == Executing(b, c, r, id);
  }

  lemma {:induction false} PollLike(a: World, b: World, pid: int, webs: set<int>)
    requires Like(a, b, webs) && pid !in webs
    ensures Like(Poll(a, pid), Poll(b, pid), webs) && StillRuns(a, pid) == StillRuns(b, pid)
    ensures StillRuns(Poll(a, pid), pid) == StillRuns(a, pid) && StillRuns(Poll(b, pid), pid) == StillRuns(b, pid)
  {
    EmitLike(a, b, ExitSeen(pid), webs);
  }

  lemma {:induction false} KillLike(a: World, b: World, e: Event, pid: int, dies: bool, webs: set<int>)
    requires Like(a, b, webs) && pid !in webs
    ensures Like(Kill(Emit(a, e), pid, dies), Kill(Emit(b, e), pid, dies), webs)
  {
    EmitLike(a, b, e, webs);
  }

  lemma {:induction false} TerminateLauncherLike(
    a: World, b: World, c: Settings, o: Oracle, p: Oracle, pid: int, webs: set<int>)
    requires Like(a, b, webs) && Agree(o, p, webs) && pid !in webs
    ensures Like(TerminateLauncher(a, c, o, pid), TerminateLauncher(b, c, p, pid), webs)
  {
    YieldLike(a, b, c, o, p, PreSignal, webs);
    var a1, b1 := Yield(a, c, o, PreSignal), Yield(b, c, p, PreSignal);
    EmitLike(a1, b1, ExitSeen(pid), webs);
    KillLike(a1, b1, KillLauncher(pid), pid, o.launcherDies, webs);
  }

  lemma {:induction false} KillRegisteredLike(
    a: World, b: World, c: Settings, o: Oracle, p: Oracle, r: Registration, webs: set<int>)
    requires Like(a, b, webs) && Agree(o, p, webs) && OwnPid(r, webs)
    ensures Like(KillRegistered(a, c, o, r), KillRegistered(b, c, p, r), webs)
  {
    YieldLike(a, b, c, o, p, PreKill, webs);
    var a1, b1 := Yield(a, c, o, PreKill), Yield(b, c, p, PreKill);
    ReadingsLike(a1, b1, c, r, webs);
    if r.pid.Some? {
      KillLike(a1, b1, KillWorker(r.pid.value), r.pid.value, o.workerDies, webs);
    }
  }

  lemma {:induction false} KillSeparateLike(
    a: World, b: World, c: Settings, o: Oracle, p: Oracle, r: Registration, child: Option<Child>, webs: set<int>)
    requires Like(a, b, webs) && Agree(o, p, webs) && OwnChild(child, webs)
    ensures Like(KillSeparate(a, c, o, r, child), KillSeparate(b, c, p, r, child), webs)
  {
    if child.Some? {
      var pid := child.value.pid;
      YieldLike(a, b, c, o, p, PreKillPoll, webs);
      PollLike(Yield(a, c, o, PreKillPoll), Yield(b, c, p, PreKillPoll), pid, webs);
      TerminateLauncherLike(Poll(Yield(a, c, o, PreKillPoll), pid), Poll(Yield(b, c, p, PreKillPoll), pid), c, o, p, pid, webs);
    }
  }

  lemma {:induction false} TerminateInstanceLike(
    a: World, b: World, c: Settings, o: Oracle, p: Oracle, r: Registration, child: Option<Child>, webs: set<int>)
    requires Like(a, b, webs) && Agree(o, p, webs) && OwnPid(r, webs) && OwnChild(child, webs)
    ensures Like(TerminateInstance(a, c, o, r, child), TerminateInstance(b, c, p, r, child), webs)
  {
    KillRegisteredLike(a, b, c, o, p, r, webs);
    KillSeparateLike(KillRegistered(a, c, o, r), KillRegistered(b, c, p, r), c, o, p, r, child, webs);
  }

  // ---- Durable recovery ------------------------------------------------------------------------

  lemma {:induction false} FenceLostLike(
    a: World, b: World, c: Settings, o: Oracle, p: Oracle, r: Registration, memory: bool, webs: set<int>)
    requires Like(a, b, webs) && Agree(o, p, webs)
    ensures Like(FenceLost(a, c, o, r, memory).0, FenceLost(b, c, p, r, memory).0, webs)
    ensures FenceLost(a, c, o, r, memory).1 == FenceLost(b, c, p, r, memory).1
  {
    YieldLike(a, b, c, o, p, PreFence, webs);
    ReconciledLike(Yield(a, c, o, PreFence), Yield(b, c, p, PreFence), c, r, memory, o.rows(FenceJobs), webs);
  }

  lemma {:induction false} ReconciledLike(a: World, b: World, c: Settings, r: Registration, memory: bool, rows: Rows, webs: set<int>)
    requires Like(a, b, webs)
    ensures var (s, rec) := Reconcile(a.store, c.worker, r.instance, memory, rows, rows.order);
            var (t, other) := Reconcile(b.store, c.worker, r.instance, memory, rows, rows.order);
            && rec == other
            && Like(Emit(a.(store := s), Fenced(r.instance, rec.fenced)), Emit(b.(store := t), Fenced(r.instance, rec.fenced)), webs)
  {
    ReconcileLike(a.store, b.store, c.worker, r.instance, memory, rows, rows.order, webs);
    var (s, rec) := Reconcile(a.store, c.worker, r.instance, memory, rows, rows.order);
    var (t, _) := Reconcile(b.store, c.worker, r.instance, memory, rows, rows.order);
    EmitLike(a.(store := s), b.(store := t), Fenced(r.instance, rec.fenced), webs);
  }

  lemma {:induction false} FenceFrozenLike(
    a: World, b: World, c: Settings, o: Oracle, p: Oracle, r: Registration, webs: set<int>)
    requires Like(a, b, webs) && Agree(o, p, webs)
    ensures Like(FenceFrozen(a, c, o, r).0, FenceFrozen(b, c, p, r).0, webs)
    ensures FenceFrozen(a, c, o, r).1 == FenceFrozen(b, c, p, r).1
  {
    YieldLike(a, b, c, o, p, PreWatchdog, webs);
    StalledLike(Yield(a, c, o, PreWatchdog), Yield(b, c, p, PreWatchdog), c, r, o.rows(Watchdog), o.sightings, webs);
  }

  lemma {:induction false} StalledLike(a: World, b: World, c: Settings, r: Registration, rows: Rows, seen: seq<Sighting>, webs: set<int>)
    requires Like(a, b, webs)
    ensures var (s, fenced) := FenceStalled(a.store, c.worker, r.instance, rows, seen);
            var (t, other) := FenceStalled(b.store, c.worker, r.instance, rows, seen);
            && fenced == other
            && Like(Emit(a.(store := s), Fenced(r.instance, fenced)), Emit(b.(store := t), Fenced(r.instance, fenced)), webs)
  {
    FenceStalledLike(a.store, b.store, c.worker, r.instance, rows, seen, webs);
    var (s, fenced) := FenceStalled(a.store, c.worker, r.instance, rows, seen);
    var (t, _) := FenceStalled(b.store, c.worker, r.instance, rows, seen);
    EmitLike(a.(store := s), b.(store := t), Fenced(r.instance, fenced), webs);
  }

  lemma {:induction false} RetireLike(a: World, b: World, c: Settings, o: Oracle, p: Oracle, r: Registration, webs: set<int>)
    requires Like(a, b, webs) && Agree(o, p, webs)
    ensures Like(Retire(a, c, o, r), Retire(b, c, p, r), webs)
  {
    YieldLike(a, b, c, o, p, PreRetire, webs);
    EmitLike(Yield(a, c, o, PreRetire), Yield(b, c, p, PreRetire), Retired(r), webs);
  }

  lemma {:induction false} RequeueLike(a: World, b: World, c: Settings, o: Oracle, p: Oracle, ids: seq<JobId>, webs: set<int>)
    requires Like(a, b, webs) && Agree(o, p, webs)
    ensures Like(RequeueIds(a, c, o, ids).0, RequeueIds(b, c, p, ids).0, webs)
    ensures RequeueIds(a, c, o, ids).1 == RequeueIds(b, c, p, ids).1
  {
    YieldLike(a, b, c, o, p, PreRequeue, webs);
    EmitLike(Yield(a, c, o, PreRequeue), Yield(b, c, p, PreRequeue), Requeue(ids), webs);
    var a1, b1 := Emit(Yield(a, c, o, PreRequeue), Requeue(ids)), Emit(Yield(b, c, p, PreRequeue), Requeue(ids));
    RequeueStalledLike(a1.store, b1.store, ids, c.recoveryLimit, o.rows(RequeueJobs), o.rows(RequeueJobs).order, webs);
  }

  lemma {:induction false} RetireAndRequeueLike(
    a: World, b: World, c: Settings, o: Oracle, p: Oracle, r: Registration, ids: seq<JobId>, webs: set<int>)
    requires Like(a, b, webs) && Agree(o, p, webs)
    ensures Like(RetireAndRequeue(a, c, o, r, ids).0, RetireAndRequeue(b, c, p, r, ids).0, webs)
    ensures RetireAndRequeue(a, c, o, r, ids).1 == RetireAndRequeue(b, c, p, r, ids).1
  {
    RetireLike(a, b, c, o, p, r, webs);
    RequeueLike(Retire(a, c, o, r), Retire(b, c, p, r), c, o, p, ids, webs);
  }

  lemma {:induction false} RecoverLostLike(a: World, b: World, c: Settings, o: Oracle, p: Oracle, r: Registration, webs: set<int>)
    requires Like(a, b, webs) && Agree(o, p, webs)
    ensures Like(RecoverLost(a, c, o, r).0, RecoverLost(b, c, p, r).0, webs)
    ensures RecoverLost(a, c, o, r).1 == RecoverLost(b, c, p, r).1
  {
    FenceLostLike(a, b, c, o, p, r, false, webs);
    var (a1, fenced) := FenceLost(a, c, o, r, false);
    if fenced.Some? {
      RetireAndRequeueLike(a1, FenceLost(b, c, p, r, false).0, c, o, p, r, fenced.value, webs);
    }
  }

  // ---- The branches of the call ----------------------------------------------------------------

  lemma {:induction false} StaleLoopLike(
    a: World, b: World, c: Settings, o: Oracle, p: Oracle, r: Registration, child: Option<Child>, webs: set<int>)
    requires Like(a, b, webs) && Agree(o, p, webs) && OwnPid(r, webs) && OwnChild(child, webs)
    ensures Like(StaleLoop(a, c, o, r, child).0, StaleLoop(b, c, p, r, child).0, webs)
    ensures StaleLoop(a, c, o, r, child).1 == StaleLoop(b, c, p, r, child).1
  {
    TerminateInstanceLike(a, b, c, o, p, r, child, webs);
    var a1, b1 := TerminateInstance(a, c, o, r, child), TerminateInstance(b, c, p, r, child);
    YieldLike(a1, b1, c, o, p, PostKill, webs);
    var a2, b2 := Yield(a1, c, o, PostKill), Yield(b1, c, p, PostKill);
    ReadingsLike(a2, b2, c, r, webs);
    EmitLike(a2, b2, FoundDead(PidOf(r)), webs);
    RecoverLostLike(Emit(a2, FoundDead(PidOf(r))), Emit(b2, FoundDead(PidOf(r))), c, o, p, r, webs);
  }

  lemma {:induction false} TrackLauncherLike(
    a: World, b: World, c: Settings, o: Oracle, p: Oracle, r: Registration, child: Option<Child>, webs: set<int>)
    requires Like(a, b, webs) && Agree(o, p, webs) && OwnChild(child, webs)
    ensures Like(TrackLauncher(a, c, o, r, child).0, TrackLauncher(b, c, p, r, child).0, webs)
    ensures TrackLauncher(a, c, o, r, child).1 == TrackLauncher(b, c, p, r, child).1
    ensures OwnChild(TrackLauncher(a, c, o, r, child).1, webs)
  {
    if child.Some? {
      var pid := child.value.pid;
      YieldLike(a, b, c, o, p, PreAssociate, webs);
      var a1, b1 := AssociateLauncher(a, c, o, r, pid), AssociateLauncher(b, c, p, r, pid);
      assert Like(a1, b1, webs);
      YieldLike(a1, b1, c, o, p, PreTrackPoll, webs);
      PollLike(Yield(a1, c, o, PreTrackPoll), Yield(b1, c, p, PreTrackPoll), pid, webs);
    }
  }

  lemma {:induction false} FenceUsableLike(a: World, b: World, c: Settings, o: Oracle, p: Oracle, r: Registration, webs: set<int>)
    requires Like(a, b, webs) && Agree(o, p, webs)
    ensures Like(FenceUsable(a, c, o, r).0, FenceUsable(b, c, p, r).0, webs)
    ensures FenceUsable(a, c, o, r).1 == FenceUsable(b, c, p, r).1
  {
    FenceFrozenLike(a, b, c, o, p, r, webs);
    FenceLostLike(FenceFrozen(a, c, o, r).0, FenceFrozen(b, c, p, r).0, c, o, p, r, true, webs);
  }

  lemma {:induction false} RecycleLike(
    a: World, b: World, c: Settings, o: Oracle, p: Oracle, r: Registration, child: Option<Child>, ids: seq<JobId>, webs: set<int>)
    requires Like(a, b, webs) && Agree(o, p, webs) && OwnPid(r, webs) && OwnChild(child, webs)
    ensures Like(Recycle(a, c, o, r, child, ids).0, Recycle(b, c, p, r, child, ids).0, webs)
    ensures Recycle(a, c, o, r, child, ids).1 == Recycle(b, c, p, r, child, ids).1
  {
    TerminateInstanceLike(a, b, c, o, p, r, child, webs);
    RetireAndRequeueLike(TerminateInstance(a, c, o, r, child), TerminateInstance(b, c, p, r, child), c, o, p, r, ids, webs);
  }

  lemma {:induction false} UsableWorkerLike(
    a: World, b: World, c: Settings, o: Oracle, p: Oracle, r: Registration, child: Option<Child>, webs: set<int>)
    requires Like(a, b, webs) && Agree(o, p, webs) && OwnPid(r, webs) && OwnChild(child, webs)
    ensures Like(UsableWorker(a, c, o, r, child).0, UsableWorker(b, c, p, r, child).0, webs)
    ensures UsableWorker(a, c, o, r, child).1 == UsableWorker(b, c, p, r, child).1
  {
    TrackLauncherLike(a, b, c, o, p, r, child, webs);
    var (a1, kept) := TrackLauncher(a, c, o, r, child);
    var b1 := TrackLauncher(b, c, p, r, child).0;
    FenceUsableLike(a1, b1, c, o, p, r, webs);
    var (a2, stalled) := FenceUsable(a1, c, o, r);
    if stalled.Some? {
      RecycleLike(a2, FenceUsable(b1, c, p, r).0, c, o, p, r, kept, stalled.value, webs);
    }
  }

  lemma {:induction false} StopRunningLike(
    a: World, b: World, c: Settings, o: Oracle, p: Oracle, child: Option<Child>, webs: set<int>)
    requires Like(a, b, webs) && Agree(o, p, webs) && OwnChild(child, webs)
    ensures Like(StopRunning(a, c, o, child), StopRunning(b, c, p, child), webs)
  {
    if child.Some? {
      var pid := child.value.pid;
      YieldLike(a, b, c, o, p, PreReplacePoll, webs);
      PollLike(Yield(a, c, o, PreReplacePoll), Yield(b, c, p, PreReplacePoll), pid, webs);
      TerminateLauncherLike(Poll(Yield(a, c, o, PreReplacePoll), pid), Poll(Yield(b, c, p, PreReplacePoll), pid), c, o, p, pid, webs);
    }
  }

  lemma {:induction false} ReplaceLike(a: World, b: World, c: Settings, o: Oracle, p: Oracle, child: Option<Child>, webs: set<int>)
    requires Like(a, b, webs) && Agree(o, p, webs) && OwnChild(child, webs)
    ensures Like(Replace(a, c, o, child).0, Replace(b, c, p, child).0, webs)
    ensures Replace(a, c, o, child).1 == Replace(b, c, p, child).1
  {
    StopRunningLike(a, b, c, o, p, child, webs);
    var a1, b1 := StopRunning(a, c, o, child), StopRunning(b, c, p, child);
    YieldLike(a1, b1, c, o, p, PreSpawn, webs);
    var a2, b2 := Yield(a1, c, o, PreSpawn), Yield(b1, c, p, PreSpawn);
    var birth := Proc(a2.wall, None);
    EmitLike(a2.(procs := a2.procs[o.newPid := birth]), b2.(procs := b2.procs[o.newPid := birth]), Launched(Worker, o.newPid), webs);
  }

  lemma {:induction false} NoUsableWorkerLike(
    a: World, b: World, c: Settings, o: Oracle, p: Oracle, worker: Option<Registration>, child: Option<Child>, webs: set<int>)
    requires Like(a, b, webs) && Agree(o, p, webs) && OwnChild(child, webs)
    ensures Like(NoUsableWorker(a, c, o, worker, child).0, NoUsableWorker(b, c, p, worker, child).0, webs)
    ensures NoUsableWorker(a, c, o, worker, child).1 == NoUsableWorker(b, c, p, worker, child).1
  {
    var a1, b1 := a, b;
    if child.Some? {
      var pid := child.value.pid;
      YieldLike(a, b, c, o, p, PreAgePoll, webs);
      PollLike(Yield(a, c, o, PreAgePoll), Yield(b, c, p, PreAgePoll), pid, webs);
      a1, b1 := Poll(Yield(a, c, o, PreAgePoll), pid), Poll(Yield(b, c, p, PreAgePoll), pid);
    }
    if Active(worker) {
      RecoverLostLike(a1, b1, c, o, p, worker.value, webs);
      ReplaceLike(RecoverLost(a1, c, o, worker.value).0, RecoverLost(b1, c, p, worker.value).0, c, o, p, child, webs);
    } else {
      ReplaceLike(a1, b1, c, o, p, child, webs);
    }
  }

  lemma {:induction false} AssessLike(
    a: World, b: World, c: Settings, o: Oracle, p: Oracle, worker: Option<Registration>, webs: set<int>)
    requires Like(a, b, webs) && Agree(o, p, webs) && (worker.Some? ==> OwnPid(worker.value, webs))
    ensures var g, h := Assess(a, c, o, worker), Assess(b, c, p, worker);
            && Like(g.world, h.world, webs) && g.process == h.process && g.control == h.control
            && g.sampler == h.sampler && g.execution == h.execution
  {
    EmitLike(a, b, Read(worker), webs);
    YieldLike(Emit(a, Read(worker)), Emit(b, Read(worker)), c, o, p, PostRead, webs);
    var a1, b1 := Yield(Emit(a, Read(worker)), c, o, PostRead), Yield(Emit(b, Read(worker)), c, p, PostRead);
    YieldLike(a1, b1, c, o, p, PostProcess, webs);
    var a2, b2 := Yield(a1, c, o, PostProcess), Yield(b1, c, p, PostProcess);
    YieldLike(a2, b2, c, o, p, PostControl, webs);
    var a3, b3 := Yield(a2, c, o, PostControl), Yield(b2, c, p, PostControl);
    YieldLike(a3, b3, c, o, p, PostSampler, webs);
    var a4, b4 := Yield(a3, c, o, PostSampler), Yield(b3, c, p, PostSampler);
    if worker.Some? {
      ReadingsLike(a1, b1, c, worker.value, webs);
      ReadingsLike(a4, b4, c, worker.value, webs);
    }
    var g := Assess(a, c, o, worker);
    EmitLike(a4, b4, Assessed(g.process, g.control, g.sampler, g.execution), webs);
  }

  lemma {:induction false} BranchLike(
    a: World, b: World, c: Settings, o: Oracle, p: Oracle, worker: Option<Registration>, child: Option<Child>, g: Reading, h: Reading,
    webs: set<int>)
    requires Agree(o, p, webs) && (worker.Some? ==> OwnPid(worker.value, webs)) && OwnChild(child, webs)
    requires g == Assess(a, c, o, worker) && h == Assess(b, c, p, worker) && a.reg == worker && b.reg == worker
    requires Like(g.world, h.world, webs) && g.process == h.process && g.control == h.control
    requires g.sampler == h.sampler && g.execution == h.execution && o.mishap(ReadRow) == Fine
    ensures Like(SuperviseOnce.SuperviseOnce(a, c, o, child).0, SuperviseOnce.SuperviseOnce(b, c, p, child).0, webs)
    ensures SuperviseOnce.SuperviseOnce(a, c, o, child).1 == SuperviseOnce.SuperviseOnce(b, c, p, child).1
  {
    if !g.process {
      NoUsableWorkerLike(g.world, h.world, c, o, p, worker, child, webs);
    } else if Excused(g) {
      UsableWorkerLike(g.world, h.world, c, o, p, worker.value, child, webs);
    } else {
      StaleLoopLike(g.world, h.world, c, o, p, worker.value, child, webs);
    }
  }

  /** The whole call: like worlds stay alike, and the outcome is the same. */
  lemma {:induction false} CallLike(a: World, b: World, c: Settings, o: Oracle, p: Oracle, child: Option<Child>, webs: set<int>)
    requires Like(a, b, webs) && Agree(o, p, webs) && OwnChild(child, webs)
    ensures Like(SuperviseOnce.SuperviseOnce(a, c, o, child).0, SuperviseOnce.SuperviseOnce(b, c, p, child).0, webs)
    ensures SuperviseOnce.SuperviseOnce(a, c, o, child).1 == SuperviseOnce.SuperviseOnce(b, c, p, child).1
  {
    if o.mishap(ReadRow) == Fine {
      AssessLike(a, b, c, o, p, a.reg, webs);
      BranchLike(a, b, c, o, p, a.reg, child, Assess(a, c, o, a.reg), Assess(b, c, p, a.reg), webs);
    }
  }

  /** A launcher the call returns is the one it was given or the one it started. */
  lemma {:induction false} CallReturns(w: World, c: Settings, o: Oracle, child: Option<Child>)
    ensures var out := SuperviseOnce.SuperviseOnce(w, c, o, child).1;
            out.Returned? && out.child.Some? ==> out.child == child || out.child.value.pid == o.newPid
  {
  }
}
