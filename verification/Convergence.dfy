/**
 Recovery converges: when signals and transactions work and nothing else moves, a few calls of
 `_supervise_once` lead from any state to a usable worker or a tracked running launcher. Two calls
 are enough unless the first one cancels the only executions that excused a stale control loop.
 */
module Convergence {
  import opened Common
  import opened Timeline
  import opened JobTable
  import opened Runtime
  import opened SuperviseOnce
  import opened Launchers

  /** The launcher `main` tracks still runs, or the registered worker is usable. */
  predicate Served(w: World, c: Settings, child: Option<Child>) {
    || (child.Some? && StillRuns(w, child.value.pid))
    || (ProcessAlive(w, c, w.reg) && (ControlAlive(w, c, w.reg) || (ExecutionAlive(w, c, w.reg.value) && SamplerAlive(w, c, w.reg))))
  }

  /** Nothing else moves, no call fails, signals are deadly, and the next process id is a new one. */
  ghost predicate Quiet(w: World, o: Oracle) {
    && w.blind == {}
    && (forall p :: o.env(p) == [])
    && (forall x :: o.mishap(x) == Fine)
    && o.workerDies && o.launcherDies && o.newPid !in w.procs
  }

  /** Equal up to the timeline. */
  predicate Alike(a: World, b: World) {
    a.store.jobs == b.store.jobs && a.reg == b.reg && a.procs == b.procs && a.blind == b.blind && a.wall == b.wall && a.mono == b.mono
  }

  function Call(w: World, c: Settings, o: Oracle, child: Option<Child>): (World, Option<Child>) {
    var (w', out) := SuperviseOnce.SuperviseOnce(w, c, o, child);
    (w', Next(out, child))
  }

  lemma {:induction false} QuietAssess(w: World, c: Settings, o: Oracle)
    requires Quiet(w, o)
    ensures var g := Assess(w, c, o, w.reg);
            && Alike(g.world, w)
            && g.process == ProcessAlive(w, c, w.reg) && g.control == ControlAlive(w, c, w.reg)
            && g.sampler == SamplerAlive(w, c, w.reg)
            && (g.execution <==> g.process && !g.control && ExecutionAlive(w, c, w.reg.value))
  {
    var w0 := Emit(w, Read(w.reg));
    assert Yield(w0, c, o, PostRead) == w0;
    assert Yield(w0, c, o, PostProcess) == w0;
    assert Yield(w0, c, o, PostControl) == w0;
    assert Yield(w0, c, o, PostSampler) == w0;
    if w.reg.Some? {
      AlikeExecution(w0, w, c, w.reg.value);
    }
  }

  lemma {:induction false} AlikeExecution(a: World, b: World, c: Settings, r: Registration)
    requires Alike(a, b)
    ensures ExecutionAlive(a, c, r) == ExecutionAlive(b, c, r)
  {
    assert forall id :: Executing(a, c, r, id) == Executing(b, c, r, id);
  }

  /** Durable recovery touches neither processes nor clocks. */
  lemma {:induction false} QuietRecover(w: World, c: Settings, o: Oracle, r: Registration)
    requires Quiet(w, o)
    ensures var (w', ok) := RecoverLost(w, c, o, r);
            && ok && w'.procs == w.procs && w'.mono == w.mono && w'.blind == w.blind
            && (SameRegistration(w.reg, r) ==> !Active(w'.reg))
  {
    assert Yield(w, c, o, PreFence) == w;
  }

  lemma {:induction false} QuietReplace(w: World, c: Settings, o: Oracle, child: Option<Child>)
    requires Quiet(w, o)
    ensures var (w', out) := Replace(w, c, o, child);
            out.Returned? && out.child.Some? && StillRuns(w', out.child.value.pid)
  {
    if child.Some? {
      assert Yield(w, c, o, PreReplacePoll) == w;
      var w1 := Poll(w, child.value.pid);
      assert Yield(w1, c, o, PreSignal) == w1;
    }
    var w2 := StopRunning(w, c, o, child);
    assert Yield(w2, c, o, PreSpawn) == w2;
    assert w2.procs.Keys == w.procs.Keys;
  }

  /** With no usable worker, one call is enough. */
  lemma {:induction false} QuietLaunch(w: World, c: Settings, o: Oracle, child: Option<Child>)
    requires Quiet(w, o) && !ProcessAlive(w, c, w.reg)
    ensures var (w', child') := Call(w, c, o, child); Served(w', c, child')
  {
    QuietAssess(w, c, o);
    var w0 := Assess(w, c, o, w.reg).world;
    var w1 := w0;
    if child.Some? {
      assert Yield(w0, c, o, PreAgePoll) == w0;
      w1 := Poll(w0, child.value.pid);
    }
    if Active(w.reg) {
      QuietRecover(w1, c, o, w.reg.value);
      QuietReplace(RecoverLost(w1, c, o, w.reg.value).0, c, o, child);
    } else {
      QuietReplace(w1, c, o, child);
    }
  }

  /** Signals are deadly: afterwards the registered process is gone, whatever else was stopped. */
  lemma {:induction false} QuietTerminate(w: World, c: Settings, o: Oracle, r: Registration, child: Option<Child>)
    requires Quiet(w, o)
    ensures var w' := TerminateInstance(w, c, o, r, child);
            && !IsAlive(w', r.pid, r.started) && w'.procs.Keys == w.procs.Keys
            && w'.reg == w.reg && w'.store.jobs == w.store.jobs && w'.blind == {} && w'.wall == w.wall
  {
    assert Yield(w, c, o, PreKill) == w;
    var w1 := KillRegistered(w, c, o, r);
    assert !IsAlive(w1, r.pid, r.started);
    if child.Some? {
      assert Yield(w1, c, o, PreKillPoll) == w1;
      var w2 := Poll(w1, child.value.pid);
      assert Yield(w2, c, o, PreSignal) == w2;
    }
  }

  /** A condemned worker is stopped and retired: nothing is served, and nothing is active. */
  lemma {:induction false} QuietStale(w: World, c: Settings, o: Oracle, child: Option<Child>)
    requires Quiet(w, o) && ProcessAlive(w, c, w.reg) && !ControlAlive(w, c, w.reg)
    requires !(ExecutionAlive(w, c, w.reg.value) && SamplerAlive(w, c, w.reg))
    ensures var (w', child') := Call(w, c, o, child);
            child'.None? && !ProcessAlive(w', c, w'.reg) && !Served(w', c, child') && w'.procs.Keys == w.procs.Keys && w'.blind == {}
  {
    QuietAssess(w, c, o);
    var w0 := Assess(w, c, o, w.reg).world;
    var r := w.reg.value;
    QuietTerminate(w0, c, o, r, child);
    var w1 := TerminateInstance(w0, c, o, r, child);
    assert Yield(w1, c, o, PostKill) == w1;
    QuietRecover(Emit(w1, FoundDead(PidOf(r))), c, o, r);
  }

  // ---- A usable worker -------------------------------------------------------------------------

  /** The watchdog or, under critical memory, the worker-loss fence takes this row. */
  ghost predicate Taken(w: World, c: Settings, o: Oracle, r: Registration, id: JobId) {
    || (exists g :: g in o.sightings && g.job == id && StillOverdue(w.store, c.worker, r.instance, o.rows(Watchdog), g))
    || (o.critical && Hit(w.store, c.worker, r.instance, o.rows(FenceJobs), o.rows(FenceJobs).order, id))
  }

  lemma {:induction false} QuietFence(w: World, c: Settings, o: Oracle, r: Registration, id: JobId)
    requires Quiet(w, o) && id in w.store.jobs
    ensures var (w', ids) := FenceUsable(w, c, o, r);
            && ids.Some? && (id in ids.value <==> Taken(w, c, o, r, id) && !w.store.jobs[id].cancel)
            && id in w'.store.jobs
            && (if Taken(w, c, o, r, id) then w'.store.jobs[id].status != Running else w'.store.jobs[id] == w.store.jobs[id])
  {
    assert Yield(w, c, o, PreWatchdog) == w;
    var rows := o.rows(Watchdog);
    FenceStalledExact(w.store, c.worker, r.instance, rows, o.sightings, id);
    var (w1, frozen) := FenceFrozen(w, c, o, r);
    assert Yield(w1, c, o, PreFence) == w1;
    if o.critical {
      var lost := o.rows(FenceJobs);
      ReconcileRows(w1.store, c.worker, r.instance, true, lost, lost.order, id);
      ReconcileLists(w1.store, c.worker, r.instance, true, lost, lost.order, id);
    }
  }

  lemma {:induction false} QuietFenceFrame(w: World, c: Settings, o: Oracle, r: Registration)
    requires Quiet(w, o)
    ensures var (w', ids) := FenceUsable(w, c, o, r);
            && w'.reg == w.reg && w'.procs == w.procs && w'.blind == w.blind && w'.wall == w.wall
            && w'.store.jobs.Keys == w.store.jobs.Keys
            && (ids.Some? ==> forall id | id in ids.value :: id in w.store.jobs)
  {
    assert Yield(w, c, o, PreWatchdog) == w;
    var w1 := FenceFrozen(w, c, o, r).0;
    assert Yield(w1, c, o, PreFence) == w1;
  }

  lemma {:induction false} QuietTrack(w: World, c: Settings, o: Oracle, r: Registration, child: Option<Child>)
    requires Quiet(w, o) && w.reg == Some(r) && IsAlive(w, r.pid, r.started)
    ensures var (w', kept) := TrackLauncher(w, c, o, r, child);
            && w'.store.jobs == w.store.jobs && w'.procs == w.procs && w'.blind == w.blind && w'.wall == w.wall
            && w'.reg.Some? && w'.reg.value.(launcher := r.launcher) == r
            && (kept.Some? <==> child.Some? && StillRuns(w, child.value.pid)) && (kept.Some? ==> kept == child)
  {
    if child.Some? {
      assert Yield(w, c, o, PreAssociate) == w;
      var w1 := AssociateLauncher(w, c, o, r, child.value.pid);
      assert Yield(w1, c, o, PreTrackPoll) == w1;
    }
  }

  /** Some fresh execution of the instance survives the fences of this call. */
  ghost predicate BeatsOn(w: World, c: Settings, o: Oracle, r: Registration) {
    exists id | id in w.store.jobs :: Executing(w, c, r, id) && !Taken(w, c, o, r, id)
  }

  ghost predicate TakesSome(w: World, c: Settings, o: Oracle, r: Registration) {
    exists id | id in w.store.jobs :: Taken(w, c, o, r, id) && !w.store.jobs[id].cancel
  }

  /**
   The one case that needs a third call: a stale control loop excused by executions alone, all of
   which this call's fences cancel at their owners' request, with no other job to recycle for and
   no launcher running.
   */
  ghost predicate ExcuseCancelled(w: World, c: Settings, o: Oracle, child: Option<Child>) {
    && ProcessAlive(w, c, w.reg) && !ControlAlive(w, c, w.reg)
    && SamplerAlive(w, c, w.reg) && ExecutionAlive(w, c, w.reg.value)
    && !(child.Some? && StillRuns(w, child.value.pid))
    && !TakesSome(w, c, o, w.reg.value) && !BeatsOn(w, c, o, w.reg.value)
  }

  /** The fences of one call, row by row: a job comes back stalled exactly when some row is taken uncancelled. */
  lemma {:induction false} QuietFences(w: World, c: Settings, o: Oracle, r: Registration)
    requires Quiet(w, o)
    ensures var (w', ids) := FenceUsable(w, c, o, r);
            && ids.Some? && (ids.value != [] <==> TakesSome(w, c, o, r))
            && w'.store.jobs.Keys == w.store.jobs.Keys
            && (forall id | id in w.store.jobs ::
                  if Taken(w, c, o, r, id) then w'.store.jobs[id].status != Running else w'.store.jobs[id] == w.store.jobs[id])
  {
    QuietFenceReturns(w, c, o, r);
    QuietFenceFrame(w, c, o, r);
    var (w', ids) := FenceUsable(w, c, o, r);
    forall id | id in w.store.jobs
      ensures id in ids.value <==> Taken(w, c, o, r, id) && !w.store.jobs[id].cancel
      ensures if Taken(w, c, o, r, id) then w'.store.jobs[id].status != Running else w'.store.jobs[id] == w.store.jobs[id]
    {
      QuietFence(w, c, o, r, id);
    }
    if ids.value != [] {
      assert ids.value[0] in w.store.jobs;
    }
  }

  /** An excused worker that loses a job is stopped and retired. */
  lemma {:induction false} QuietRecycled(w: World, c: Settings, o: Oracle, child: Option<Child>)
    requires Quiet(w, o) && ProcessAlive(w, c, w.reg) && TakesSome(w, c, o, w.reg.value)
    requires ControlAlive(w, c, w.reg) || (ExecutionAlive(w, c, w.reg.value) && SamplerAlive(w, c, w.reg))
    ensures var (w', child') := Call(w, c, o, child); child'.None? && !ProcessAlive(w', c, w'.reg)
  {
    QuietAssess(w, c, o);
    var w0 := Assess(w, c, o, w.reg).world;
    var r := w.reg.value;
    QuietTrack(w0, c, o, r, child);
    var (w1, kept) := TrackLauncher(w0, c, o, r, child);
    QuietFenceFrame(w1, c, o, r);
    QuietFences(w1, c, o, r);
    TakesAlike(w1, w, c, o, r);
    var (w2, stalled) := FenceUsable(w1, c, o, r);
    QuietRecycle(w2, c, o, r, kept, stalled.value);
  }

  lemma {:induction false} QuietRecycle(w: World, c: Settings, o: Oracle, r: Registration, child: Option<Child>, ids: seq<JobId>)
    requires Quiet(w, o) && w.reg.Some? && w.reg.value.pid == r.pid && w.reg.value.started == r.started
    ensures var (w', out) := Recycle(w, c, o, r, child, ids); out == Returned(None) && !ProcessAlive(w', c, w'.reg)
  {
    QuietTerminate(w, c, o, r, child);
    QuietRequeue(TerminateInstance(w, c, o, r, child), c, o, r, ids);
  }

  /** An excused worker that loses no job stays as it was, but for executions cancelled on request. */
  lemma {:induction false} QuietKept(w: World, c: Settings, o: Oracle, child: Option<Child>)
    requires Quiet(w, o) && ProcessAlive(w, c, w.reg) && !TakesSome(w, c, o, w.reg.value)
    requires ControlAlive(w, c, w.reg) || (ExecutionAlive(w, c, w.reg.value) && SamplerAlive(w, c, w.reg))
    ensures var (w', child') := Call(w, c, o, child);
            && w'.procs == w.procs && w'.blind == w.blind && w'.wall == w.wall
            && w'.reg.Some? && w'.reg.value.(launcher := w.reg.value.launcher) == w.reg.value
            && (child'.Some? <==> child.Some? && StillRuns(w, child.value.pid)) && (child'.Some? ==> child' == child)
            && (ExecutionAlive(w', c, w'.reg.value) <==> ExecutionAlive(w, c, w.reg.value) && BeatsOn(w, c, o, w.reg.value))
  {
    QuietAssess(w, c, o);
    var w0 := Assess(w, c, o, w.reg).world;
    var r := w.reg.value;
    QuietTrack(w0, c, o, r, child);
    var w1 := TrackLauncher(w0, c, o, r, child).0;
    QuietFenceFrame(w1, c, o, r);
    QuietFences(w1, c, o, r);
    TakesAlike(w1, w, c, o, r);
    QuietExecution(w, FenceUsable(w1, c, o, r).0, c, o, r);
  }

  lemma {:induction false} TakenAlike(a: World, b: World, c: Settings, o: Oracle, r: Registration, id: JobId)
    requires a.store.jobs == b.store.jobs
    ensures Taken(a, c, o, r, id) == Taken(b, c, o, r, id)
  {
    assert forall g :: StillOverdue(a.store, c.worker, r.instance, o.rows(Watchdog), g)
                       == StillOverdue(b.store, c.worker, r.instance, o.rows(Watchdog), g);
  }

  lemma {:induction false} TakesAlike(a: World, b: World, c: Settings, o: Oracle, r: Registration)
    requires a.store.jobs == b.store.jobs
    ensures TakesSome(a, c, o, r) == TakesSome(b, c, o, r)
    ensures forall id :: Taken(a, c, o, r, id) == Taken(b, c, o, r, id)
  {
    forall id: JobId ensures Taken(a, c, o, r, id) == Taken(b, c, o, r, id) {
      TakenAlike(a, b, c, o, r, id);
    }
  }

  lemma {:induction false} QuietFenceReturns(w: World, c: Settings, o: Oracle, r: Registration)
    requires Quiet(w, o)
    ensures FenceUsable(w, c, o, r).1.Some?
  {
  }

  lemma {:induction false} QuietRequeue(w: World, c: Settings, o: Oracle, r: Registration, ids: seq<JobId>)
    requires Quiet(w, o)
    ensures var (w', ok) := RetireAndRequeue(w, c, o, r, ids);
            && ok && w'.procs == w.procs && w'.blind == w.blind && w'.wall == w.wall
            && (w'.reg == w.reg || !Active(w'.reg))
  {
    assert Yield(w, c, o, PreRetire) == w;
    var w1 := Retire(w, c, o, r);
    assert Yield(w1, c, o, PreRequeue) == w1;
  }

  lemma {:induction false} QuietExecution(w: World, w': World, c: Settings, o: Oracle, r: Registration)
    requires w.reg == Some(r) && w'.reg.Some? && w'.reg.value.(launcher := r.launcher) == r && w'.wall == w.wall
    requires w'.store.jobs.Keys == w.store.jobs.Keys
    requires forall id | id in w.store.jobs ::
               if Taken(w, c, o, r, id) then w'.store.jobs[id].status != Running else w'.store.jobs[id] == w.store.jobs[id]
    ensures ExecutionAlive(w', c, w'.reg.value) <==> ExecutionAlive(w, c, r) && BeatsOn(w, c, o, r)
  {
    if ExecutionAlive(w', c, w'.reg.value) {
      var id :| id in w'.store.jobs && Executing(w', c, w'.reg.value, id);
      assert Executing(w, c, r, id) && !Taken(w, c, o, r, id);
    }
    if ExecutionAlive(w, c, r) && BeatsOn(w, c, o, r) {
      var id :| id in w.store.jobs && Executing(w, c, r, id) && !Taken(w, c, o, r, id);
      assert Executing(w', c, w'.reg.value, id);
    }
  }

  // ---- The theorems ----------------------------------------------------------------------------

  lemma {:induction false} TwoCallsExcused(w: World, c: Settings, child: Option<Child>, o1: Oracle, o2: Oracle)
    requires Quiet(w, o1) && ProcessAlive(w, c, w.reg)
    requires Quiet(Call(w, c, o1, child).0, o2)
    requires ControlAlive(w, c, w.reg) || (ExecutionAlive(w, c, w.reg.value) && SamplerAlive(w, c, w.reg))
    ensures var (w1, child1) := Call(w, c, o1, child);
            var (w2, child2) := Call(w1, c, o2, child1);
            (Served(w1, c, child1) || Served(w2, c, child2)) <==> !ExcuseCancelled(w, c, o1, child)
  {
    var (w1, child1) := Call(w, c, o1, child);
    if TakesSome(w, c, o1, w.reg.value) {
      QuietRecycled(w, c, o1, child);
      QuietLaunch(w1, c, o2, child1);
    } else {
      QuietKept(w, c, o1, child);
      if ExcuseCancelled(w, c, o1, child) {
        QuietStale(w1, c, o2, child1);
      }
    }
  }

  /** Two quiet calls serve, exactly when the excuse of a stale control loop is not cancelled away. */
  lemma {:induction false} TwoCalls(w: World, c: Settings, child: Option<Child>, o1: Oracle, o2: Oracle)
    requires Quiet(w, o1)
    requires Quiet(Call(w, c, o1, child).0, o2)
    ensures var (w1, child1) := Call(w, c, o1, child);
            var (w2, child2) := Call(w1, c, o2, child1);
            (Served(w1, c, child1) || Served(w2, c, child2)) <==> !ExcuseCancelled(w, c, o1, child)
  {
    var (w1, child1) := Call(w, c, o1, child);
    if !ProcessAlive(w, c, w.reg) {
      QuietLaunch(w, c, o1, child);
    } else if ControlAlive(w, c, w.reg) || (ExecutionAlive(w, c, w.reg.value) && SamplerAlive(w, c, w.reg)) {
      TwoCallsExcused(w, c, child, o1, o2);
    } else {
      QuietStale(w, c, o1, child);
      QuietLaunch(w1, c, o2, child1);
    }
  }

  /** Three quiet calls always serve. */
  lemma {:induction false} ThreeCalls(w: World, c: Settings, child: Option<Child>, o1: Oracle, o2: Oracle, o3: Oracle)
    requires Quiet(w, o1)
    requires Quiet(Call(w, c, o1, child).0, o2)
    requires var (w1, child1) := Call(w, c, o1, child); Quiet(Call(w1, c, o2, child1).0, o3)
    ensures var (w1, child1) := Call(w, c, o1, child);
            var (w2, child2) := Call(w1, c, o2, child1);
            var (w3, child3) := Call(w2, c, o3, child2);
            Served(w1, c, child1) || Served(w2, c, child2) || Served(w3, c, child3)
  {
    TwoCalls(w, c, child, o1, o2);
    var (w1, child1) := Call(w, c, o1, child);
    var (w2, child2) := Call(w1, c, o2, child1);
    if ExcuseCancelled(w, c, o1, child) {
      QuietKept(w, c, o1, child);
      QuietStale(w1, c, o2, child1);
      QuietLaunch(w2, c, o3, child2);
    }
  }

  /** A stale worker whose only execution has a cancellation request: the concrete need for a third call. */
  lemma {:induction false} OneRunning(job: Job)
    requires job == Job(Running, Some("worker"), Some("instance"), Some(0), Some(0), Some(0), 1, None, "", "", true, 0, 0, None, 0, false)
    ensures Ledger(Store(map[1 := job], 1, [Claimed(1, 0, Some("instance"))]))
  {
    var before := Store(map[1 := job.(token := None, status := Queued, sequence := 0)], 0, []);
    assert Ledger(before);
    ClaimKeeps(before, 1, "worker", Some("instance"), 0);
    assert Claim(before, 1, "worker", Some("instance"), 0) == Store(map[1 := job], 1, [Claimed(1, 0, Some("instance"))]);
  }

  lemma {:induction false} ThirdCallNeeded() returns (w: World, c: Settings, o: Oracle)
    ensures Ledger(w.store) && Quiet(w, o) && ExcuseCancelled(w, c, o, None)
  {
    c := Settings("worker", 30_000_000, 3);
    var job := Job(Running, Some("worker"), Some("instance"), Some(0), Some(0), Some(0), 1, None, "", "", true, 0, 0, None, 0, false);
    var r := Registration(Some("instance"), 1, Some(7), None, None, 0, None, Some(0), None, false);
    w := World(Store(map[1 := job], 1, [Claimed(1, 0, Some("instance"))]), Some(r), map[7 := Proc(0, None)], {}, 0, 0);
    OneRunning(job);
    var sighting := Sighting(1, Some(0), 1, Some(0), None, 0);
    o := Oracle(_ => [], _ => Fine, _ => Rows([1], {1}, {}), [sighting], false, true, true, 8);
    assert sighting in o.sightings && StillOverdue(w.store, c.worker, r.instance, o.rows(Watchdog), sighting);
    assert Executing(w, c, r, 1) && 1 in w.store.jobs;
  }
}
