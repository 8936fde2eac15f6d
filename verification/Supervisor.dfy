/**
 The supervisor process itself: the fields `main` and its helpers update in place, each method tied
 to the specification function of the same step and carrying what that step promises.
 */
module Supervisor {
  import opened Common
  import opened Timeline
  import opened JobTable
  import opened Runtime
  import opened SuperviseOnce
  import opened RestartBudget
  import opened SupervisorLoop
  import opened LoopSafety
  import opened LoopTheorems
  import LoopDiscipline

  class Process {
    const settings: Settings
    const webRestarts: RestartTracker
    const workerRestarts: RestartTracker
    var world: World
    var child: Option<Child>
    var web: Option<Child>
    var owns: bool
    var deadline: int
    var done: bool

    ghost predicate Valid()
      reads this
    {
      webRestarts != workerRestarts
    }

    ghost function State(): Loop
      reads this, webRestarts, workerRestarts
    {
      Loop(world, child, web, webRestarts.Value(), workerRestarts.Value(), owns, deadline, done)
    }

    constructor (settings: Settings, world: World, deadline: int, limit: nat, window: nat)
      ensures Valid() && fresh(webRestarts) && fresh(workerRestarts)
      ensures this.settings == settings
      ensures State() == Loop(world, None, None, NewBudget(limit, window), NewBudget(limit, window), false, deadline, false)
    {
      this.settings := settings;
      webRestarts := new RestartTracker(limit, window);
      workerRestarts := new RestartTracker(limit, window);
      this.world := world;
      child := None;
      web := None;
      owns := false;
      this.deadline := deadline;
      done := false;
    }

    // ---- Steps of the helpers ------------------------------------------------------------------

    method Log(e: Event)
      modifies this`world
      ensures world == Emit(old(world), e)
    {
      world := Emit(world, e);
    }

    /** The rest of the system moves. */
    method Wait(steps: seq<Step>)
      modifies this`world
      ensures world == Env(old(world), settings, steps)
    {
      ghost var before := world;
      for k := 0 to |steps|
        invariant world == Env(before, settings, steps[..k])
      {
        assert Init(steps[..k + 1]) == steps[..k];
        world := Do(world, settings, steps[k]);
      }
      assert steps[..|steps|] == steps;
    }

    method TerminateLauncher(o: Oracle, pid: int)
      modifies this`world
      ensures world == SuperviseOnce.TerminateLauncher(old(world), settings, o, pid)
      ensures LauncherStopped(old(world), world, o, pid)
    {
      LauncherStops(world, settings, o, pid);
      Wait(o.env(PreSignal));
      if !StillRuns(world, pid) {
        Log(ExitSeen(pid));
      } else if o.mishap(SignalLauncher) == Fine {
        Log(KillLauncher(pid));
        if o.launcherDies {
          world := world.(procs := ExitProc(world.procs, pid, KILLED));
        }
      }
    }

    method TerminateWorkerInstance(o: Oracle, r: Registration, launcher: Option<Child>)
      modifies this`world
      ensures world == TerminateInstance(old(world), settings, o, r, launcher)
      ensures InstanceStopped(old(world), world, o, r, launcher)
    {
      InstanceStops(world, settings, o, r, launcher);
      Wait(o.env(PreKill));
      if IsAlive(world, r.pid, r.started) && o.mishap(SignalWorker) == Fine {
        Log(KillWorker(r.pid.value));
        if o.workerDies {
          world := world.(procs := ExitProc(world.procs, r.pid.value, KILLED));
        }
      }
      assert world == KillRegistered(old(world), settings, o, r);
      if launcher.Some? {
        Wait(o.env(PreKillPoll));
        var pid := launcher.value.pid;
        if !StillRuns(world, pid) {
          Log(ExitSeen(pid));
        } else if Some(pid) != r.pid {
          TerminateLauncher(o, pid);
        }
      }
    }

    /** `reconcile_jobs_for_worker_loss` walks the locked rows and takes each one back. */
    method FenceWorker(o: Oracle, r: Registration, memory: bool) returns (fenced: Option<seq<JobId>>)
      modifies this`world
      ensures (world, fenced) == FenceLost(old(world), settings, o, r, memory)
    {
      Wait(o.env(PreFence));
      if o.mishap(FenceJobs) == RolledBack {
        return None;
      }
      var rows := o.rows(FenceJobs);
      ghost var before := world.store;
      var rec := Reconciliation([], [], []);
      var store := world.store;
      for k := 0 to |rows.order|
        invariant (store, rec) == Reconcile(before, settings.worker, r.instance, memory, rows, rows.order[..k])
        invariant world.store == before
      {
        assert Init(rows.order[..k + 1]) == rows.order[..k];
        var id := rows.order[k];
        if id in store.jobs && OwnedBy(store.jobs[id], settings.worker, r.instance) {
          if !Lockable(store, rows, id) {
            rec := rec.(untouched := rec.untouched + [id]);
          } else if store.jobs[id].cancel {
            rec := rec.(cancelled := rec.cancelled + [id]);
            store := Revoke(store, id, LostRow(store.jobs[id], memory));
          } else {
            rec := rec.(fenced := rec.fenced + [id]);
            store := Revoke(store, id, LostRow(store.jobs[id], memory));
          }
        }
      }
      assert rows.order[..|rows.order|] == rows.order;
      world := world.(store := store);
      Log(Fenced(r.instance, rec.fenced));
      fenced := if o.mishap(FenceJobs) == Fine then Some(rec.fenced) else None;
    }

    /** `fence_stalled_jobs` re-reads every sighting under its lock before it fences. */
    method FenceNoProgress(o: Oracle, r: Registration) returns (fenced: Option<seq<JobId>>)
      modifies this`world
      ensures (world, fenced) == FenceFrozen(old(world), settings, o, r)
    {
      Wait(o.env(PreWatchdog));
      if o.mishap(Watchdog) == RolledBack {
        return None;
      }
      var rows := o.rows(Watchdog);
      ghost var before := world.store;
      var ids: seq<JobId> := [];
      var store := world.store;
      for k := 0 to |o.sightings|
        invariant (store, ids) == FenceStalled(before, settings.worker, r.instance, rows, o.sightings[..k])
        invariant world.store == before
      {
        assert Init(o.sightings[..k + 1]) == o.sightings[..k];
        var g := o.sightings[k];
        if StillOverdue(store, settings.worker, r.instance, rows, g) {
          if !store.jobs[g.job].cancel {
            ids := ids + [g.job];
          }
          store := Revoke(store, g.job, FrozenRow(store.jobs[g.job]));
        }
      }
      assert o.sightings[..|o.sightings|] == o.sightings;
      world := world.(store := store);
      Log(Fenced(r.instance, ids));
      fenced := if o.mishap(Watchdog) == Fine then Some(ids) else None;
    }

    method RetireRegistration(o: Oracle, r: Registration)
      modifies this`world
      ensures world == Retire(old(world), settings, o, r)
      ensures RegistrationRetired(old(world), world, o, r)
    {
      RegistrationRetires(world, settings, o, r);
      Wait(o.env(PreRetire));
      Log(Retired(r));
      if SameRegistration(world.reg, r) && o.mishap(RetireRow) != RolledBack {
        world := world.(reg := Some(world.reg.value.(heartbeat := world.wall, stopping := Some(world.wall))));
      }
    }

    method RequeueFenced(o: Oracle, ids: seq<JobId>) returns (ok: bool)
      modifies this`world
      ensures (world, ok) == RequeueIds(old(world), settings, o, ids)
    {
      if ids == [] {
        return true;
      }
      Wait(o.env(PreRequeue));
      Log(Requeue(ids));
      if o.mishap(RequeueJobs) == RolledBack {
        return false;
      }
      var rows := o.rows(RequeueJobs);
      ghost var before := world.store;
      var store := world.store;
      for k := 0 to |rows.order|
        invariant store == RequeueStalled(before, ids, settings.recoveryLimit, rows, rows.order[..k])
        invariant world.store == before
      {
        assert Init(rows.order[..k + 1]) == rows.order[..k];
        var id := rows.order[k];
        if Requeueable(store, ids, rows, id) {
          store := RequeueRow(store, id, settings.recoveryLimit);
        }
      }
      assert rows.order[..|rows.order|] == rows.order;
      world := world.(store := store);
      ok := o.mishap(RequeueJobs) == Fine;
    }

    /** Fence the instance, retire it, requeue what was fenced. */
    method Recover(o: Oracle, r: Registration) returns (ok: bool)
      modifies this`world
      ensures (world, ok) == RecoverLost(old(world), settings, o, r)
    {
      var fenced := FenceWorker(o, r, false);
      if fenced.None? {
        return false;
      }
      RetireRegistration(o, r);
      ok := RequeueFenced(o, fenced.value);
    }

    // ---- `_supervise_once` ---------------------------------------------------------------------

    method ReplaceWorker(o: Oracle) returns (out: Outcome)
      modifies this`world
      ensures (world, out) == Replace(old(world), settings, o, child)
    {
      if child.Some? {
        Wait(o.env(PreReplacePoll));
        if !StillRuns(world, child.value.pid) {
          Log(ExitSeen(child.value.pid));
        } else {
          TerminateLauncher(o, child.value.pid);
        }
      }
      Wait(o.env(PreSpawn));
      if o.mishap(SpawnChild) != Fine || o.newPid in world.procs {
        return Raised;
      }
      world := world.(procs := world.procs[o.newPid := Proc(world.wall, None)]);
      Log(Launched(Worker, o.newPid));
      out := Returned(Some(Child(o.newPid, world.mono)));
    }

    method HandleNoUsableWorker(o: Oracle, worker: Option<Registration>) returns (out: Outcome)
      modifies this`world
      ensures (world, out) == NoUsableWorker(old(world), settings, o, worker, child)
    {
      if child.Some? {
        Wait(o.env(PreAgePoll));
        if !StillRuns(world, child.value.pid) {
          Log(ExitSeen(child.value.pid));
        } else if !Active(worker) && world.mono - child.value.at < REGISTRATION_TIMEOUT {
          return Returned(child);
        }
      }
      if Active(worker) {
        var ok := Recover(o, worker.value);
        if !ok {
          return Raised;
        }
      }
      out := ReplaceWorker(o);
    }

    method HandleStaleLoop(o: Oracle, r: Registration) returns (out: Outcome)
      modifies this`world
      ensures (world, out) == StaleLoop(old(world), settings, o, r, child)
    {
      TerminateWorkerInstance(o, r, child);
      Wait(o.env(PostKill));
      if IsAlive(world, r.pid, r.started) {
        return Returned(child);
      }
      Log(FoundDead(PidOf(r)));
      var ok := Recover(o, r);
      out := if ok then Returned(None) else Raised;
    }

    method KeepLauncher(o: Oracle, r: Registration) returns (kept: Option<Child>)
      modifies this`world
      ensures (world, kept) == TrackLauncher(old(world), settings, o, r, child)
    {
      kept := child;
      if child.Some? {
        var pid := child.value.pid;
        Wait(o.env(PreAssociate));
        if r.instance.Some? && r.launcher != Some(pid) && o.mishap(Associate) != RolledBack
           && world.reg.Some? && world.reg.value.instance == r.instance && world.reg.value.stopping.None?
        {
          world := world.(reg := Some(world.reg.value.(launcher := Some(pid))));
        }
        assert world == AssociateLauncher(old(world), settings, o, r, pid);
        Wait(o.env(PreTrackPoll));
        if !StillRuns(world, pid) {
          Log(ExitSeen(pid));
          if Some(pid) != r.pid {
            kept := None;
          }
        }
      }
    }

    method FenceUsableWorker(o: Oracle, r: Registration) returns (stalled: Option<seq<JobId>>)
      modifies this`world
      ensures (world, stalled) == FenceUsable(old(world), settings, o, r)
    {
      stalled := FenceNoProgress(o, r);
      if stalled.Some? && o.critical {
        var lost := FenceWorker(o, r, true);
        stalled := if lost.None? then None else Some(stalled.value + lost.value);
      }
    }

    method HandleUsableWorker(o: Oracle, r: Registration) returns (out: Outcome)
      modifies this`world
      ensures (world, out) == UsableWorker(old(world), settings, o, r, child)
    {
      var kept := KeepLauncher(o, r);
      var stalled := FenceUsableWorker(o, r);
      if stalled.None? {
        return Raised;
      }
      if stalled.value == [] {
        return Returned(kept);
      }
      TerminateWorkerInstance(o, r, kept);
      RetireRegistration(o, r);
      var ok := RequeueFenced(o, stalled.value);
      out := if ok then Returned(None) else Raised;
    }

    method SuperviseWorker(o: Oracle) returns (out: Outcome)
      modifies this`world
      ensures (world, out) == SuperviseOnce.SuperviseOnce(old(world), settings, o, child)
      ensures WorkerSupervised(old(world), world, out)
    {
      WorkerSupervises(world, settings, o, child);
      if o.mishap(ReadRow) != Fine {
        return Raised;
      }
      ghost var before := world;
      var worker := world.reg;
      Log(Read(worker));
      Wait(o.env(PostRead));
      var processAlive := ProcessAlive(world, settings, worker);
      Wait(o.env(PostProcess));
      var controlAlive := ControlAlive(world, settings, worker);
      Wait(o.env(PostControl));
      var samplerAlive := SamplerAlive(world, settings, worker);
      Wait(o.env(PostSampler));
      var executionAlive := false;
      if processAlive && !controlAlive && o.mishap(ExecutionQuery) == Fine {
        executionAlive := ExecutionAlive(world, settings, worker.value);
      }
      Log(Assessed(processAlive, controlAlive, samplerAlive, executionAlive));
      assert Reading(world, processAlive, controlAlive, samplerAlive, executionAlive) == Assess(before, settings, o, worker);
      if !processAlive {
        out := HandleNoUsableWorker(o, worker);
      } else if controlAlive || (executionAlive && samplerAlive) {
        out := HandleUsableWorker(o, worker.value);
      } else {
        out := HandleStaleLoop(o, worker.value);
      }
    }

    // ---- `main` --------------------------------------------------------------------------------

    method ChargeTo(role: Role, cause: Cause)
      requires Valid()
      modifies this`world, webRestarts, workerRestarts
      ensures State() == if role == Web then ChargeWeb(old(State()), cause) else ChargeWorker(old(State()), cause)
    {
      var looping;
      if role == Web {
        looping := webRestarts.RecordFailure(world.mono);
      } else {
        looping := workerRestarts.RecordFailure(world.mono);
      }
      Log(Failure(role, cause));
    }

    method ReapWebChild(i: Input)
      requires Valid()
      modifies this`world, this`web, webRestarts, workerRestarts
      ensures State() == ReapWeb(old(State()), settings, i)
    {
      Wait(i.env(PreWeb));
      if web.Some? && !StillRuns(world, web.value.pid) {
        Log(ExitSeen(web.value.pid));
        web := None;
        ChargeTo(Web, ChildExited);
      }
    }

    method EnsureWebChild(i: Input)
      requires Valid()
      modifies this`world, this`web, webRestarts, workerRestarts
      ensures State() == EnsureWeb(old(State()), settings, i)
    {
      Wait(i.env(BetweenPolls));
      if webRestarts.crashLoop || (web.Some? && StillRuns(world, web.value.pid)) {
        return;
      }
      if !i.webSpawns || i.webPid in world.procs {
        ChargeTo(Web, SpawnFailed);
      } else {
        world := world.(procs := world.procs[i.webPid := Proc(world.wall, None)]);
        Log(Launched(Web, i.webPid));
        web := Some(Child(i.webPid, world.mono));
      }
    }

    method SuperviseWeb(i: Input)
      requires Valid()
      modifies this`world, this`web, webRestarts, workerRestarts
      ensures State() == EnsureWeb(ReapWeb(old(State()), settings, i), settings, i)
      ensures WebSupervised(old(State()), State())
    {
      assert WebSupervised(State(), EnsureWeb(ReapWeb(State(), settings, i), settings, i)) by {
        WebSupervises(State(), settings, i);
      }
      ReapWebChild(i);
      EnsureWebChild(i);
    }

    method JudgeLauncher(i: Input, worker: Option<Registration>, exited: bool, alive: bool)
      requires Valid() && exited == (child.Some? && !StillRuns(world, child.value.pid))
      modifies this`world, this`child, webRestarts, workerRestarts
      ensures State() == Judge(old(State()), settings, i, worker, alive)
    {
      if Active(worker) && !alive {
        ChargeTo(Worker, ProcessLost);
        if exited {
          child := None;
        }
      } else if Graceful(world, worker, child) {
        child := None;
      } else if exited && !Active(worker) {
        ChargeTo(Worker, BeforeRegistration);
        child := None;
      } else if child.Some? && !exited && !alive && world.mono - child.value.at >= REGISTRATION_TIMEOUT {
        ChargeTo(Worker, RegistrationTimeout);
        TerminateLauncher(i.review, child.value.pid);
        child := None;
      }
    }

    method ReviewLauncher(i: Input)
      requires Valid()
      modifies this`world, this`child, webRestarts, workerRestarts
      ensures State() == ReviewWorker(old(State()), settings, i)
      ensures LauncherReviewed(old(State()), State(), settings, i)
    {
      assert LauncherReviewed(State(), ReviewWorker(State(), settings, i), settings, i) by {
        LauncherReviews(State(), settings, i);
      }
      Wait(i.env(PreRow));
      var worker := world.reg;
      Wait(i.env(PostRow));
      var exited := child.Some? && !StillRuns(world, child.value.pid);
      if exited {
        Log(ExitSeen(child.value.pid));
      }
      JudgeLauncher(i, worker, exited, ProcessAlive(world, settings, worker));
    }

    method StopOwnedWorker(o: Oracle)
      modifies this`world
      ensures world == StopWorker(old(world), settings, o, child)
      ensures WorkerStopped(old(world), world)
    {
      WorkerStops(world, settings, o, child);
      if o.mishap(ReadRow) != Fine {
        return;
      }
      var worker := world.reg;
      Log(Read(worker));
      Log(Closing);
      Wait(o.env(PostRead));
      if ProcessAlive(world, settings, worker) {
        TerminateWorkerInstance(o, worker.value, child);
        var ok := Recover(o, worker.value);
      } else if child.Some? {
        TerminateLauncher(o, child.value.pid);
      }
    }

    method CloseDown(i: Input)
      requires Valid()
      modifies this
      ensures Valid() && State() == Shutdown(old(State()), settings, i)
    {
      if owns {
        Wait(i.env(PreShutdown));
        if web.Some? {
          TerminateLauncher(i.review, web.value.pid);
        } else {
          Wait(i.review.env(PreSignal));
        }
        StopOwnedWorker(i.call);
      }
      done := true;
    }

    /** The review of the launcher, and the call unless the role is crash looping. */
    method SuperviseRow(i: Input)
      requires Valid() && i.rowReads
      modifies this`world, this`child, webRestarts, workerRestarts
      ensures State() == WorkerPart(old(State()), settings, i)
    {
      ReviewLauncher(i);
      if !workerRestarts.crashLoop {
        Wait(i.env(PreCall));
        var out := SuperviseWorker(i.call);
        if out.Returned? {
          child := out.child;
        } else {
          ChargeTo(Worker, SpawnFailed);
        }
      }
    }

    /** One owned iteration: the web child first, then the worker. */
    method SuperviseOwned(i: Input)
      requires Valid()
      modifies this, webRestarts, workerRestarts
      ensures Valid() && State() == OwnedCycle(old(State()), settings, i)
    {
      SuperviseWeb(i);
      if i.rowReads {
        SuperviseRow(i);
      }
    }

    /** The ownership check has answered. */
    method Proceed(i: Input)
      requires Valid()
      modifies this, webRestarts, workerRestarts
      ensures Valid() && State() == Decide(old(State()), settings, i)
    {
      if owns {
        SuperviseOwned(i);
      } else if world.mono >= deadline {
        CloseDown(i);
      }
    }

    method Iterate(i: Input)
      requires Valid() && !done
      modifies this, webRestarts, workerRestarts
      ensures Valid() && State() == Cycle(old(State()), settings, i)
      ensures IterationKept(old(State()), State(), i)
    {
      assert IterationKept(State(), Cycle(State(), settings, i), i) by {
        IterationKeeps(State(), settings, i);
      }
      Wait(i.env(PreCycle));
      if i.stop {
        CloseDown(i);
      } else if i.check.Checked? {
        owns := i.check.owned;
        Log(Ownership(owns));
        Proceed(i);
      }
    }

    /**
     The whole run, until a stop or a lost ownership ends it: executions end once, recoveries are fenced,
     recycling is justified, every action was taken under ownership, every web launch is accounted for, no
     parked job was disturbed, and without blindness one launcher was settled before the next was started.
     */
    method Supervise(inputs: seq<Input>)
      requires Valid()
      modifies this, webRestarts, workerRestarts
      ensures Valid() && State() == Run(old(State()), settings, inputs)
      ensures Sound(old(State())) ==> Sound(State()) && StaysParked(old(world.store), world.store)
      ensures Initial(old(State())) ==> Sound(State()) && StaysParked(old(world.store), world.store)
      ensures Initial(old(State())) && old(world).blind == {} && (forall i | i in inputs :: LoopDiscipline.ClearInput(i)) ==>
                Sequential(State())
    {
      ghost var before := State();
      var k := 0;
      while k < |inputs| && !done
        invariant 0 <= k <= |inputs| && Valid()
        invariant State() == Run(before, settings, inputs[..k])
      {
        assert Init(inputs[..k + 1]) == inputs[..k];
        Iterate(inputs[k]);
        k := k + 1;
      }
      RunSplit(before, settings, inputs, k);
      if done {
        LoopDiscipline.DoneForever(State(), settings, inputs[k..]);
      }
      assert !done ==> inputs[..k] == inputs;
      WholeRun(before, settings, inputs);
    }
  }

  /** A supervisor is started on any database with the ledger, and supervises until its inputs end. */
  method StartAndSupervise(settings: Settings, world: World, deadline: int, limit: nat, window: nat, inputs: seq<Input>)
    returns (p: Process)
    requires Ledger(world.store) && forall k | 0 <= k < |world.store.log| :: Outside(world.store.log[k])
    ensures fresh(p) && Sound(p.State()) && StaysParked(world.store, p.world.store)
    ensures world.blind == {} && (forall i | i in inputs :: LoopDiscipline.ClearInput(i)) ==> Sequential(p.State())
  {
    p := new Process(settings, world, deadline, limit, window);
    p.Supervise(inputs);
  }

  lemma {:induction false} RunSplit(l: Loop, c: Settings, inputs: seq<Input>, k: nat)
    requires k <= |inputs|
    ensures Run(Run(l, c, inputs[..k]), c, inputs[k..]) == Run(l, c, inputs)
  {
    if k == |inputs| {
      assert inputs[..k] == inputs;
    } else {
      RunSplit(l, c, Init(inputs), k);
      assert Init(inputs)[..k] == inputs[..k];
      assert Init(inputs[k..]) == Init(inputs)[k..];
    }
  }
}
