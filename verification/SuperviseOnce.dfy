/**
 One call of `_supervise_once` as a function of the world, the tracked launcher and an oracle that
 fixes everything the call cannot control: what happens between its actions, which calls fail, what
 the database returns, and what becomes of a signalled process.
 */
module SuperviseOnce {
  import opened Common
  import opened Timeline
  import opened JobTable
  import opened Runtime

  /** A tracked launcher: its process and the monotonic time of its launch. */
  datatype Child = Child(pid: int, at: int)

  datatype Outcome = Returned(child: Option<Child>) | Raised

  /** The moments at which the rest of the system may move. */
  datatype Point =
    | PostRead | PostProcess | PostControl | PostSampler
    | PreAssociate | PreWatchdog | PreFence | PreRetire | PreRequeue
    | PreKill | PreKillPoll | PostKill | PreTrackPoll | PreAgePoll | PreReplacePoll | PreSignal | PreSpawn

  datatype Site = ReadRow | ExecutionQuery | Associate | Watchdog | FenceJobs | RetireRow | RequeueJobs | SignalWorker | SignalLauncher | SpawnChild

  /** A call that fails, before or after its transaction took effect. */
  datatype Mishap = Fine | RolledBack | AfterCommit

  datatype Oracle = Oracle(
    env: Point -> seq<Step>,
    mishap: Site -> Mishap,
    rows: Site -> Rows,
    sightings: seq<Sighting>,
    critical: bool,
    workerDies: bool,
    launcherDies: bool,
    newPid: int)

  const KILLED: int := -15

  function Yield(w: World, c: Settings, o: Oracle, at: Point): World {
    Env(w, c, o.env(at))
  }

  // ---- Processes -------------------------------------------------------------------------------

  predicate StillRuns(w: World, pid: int) {
    pid in w.procs && w.procs[pid].exit.None?
  }

  /** `Popen.poll`: the exit is seen, or the process still runs. */
  function Poll(w: World, pid: int): World {
    if StillRuns(w, pid) then w else Emit(w, ExitSeen(pid))
  }

  function Kill(w: World, pid: int, dies: bool): World {
    if dies then w.(procs := ExitProc(w.procs, pid, KILLED)) else w
  }

  /** `_terminate_launcher`: polls first, so an exited launcher is not signalled. */
  function TerminateLauncher(w: World, c: Settings, o: Oracle, pid: int): World {
    var w1 := Yield(w, c, o, PreSignal);
    if !StillRuns(w1, pid) then Emit(w1, ExitSeen(pid))
    else if o.mishap(SignalLauncher) != Fine then w1
    else Kill(Emit(w1, KillLauncher(pid)), pid, o.launcherDies)
  }

  /** Signals the registered process if it is alive; failures are contained. */
  function KillRegistered(w: World, c: Settings, o: Oracle, r: Registration): World {
    var w1 := Yield(w, c, o, PreKill);
    if IsAlive(w1, r.pid, r.started) && o.mishap(SignalWorker) == Fine
    then Kill(Emit(w1, KillWorker(r.pid.value)), r.pid.value, o.workerDies) else w1
  }

  /** Stops a launcher that is a process of its own. */
  function KillSeparate(w: World, c: Settings, o: Oracle, r: Registration, child: Option<Child>): World {
    if child.None? then w else
      var w1 := Poll(Yield(w, c, o, PreKillPoll), child.value.pid);
      if StillRuns(w1, child.value.pid) && Some(child.value.pid) != r.pid
      then TerminateLauncher(w1, c, o, child.value.pid) else w1
  }

  /** `_terminate_worker_instance`: the registered process, then a launcher that is a different one. */
  function TerminateInstance(w: World, c: Settings, o: Oracle, r: Registration, child: Option<Child>): World {
    KillSeparate(KillRegistered(w, c, o, r), c, o, r, child)
  }

  // ---- Durable recovery ------------------------------------------------------------------------

  /** `_fence_worker`; the ids are missing when the call raises. */
  function FenceLost(w: World, c: Settings, o: Oracle, r: Registration, memory: bool): (World, Option<seq<JobId>>) {
    var w1 := Yield(w, c, o, PreFence);
    if o.mishap(FenceJobs) == RolledBack then (w1, None) else
      var (t, rec) := Reconcile(w1.store, c.worker, r.instance, memory, o.rows(FenceJobs), o.rows(FenceJobs).order);
      var w2 := Emit(w1.(store := t), Fenced(r.instance, rec.fenced));
      (w2, if o.mishap(FenceJobs) == Fine then Some(rec.fenced) else None)
  }

  /** `_fence_no_progress`. */
  function FenceFrozen(w: World, c: Settings, o: Oracle, r: Registration): (World, Option<seq<JobId>>) {
    var w1 := Yield(w, c, o, PreWatchdog);
    if o.mishap(Watchdog) == RolledBack then (w1, None) else
      var (t, fenced) := FenceStalled(w1.store, c.worker, r.instance, o.rows(Watchdog), o.sightings);
      var w2 := Emit(w1.(store := t), Fenced(r.instance, fenced));
      (w2, if o.mishap(Watchdog) == Fine then Some(fenced) else None)
  }

  /** The compare-and-set of `retire_worker_registration`. */
  predicate SameRegistration(reg: Option<Registration>, r: Registration) {
    reg.Some? && reg.value.instance == r.instance && reg.value.generation == r.generation && reg.value.pid == r.pid
  }

  /** `_retire_worker_registration`: contains its own failures. */
  function Retire(w: World, c: Settings, o: Oracle, r: Registration): World {
    var w1 := Yield(w, c, o, PreRetire);
    var w2 := Emit(w1, Retired(r));
    if SameRegistration(w2.reg, r) && o.mishap(RetireRow) != RolledBack
    then w2.(reg := Some(w2.reg.value.(heartbeat := w2.wall, stopping := Some(w2.wall)))) else w2
  }

  /** `_requeue`: nothing at all for an empty list; the flag says whether it returned normally. */
  function RequeueIds(w: World, c: Settings, o: Oracle, ids: seq<JobId>): (World, bool) {
    if ids == [] then (w, true) else
      var w1 := Emit(Yield(w, c, o, PreRequeue), Requeue(ids));
      if o.mishap(RequeueJobs) == RolledBack then (w1, false) else
        (w1.(store := RequeueStalled(w1.store, ids, c.recoveryLimit, o.rows(RequeueJobs), o.rows(RequeueJobs).order)), o.mishap(RequeueJobs) == Fine)
  }

  /** Retire, then requeue: the common tail of every recovery. */
  function RetireAndRequeue(w: World, c: Settings, o: Oracle, r: Registration, ids: seq<JobId>): (World, bool) {
    RequeueIds(Retire(w, c, o, r), c, o, ids)
  }

  /** Fence the instance, retire it, requeue what was fenced. */
  function RecoverLost(w: World, c: Settings, o: Oracle, r: Registration): (World, bool) {
    var (w1, fenced) := FenceLost(w, c, o, r, false);
    if fenced.None? then (w1, false) else RetireAndRequeue(w1, c, o, r, fenced.value)
  }

  // ---- The branches of the call ----------------------------------------------------------------

  function PidOf(r: Registration): int {
    if r.pid.Some? then r.pid.value else 0
  }

  /** The process lives but its control loop is stale and no execution excuses it. */
  function StaleLoop(w: World, c: Settings, o: Oracle, r: Registration, child: Option<Child>): (World, Outcome) {
    var w1 := TerminateInstance(w, c, o, r, child);
    var w2 := Yield(w1, c, o, PostKill);
    if IsAlive(w2, r.pid, r.started) then (w2, Returned(child)) else
      var (w3, ok) := RecoverLost(Emit(w2, FoundDead(PidOf(r))), c, o, r);
      (w3, if ok then Returned(None) else Raised)
  }

  function AssociateLauncher(w: World, c: Settings, o: Oracle, r: Registration, pid: int): World {
    var w1 := Yield(w, c, o, PreAssociate);
    if r.instance.Some? && r.launcher != Some(pid) && o.mishap(Associate) != RolledBack
       && w1.reg.Some? && w1.reg.value.instance == r.instance && w1.reg.value.stopping.None?
    then w1.(reg := Some(w1.reg.value.(launcher := Some(pid)))) else w1
  }

  /** Associates the launcher and drops one that exited while the worker it started lives on. */
  function TrackLauncher(w: World, c: Settings, o: Oracle, r: Registration, child: Option<Child>): (World, Option<Child>) {
    if child.None? then (w, None) else
      var pid := child.value.pid;
      var w1 := Poll(Yield(AssociateLauncher(w, c, o, r, pid), c, o, PreTrackPoll), pid);
      (w1, if !StillRuns(w1, pid) && Some(pid) != r.pid then None else child)
  }

  /** Both fences of a usable worker; the second only when its memory is critical. */
  function FenceUsable(w: World, c: Settings, o: Oracle, r: Registration): (World, Option<seq<JobId>>) {
    var (w1, frozen) := FenceFrozen(w, c, o, r);
    if frozen.None? || !o.critical then (w1, frozen) else
      var (w2, lost) := FenceLost(w1, c, o, r, true);
      (w2, if lost.None? then None else Some(frozen.value + lost.value))
  }

  /** Stop the instance whose jobs were fenced, retire it, requeue them. */
  function Recycle(w: World, c: Settings, o: Oracle, r: Registration, child: Option<Child>, ids: seq<JobId>): (World, Outcome) {
    var (w1, ok) := RetireAndRequeue(TerminateInstance(w, c, o, r, child), c, o, r, ids);
    (w1, if ok then Returned(None) else Raised)
  }

  function UsableWorker(w: World, c: Settings, o: Oracle, r: Registration, child: Option<Child>): (World, Outcome) {
    var (w1, kept) := TrackLauncher(w, c, o, r, child);
    var (w2, stalled) := FenceUsable(w1, c, o, r);
    if stalled.None? then (w2, Raised)
    else if stalled.value == [] then (w2, Returned(kept))
    else Recycle(w2, c, o, r, kept, stalled.value)
  }

  predicate Active(worker: Option<Registration>) {
    worker.Some? && worker.value.stopping.None?
  }

  /** A tracked launcher that still runs is stopped. */
  function StopRunning(w: World, c: Settings, o: Oracle, child: Option<Child>): World {
    if child.None? then w else
      var w1 := Poll(Yield(w, c, o, PreReplacePoll), child.value.pid);
      if StillRuns(w1, child.value.pid) then TerminateLauncher(w1, c, o, child.value.pid) else w1
  }

  /** A launcher still running is stopped before another one is started. */
  function Replace(w: World, c: Settings, o: Oracle, child: Option<Child>): (World, Outcome) {
    var w1 := Yield(StopRunning(w, c, o, child), c, o, PreSpawn);
    if o.mishap(SpawnChild) != Fine || o.newPid in w1.procs then (w1, Raised) else
      var w2 := Emit(w1.(procs := w1.procs[o.newPid := Proc(w1.wall, None)]), Launched(Worker, o.newPid));
      (w2, Returned(Some(Child(o.newPid, w2.mono))))
  }

  function NoUsableWorker(w: World, c: Settings, o: Oracle, worker: Option<Registration>, child: Option<Child>): (World, Outcome) {
    var w1 := if child.None? then w else Poll(Yield(w, c, o, PreAgePoll), child.value.pid);
    if child.Some? && StillRuns(w1, child.value.pid) && !Active(worker) && w1.mono - child.value.at < REGISTRATION_TIMEOUT
    then (w1, Returned(child))
    else if Active(worker) then
      var (w2, ok) := RecoverLost(w1, c, o, worker.value);
      if ok then Replace(w2, c, o, child) else (w2, Raised)
    else
      Replace(w1, c, o, child)
  }

  /** The readings of one call, in the order they are taken. */
  datatype Reading = Reading(world: World, process: bool, control: bool, sampler: bool, execution: bool)

  function Assess(w: World, c: Settings, o: Oracle, worker: Option<Registration>): Reading {
    var w1 := Yield(Emit(w, Read(worker)), c, o, PostRead);
    var process := ProcessAlive(w1, c, worker);
    var w2 := Yield(w1, c, o, PostProcess);
    var control := ControlAlive(w2, c, worker);
    var w3 := Yield(w2, c, o, PostControl);
    var sampler := SamplerAlive(w3, c, worker);
    var w4 := Yield(w3, c, o, PostSampler);
    var execution := process && !control && o.mishap(ExecutionQuery) == Fine && ExecutionAlive(w4, c, worker.value);
    Reading(Emit(w4, Assessed(process, control, sampler, execution)), process, control, sampler, execution)
  }

  /** A stale control loop is excused by a fresh fenced execution together with a live sampler. */
  predicate Excused(g: Reading) {
    g.control || (g.execution && g.sampler)
  }

  function SuperviseOnce(w: World, c: Settings, o: Oracle, child: Option<Child>): (World, Outcome) {
    if o.mishap(ReadRow) != Fine then (w, Raised) else
      var worker := w.reg;
      var g := Assess(w, c, o, worker);
      if !g.process then NoUsableWorker(g.world, c, o, worker, child)
      else if Excused(g) then UsableWorker(g.world, c, o, worker.value, child)
      else StaleLoop(g.world, c, o, worker.value, child)
  }
}
