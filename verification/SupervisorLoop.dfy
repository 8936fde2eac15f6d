/**
 The loop of `main`: ownership, the web child, the review of the worker's launcher, the call of
 `_supervise_once`, and the shutdown. An input fixes everything one iteration cannot control.
 */
module SupervisorLoop {
  import opened Common
  import opened Timeline
  import opened JobTable
  import opened Runtime
  import opened SuperviseOnce
  import opened RestartBudget

  datatype LoopPoint = PreCycle | PreWeb | BetweenPolls | PreRow | PostRow | PreCall | PreShutdown

  /** The ownership check raises, or says whether this supervisor owns the worker id. */
  datatype Check = CheckRaises | Checked(owned: bool)

  datatype Input = Input(
    stop: bool,
    check: Check,
    env: LoopPoint -> seq<Step>,
    webSpawns: bool,
    webPid: int,
    rowReads: bool,
    review: Oracle,
    call: Oracle)

  datatype Loop = Loop(
    world: World,
    child: Option<Child>,
    web: Option<Child>,
    webBudget: Budget,
    workerBudget: Budget,
    owns: bool,
    deadline: int,
    done: bool)

  function Move(l: Loop, c: Settings, i: Input, at: LoopPoint): Loop {
    l.(world := Env(l.world, c, i.env(at)))
  }

  // ---- The web child ---------------------------------------------------------------------------

  function ChargeWeb(l: Loop, cause: Cause): Loop {
    l.(world := Emit(l.world, Failure(Web, cause)), webBudget := Record(l.webBudget, l.world.mono))
  }

  /** An exited web child is charged to its budget and forgotten. */
  function ReapWeb(l: Loop, c: Settings, i: Input): Loop {
    var l1 := Move(l, c, i, PreWeb);
    if l1.web.Some? && !StillRuns(l1.world, l1.web.value.pid) then
      ChargeWeb(l1.(world := Emit(l1.world, ExitSeen(l1.web.value.pid)), web := None), ChildExited)
    else l1
  }

  /** `_supervise_web_once`, unless the web role is crash looping. */
  function EnsureWeb(l: Loop, c: Settings, i: Input): Loop {
    var l1 := Move(l, c, i, BetweenPolls);
    if l1.webBudget.crashLoop then l1
    else if l1.web.Some? && StillRuns(l1.world, l1.web.value.pid) then l1
    else if !i.webSpawns || i.webPid in l1.world.procs then ChargeWeb(l1, SpawnFailed)
    else
      var w := l1.world.(procs := l1.world.procs[i.webPid := Proc(l1.world.wall, None)]);
      l1.(world := Emit(w, Launched(Web, i.webPid)), web := Some(Child(i.webPid, w.mono)))
  }

  // ---- The worker's launcher -------------------------------------------------------------------

  function ChargeWorker(l: Loop, cause: Cause): Loop {
    l.(world := Emit(l.world, Failure(Worker, cause)), workerBudget := Record(l.workerBudget, l.world.mono))
  }

  /** `_gracefully_stopped_worker_child`: the stopping worker's own launcher exited with code 0. */
  predicate Graceful(w: World, worker: Option<Registration>, child: Option<Child>) {
    && worker.Some? && worker.value.stopping.Some? && child.Some?
    && Some(child.value.pid) ==
       (if worker.value.launcher.Some? && worker.value.launcher.value != 0 then worker.value.launcher else worker.value.pid)
    && child.value.pid in w.procs && w.procs[child.value.pid].exit == Some(0)
  }

  predicate HasExited(l: Loop) {
    l.child.Some? && !StillRuns(l.world, l.child.value.pid)
  }

  function PollChild(l: Loop): Loop {
    if HasExited(l) then l.(world := Emit(l.world, ExitSeen(l.child.value.pid))) else l
  }

  /** The four-way review of the launcher, on one reading of registration and processes. */
  function Judge(l: Loop, c: Settings, i: Input, worker: Option<Registration>, alive: bool): Loop {
    if Active(worker) && !alive then
      ChargeWorker(l, ProcessLost).(child := if HasExited(l) then None else l.child)
    else if Graceful(l.world, worker, l.child) then l.(child := None)
    else if HasExited(l) && !Active(worker) then ChargeWorker(l, BeforeRegistration).(child := None)
    else if l.child.Some? && !HasExited(l) && !alive && l.world.mono - l.child.value.at >= REGISTRATION_TIMEOUT then
      var l1 := ChargeWorker(l, RegistrationTimeout);
      l1.(world := TerminateLauncher(l1.world, c, i.review, l1.child.value.pid), child := None)
    else l
  }

  function ReviewWorker(l: Loop, c: Settings, i: Input): Loop {
    var l1 := Move(l, c, i, PreRow);
    var l2 := PollChild(Move(l1, c, i, PostRow));
    Judge(l2, c, i, l1.world.reg, ProcessAlive(l2.world, c, l1.world.reg))
  }

  /** After the review, unless the worker role is crash looping: a charged review waits before the call. */
  function BeforeCall(l: Loop, c: Settings, i: Input): Loop {
    if l.workerBudget.crashLoop then l else Move(l, c, i, PreCall)
  }

  /** `_supervise_once`, unless the worker role is crash looping; a raising call is charged. */
  function CallWorker(l: Loop, c: Settings, i: Input): Loop {
    if l.workerBudget.crashLoop then l else
      var (w, out) := SuperviseOnce.SuperviseOnce(l.world, c, i.call, l.child);
      if out.Returned? then l.(world := w, child := out.child) else ChargeWorker(l.(world := w), SpawnFailed)
  }

  // ---- Shutdown --------------------------------------------------------------------------------

  function StopWorker(w: World, c: Settings, o: Oracle, child: Option<Child>): World {
    if o.mishap(ReadRow) != Fine then w else
      var worker := w.reg;
      var w1 := Yield(Emit(Emit(w, Read(worker)), Closing), c, o, PostRead);
      if ProcessAlive(w1, c, worker) then
        RecoverLost(TerminateInstance(w1, c, o, worker.value, child), c, o, worker.value).0
      else if child.Some? then TerminateLauncher(w1, c, o, child.value.pid)
      else w1
  }

  function StopWeb(w: World, c: Settings, o: Oracle, web: Option<Child>): World {
    if web.Some? then TerminateLauncher(w, c, o, web.value.pid) else Yield(w, c, o, PreSignal)
  }

  /** The `finally` block: children and jobs are touched only by an owner. */
  function Shutdown(l: Loop, c: Settings, i: Input): Loop {
    if !l.owns then l.(done := true) else
      var l1 := Move(l, c, i, PreShutdown);
      l1.(world := StopWorker(StopWeb(l1.world, c, i.review, l1.web), c, i.call, l1.child), done := true)
  }

  // ---- The loop --------------------------------------------------------------------------------

  function WorkerPart(l: Loop, c: Settings, i: Input): Loop {
    if !i.rowReads then l else CallWorker(BeforeCall(ReviewWorker(l, c, i), c, i), c, i)
  }

  function OwnedCycle(l: Loop, c: Settings, i: Input): Loop {
    WorkerPart(EnsureWeb(ReapWeb(l, c, i), c, i), c, i)
  }

  /** The ownership check has answered. */
  function Answer(l: Loop, owned: bool): Loop {
    l.(owns := owned, world := Emit(l.world, Ownership(owned)))
  }

  function Decide(l: Loop, c: Settings, i: Input): Loop {
    if l.owns then OwnedCycle(l, c, i)
    else if l.world.mono >= l.deadline then Shutdown(l, c, i)
    else l
  }

  function Cycle(l: Loop, c: Settings, i: Input): Loop {
    if l.done then l else
      var l0 := Move(l, c, i, PreCycle);
      if i.stop then Shutdown(l0, c, i)
      else if i.check.CheckRaises? then l0
      else Decide(Answer(l0, i.check.owned), c, i)
  }

  function Run(l: Loop, c: Settings, inputs: seq<Input>): Loop {
    if inputs == [] then l else Cycle(Run(l, c, Init(inputs)), c, Last(inputs))
  }
}
