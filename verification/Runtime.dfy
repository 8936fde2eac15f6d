/**
 The world around the supervisor: the job table, the worker's registration row, the operating
 system's processes and the clocks, with every step the rest of the system may take between two
 actions of the supervisor.
 */
module Runtime {
  import opened Common
  import opened Timeline
  import opened JobTable

  datatype Settings = Settings(worker: string, heartbeatTimeout: nat, recoveryLimit: nat)

  /** `WORKER_REGISTRATION_TIMEOUT_SECONDS`, in microseconds. */
  const REGISTRATION_TIMEOUT := 120_000_000

  /** How far a recorded process start may be from the observed one. */
  const START_TOLERANCE := 2_000_000

  datatype Proc = Proc(start: int, exit: Option<int>)

  /** `blind` holds the processes whose inspection currently fails. */
  datatype World = World(
    store: Store,
    reg: Option<Registration>,
    procs: map<int, Proc>,
    blind: set<int>,
    wall: int,
    mono: int)

  datatype Step =
    // Job transactions of workers and of the API.
    | Take(job: JobId, taker: Option<string>)
    | End(job: JobId, token: Token, how: Settlement)
    | Pulse(job: JobId, token: Token)
    | Advance(job: JobId, token: Token, stage: string, mark: string)
    | Submit(job: JobId, maxRetries: nat)
    | Cancel(job: JobId, read: Job)
    | Resume(job: JobId)
    | PutAside(job: JobId, status: Status)
    | TakeBack(job: JobId, read: Job)
    // The registration row.
    | Register(instance: string, pid: int, started: int)
    | WorkerBeat(instance: string, pid: int, sampler: Option<int>)
    | ControlBeat(instance: string)
    | Stop(instance: string, pid: int)
    | Quiesce
    // Processes and clocks.
    | Spawn(pid: int)
    | Exit(pid: int, code: int)
    | Obscure(pids: set<int>)
    | Tick(wall: int, mono: nat)

  /** The registration row a claim must find: the claimer's own, neither stopping nor quiescing. */
  predicate MayClaim(reg: Option<Registration>, taker: Option<string>) {
    reg.Some? && reg.value.stopping.None? && !reg.value.quiescing && (taker.Some? ==> reg.value.instance == taker)
  }

  predicate Stale(r: Registration, c: Settings, wall: int) {
    r.heartbeat < wall - c.heartbeatTimeout
  }

  /** `register_worker`: refused while another live registration holds the id. */
  function Registered(reg: Option<Registration>, c: Settings, wall: int, instance: string, pid: int, started: int):
    Option<Registration>
  {
    if reg.None? then
      Some(Registration(Some(instance), 1, Some(pid), Some(started), None, wall, Some(wall), None, None, false))
    else
      var r := reg.value;
      if r.stopping.None? && !Stale(r, c, wall) then
        if r.pid != Some(pid) || r.instance != Some(instance) then reg
        else Some(r.(heartbeat := wall, control := Some(wall)))
      else
        Some(Registration(Some(instance), r.generation + 1, Some(pid), Some(started), None, wall, Some(wall), r.sampler, None, false))
  }

  function ExitProc(procs: map<int, Proc>, pid: int, code: int): map<int, Proc> {
    if pid in procs && procs[pid].exit.None? then procs[pid := procs[pid].(exit := Some(code))] else procs
  }

  function Do(w: World, c: Settings, e: Step): World {
    match e
    case Take(id, taker) =>
      if MayClaim(w.reg, taker) then w.(store := Claim(w.store, id, c.worker, taker, w.wall)) else w
    case End(id, token, how) => w.(store := Settle(w.store, id, token, how))
    case Pulse(id, token) => w.(store := Beat(w.store, id, token, w.wall))
    case Advance(id, token, stage, mark) => w.(store := Progress(w.store, id, token, stage, mark, w.wall))
    case Submit(id, maxRetries) => w.(store := Enqueue(w.store, id, maxRetries))
    case Cancel(id, read) => w.(store := RequestCancel(w.store, id, read))
    case Resume(id) => w.(store := ResetCancel(w.store, id))
    case PutAside(id, status) => w.(store := SetAside(w.store, id, status))
    case TakeBack(id, read) => w.(store := Reclaim(w.store, id, read))
    case Register(instance, pid, started) => w.(reg := Registered(w.reg, c, w.wall, instance, pid, started))
    case WorkerBeat(instance, pid, sampler) =>
      if w.reg.Some? && w.reg.value.instance == Some(instance) && w.reg.value.pid == Some(pid)
      then w.(reg := Some(w.reg.value.(heartbeat := w.wall, sampler := sampler))) else w
    case ControlBeat(instance) =>
      if w.reg.Some? && w.reg.value.instance == Some(instance)
      then w.(reg := Some(w.reg.value.(control := Some(w.wall)))) else w
    case Stop(instance, pid) =>
      if w.reg.Some? && w.reg.value.instance == Some(instance) && w.reg.value.pid == Some(pid)
      then w.(reg := Some(w.reg.value.(heartbeat := w.wall, stopping := Some(w.wall)))) else w
    case Quiesce => if w.reg.Some? then w.(reg := Some(w.reg.value.(quiescing := true))) else w
    case Spawn(pid) => if pid in w.procs then w else w.(procs := w.procs[pid := Proc(w.wall, None)])
    case Exit(pid, code) => w.(procs := ExitProc(w.procs, pid, code))
    case Obscure(pids) => w.(blind := pids)
    case Tick(wall, mono) => w.(wall := wall, mono := w.mono + mono)
  }

  function Env(w: World, c: Settings, steps: seq<Step>): World {
    if steps == [] then w else Do(Env(w, c, Init(steps)), c, Last(steps))
  }

  function Emit(w: World, e: Event): World {
    w.(store := Note(w.store, e))
  }

  // ---- Liveness, as read from a registration snapshot ------------------------------------------

  /** `process_is_alive`: a running, inspectable process with the recorded start time. */
  predicate IsAlive(w: World, pid: Option<int>, started: Option<int>) {
    && pid.Some? && pid.value > 0
    && pid.value in w.procs && pid.value !in w.blind && w.procs[pid.value].exit.None?
    && (started.Some? ==> -START_TOLERANCE <= w.procs[pid.value].start - started.value <= START_TOLERANCE)
  }

  predicate ProcessAlive(w: World, c: Settings, worker: Option<Registration>) {
    worker.Some? && worker.value.stopping.None? && !Stale(worker.value, c, w.wall)
    && IsAlive(w, worker.value.pid, worker.value.started)
  }

  predicate Fresh(beat: Option<int>, c: Settings, wall: int) {
    beat.Some? && beat.value >= wall - c.heartbeatTimeout
  }

  predicate ControlAlive(w: World, c: Settings, worker: Option<Registration>) {
    worker.Some? && worker.value.stopping.None? && Fresh(worker.value.control, c, w.wall)
  }

  predicate SamplerAlive(w: World, c: Settings, worker: Option<Registration>) {
    worker.Some? && Fresh(worker.value.sampler, c, w.wall)
  }

  /** A running row of exactly this instance, with a token and a fresh heartbeat. */
  predicate Executing(w: World, c: Settings, r: Registration, id: JobId) {
    && id in w.store.jobs
    && var j := w.store.jobs[id];
    && j.status == Running && j.worker == Some(c.worker) && j.instance == r.instance
    && j.token.Some? && Fresh(j.heartbeat, c, w.wall)
  }

  predicate ExecutionAlive(w: World, c: Settings, r: Registration) {
    r.stopping.None? && r.instance.Some? && r.instance.value != ""
    && exists id | id in w.store.jobs :: Executing(w, c, r, id)
  }

  // ---- What the environment keeps --------------------------------------------------------------

  /** The monotonic clock moves on, exits are final, start times are fixed, and no process is forgotten. */
  ghost predicate Onward(a: World, b: World) {
    && a.mono <= b.mono
    && forall pid | pid in a.procs ::
         && pid in b.procs && b.procs[pid].start == a.procs[pid].start
         && (a.procs[pid].exit.Some? ==> b.procs[pid].exit == a.procs[pid].exit)
  }

  /** Events that change nothing a whole-run property counts. */
  predicate Calm(e: Event) {
    !e.Read? && !e.Recovered? && !e.Launched? && !e.Ownership? && !e.Failure? && !e.Closing?
  }

  ghost predicate GrowsBy(a: seq<Event>, b: seq<Event>, ok: Event -> bool) {
    a <= b && forall k | |a| <= k < |b| :: ok(b[k])
  }

  /** What a step outside the supervisor may leave on the timeline. */
  predicate Outside(e: Event) {
    e.Claimed? || e.Settled? || e.Revoked?
  }

  /** Not queued, recovering or running, unless an unlocked write has overtaken the row. */
  predicate Parked(j: Job) {
    j.overtaken || j.status !in {Queued, Recovering, Running}
  }

  /** No parked job becomes runnable again but by an overtaking write. */
  ghost predicate StaysParked(a: Store, b: Store) {
    && (forall id | id in a.jobs && Parked(a.jobs[id]) :: id in b.jobs && Parked(b.jobs[id]))
    && (forall id | id in a.jobs && a.jobs[id].overtaken :: id in b.jobs && b.jobs[id].overtaken)
  }

  lemma {:induction false} DoKeepsLedger(w: World, c: Settings, e: Step)
    requires Ledger(w.store)
    ensures Ledger(Do(w, c, e).store)
  {
    match e
    case Take(id, taker) => ClaimKeeps(w.store, id, c.worker, taker, w.wall);
    case End(id, token, how) => SettleKeeps(w.store, id, token, how);
    case Pulse(id, token) => OwnerUpdatesKeep(w.store, id, token, "", "", w.wall);
    case Advance(id, token, stage, mark) => OwnerUpdatesKeep(w.store, id, token, stage, mark, w.wall);
    case Submit(id, maxRetries) => SubmitKeeps(w.store, id, maxRetries);
    case Cancel(id, read) => CancelKeeps(w.store, id, read);
    case Resume(id) => ResetKeeps(w.store, id);
    case PutAside(id, status) => SetAsideKeeps(w.store, id, status);
    case TakeBack(id, read) => ReclaimKeeps(w.store, id, read);
    case _ =>
  }

  /** One outside step: exits are final, and nothing but job events is written. */
  lemma {:induction false} DoKeeps(w: World, c: Settings, e: Step)
    ensures Onward(w, Do(w, c, e))
    ensures GrowsBy(w.store.log, Do(w, c, e).store.log, Outside)
  {
  }

  /** Parked jobs stay parked: no transaction but the supervisor's requeue makes one runnable. */
  lemma {:induction false} DoParks(w: World, c: Settings, e: Step)
    requires Ledger(w.store)
    ensures StaysParked(w.store, Do(w, c, e).store)
  {
    match e
    case Cancel(id, read) => CancelParks(w.store, id, read);
    case PutAside(id, status) => SetAsideParks(w.store, id, status);
    case TakeBack(id, read) => ReclaimParks(w.store, id, read);
    case Submit(id, maxRetries) => SubmitParks(w.store, id, maxRetries);
    case Resume(id) => ResetParks(w.store, id);
    case _ => OwnStepsPark(w, c, e);
  }

  lemma {:induction false} OwnStepsPark(w: World, c: Settings, e: Step)
    requires Ledger(w.store) && !e.Cancel? && !e.PutAside? && !e.TakeBack? && !e.Submit? && !e.Resume?
    ensures StaysParked(w.store, Do(w, c, e).store)
  {
    match e
    case Take(id, taker) => ClaimParks(w.store, id, c.worker, taker, w.wall);
    case End(id, token, how) => SettleParks(w.store, id, token, how);
    case Pulse(id, token) => UpdatesPark(w.store, id, token, "", "", w.wall);
    case Advance(id, token, stage, mark) => UpdatesPark(w.store, id, token, stage, mark, w.wall);
    case _ =>
  }

  lemma {:induction false} SubmitParks(s: Store, id: JobId, maxRetries: nat)
    ensures StaysParked(s, Enqueue(s, id, maxRetries))
  {
  }

  lemma {:induction false} ResetParks(s: Store, id: JobId)
    ensures StaysParked(s, ResetCancel(s, id))
  {
  }

  lemma {:induction false} ClaimParks(s: Store, id: JobId, worker: string, instance: Option<string>, now: int)
    ensures StaysParked(s, Claim(s, id, worker, instance, now))
  {
  }

  lemma {:induction false} SettleParks(s: Store, id: JobId, token: Token, how: Settlement)
    requires Ledger(s)
    ensures StaysParked(s, Settle(s, id, token, how))
  {
  }

  lemma {:induction false} UpdatesPark(s: Store, id: JobId, token: Token, stage: string, mark: string, now: int)
    ensures StaysParked(s, Beat(s, id, token, now)) && StaysParked(s, Progress(s, id, token, stage, mark, now))
  {
  }

  lemma {:induction false} CancelParks(s: Store, id: JobId, read: Job)
    requires Ledger(s)
    ensures StaysParked(s, RequestCancel(s, id, read))
  {
  }

  lemma {:induction false} SetAsideParks(s: Store, id: JobId, status: Status)
    requires Ledger(s)
    ensures StaysParked(s, SetAside(s, id, status))
  {
  }

  lemma {:induction false} ReclaimParks(s: Store, id: JobId, read: Job)
    requires Ledger(s)
    ensures StaysParked(s, Reclaim(s, id, read))
  {
  }

  lemma {:induction false} EnvKeeps(w: World, c: Settings, steps: seq<Step>)
    ensures Ledger(w.store) ==> Ledger(Env(w, c, steps).store)
    ensures Onward(w, Env(w, c, steps))
    ensures GrowsBy(w.store.log, Env(w, c, steps).store.log, Outside)
    ensures Ledger(w.store) ==> StaysParked(w.store, Env(w, c, steps).store)
  {
    if steps != [] {
      EnvKeeps(w, c, Init(steps));
      DoKeeps(Env(w, c, Init(steps)), c, Last(steps));
      if Ledger(w.store) {
        DoKeepsLedger(Env(w, c, Init(steps)), c, Last(steps));
        DoParks(Env(w, c, Init(steps)), c, Last(steps));
      }
    }
  }
}
