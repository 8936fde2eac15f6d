/**
 The shared vocabulary of the supervisor model: job states, the worker registration row, and the
 timeline on which every durable transaction and every supervisor action leaves one event.
 */
module Timeline {
  import opened Common

  type JobId = nat

  /** An execution token; `uuid4().hex` is modelled as a value never issued before. */
  type Token = nat

  datatype Status =
    | Queued | Running | Completed | Partial | Failed | Blocked
    | Cancelled | Stale | Stalled | Recovering

  /** The durable `background_workers` row of the supervised worker. Times are microseconds. */
  datatype Registration = Registration(
    instance: Option<string>,
    generation: nat,
    pid: Option<int>,
    started: Option<int>,
    launcher: Option<int>,
    heartbeat: int,
    control: Option<int>,
    sampler: Option<int>,
    stopping: Option<int>,
    quiescing: bool)

  datatype Role = Web | Worker

  /** Why a restart budget was charged. */
  datatype Cause = ChildExited | SpawnFailed | ProcessLost | BeforeRegistration | RegistrationTimeout

  datatype Event =
    // Committed job transactions.
    | Claimed(job: JobId, token: Token, instance: Option<string>)
    | Settled(job: JobId, token: Token, status: Status)
    | Revoked(job: JobId, token: Token, instance: Option<string>)
    | Recovered(job: JobId)
    // Observations and actions of the supervisor.
    | Ownership(owned: bool)
    | Read(worker: Option<Registration>)
    | Assessed(process: bool, control: bool, sampler: bool, execution: bool)
    | KillWorker(pid: int)
    | KillLauncher(pid: int)
    | ExitSeen(pid: int)
    | FoundDead(pid: int)
    | Fenced(fencedInstance: Option<string>, ids: seq<JobId>)
    | Retired(retiree: Registration)
    | Requeue(ids: seq<JobId>)
    | Launched(role: Role, pid: int)
    | Failure(role: Role, cause: Cause)
    | Closing

  /** Events that a job transaction may leave; everything else is written by the supervisor. */
  predicate IsJobEvent(e: Event) {
    e.Claimed? || e.Settled? || e.Revoked? || e.Recovered?
  }

  /** How often `token` was handed to an execution of `job`. */
  function Claims(log: seq<Event>, job: JobId, token: Token): nat {
    if log == [] then 0 else
      var e := Last(log);
      Claims(Init(log), job, token) + if e.Claimed? && e.job == job && e.token == token then 1 else 0
  }

  /** True of the events that end an execution: by its owner, or by recovery. */
  predicate Ends(e: Event) {
    e.Settled? || e.Revoked?
  }

  /** How often the execution of `job` under `token` was ended. */
  function Endings(log: seq<Event>, job: JobId, token: Token): nat {
    if log == [] then 0 else
      var e := Last(log);
      Endings(Init(log), job, token) + if Ends(e) && e.job == job && e.token == token then 1 else 0
  }

  /** All claims of a job, whatever the token. */
  function JobClaims(log: seq<Event>, job: JobId): nat {
    if log == [] then 0 else
      var e := Last(log);
      JobClaims(Init(log), job) + if e.Claimed? && e.job == job then 1 else 0
  }

  /** All endings of a job's executions, whatever the token. */
  function JobEndings(log: seq<Event>, job: JobId): nat {
    if log == [] then 0 else
      var e := Last(log);
      JobEndings(Init(log), job) + if Ends(e) && e.job == job then 1 else 0
  }

  lemma {:induction false} TallyAppend(log: seq<Event>, e: Event, job: JobId, token: Token)
    ensures Claims(log + [e], job, token) ==
            Claims(log, job, token) + if e.Claimed? && e.job == job && e.token == token then 1 else 0
    ensures Endings(log + [e], job, token) ==
            Endings(log, job, token) + if Ends(e) && e.job == job && e.token == token then 1 else 0
    ensures JobClaims(log + [e], job) ==
            JobClaims(log, job) + if e.Claimed? && e.job == job then 1 else 0
    ensures JobEndings(log + [e], job) ==
            JobEndings(log, job) + if Ends(e) && e.job == job then 1 else 0
  {
    assert Init(log + [e]) == log;
  }

  /** An event on the timeline is counted. */
  lemma {:induction false} TallyWitness(log: seq<Event>, i: nat)
    requires i < |log|
    ensures log[i].Claimed? ==> Claims(log, log[i].job, log[i].token) >= 1
    ensures Ends(log[i]) ==> Endings(log, log[i].job, log[i].token) >= 1
  {
    if i < |log| - 1 {
      TallyWitness(Init(log), i);
    }
  }

  /** Two endings of one execution are counted twice. */
  lemma {:induction false} TwoEndings(log: seq<Event>, i: nat, j: nat)
    requires i < j < |log|
    requires Ends(log[i]) && Ends(log[j])
    requires log[i].job == log[j].job && log[i].token == log[j].token
    ensures Endings(log, log[i].job, log[i].token) >= 2
  {
    if j == |log| - 1 {
      TallyWitness(Init(log), i);
    } else {
      TwoEndings(Init(log), i, j);
    }
  }
}
