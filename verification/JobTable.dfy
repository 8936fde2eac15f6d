/**
 The durable job table: the owner-fenced updates of a worker and the recovery transactions of the
 supervisor, each one committed transaction on the table. The ledger theorems say what every
 interleaving of these transactions keeps.
 */
module JobTable {
  import opened Common
  import opened Timeline

  /** What a recovery remembers about a stall, so that equal stalls can be counted. */
  datatype Signature = FrozenProgress(mark: string) | MemoryCritical(checkpoint: string)

  /** `overtaken` is history: an unlocked write has overtaken another transaction on this row. */
  datatype Job = Job(
    status: Status,
    worker: Option<string>,
    instance: Option<string>,
    token: Option<Token>,
    heartbeat: Option<int>,
    progressAt: Option<int>,
    sequence: nat,
    stage: Option<string>,
    mark: string,
    checkpoint: string,
    cancel: bool,
    retries: nat,
    maxRetries: nat,
    signature: Option<Signature>,
    identical: nat,
    overtaken: bool)

  /** `next` is the first token never issued; `log` is the timeline the transactions extend. */
  datatype Store = Store(jobs: map<JobId, Job>, next: Token, log: seq<Event>)

  /** How an owner ends its own execution. */
  datatype Settlement = Finish(result: Status) | Block | Fail(retryable: bool) | Defer

  /** The database's answer to a locking query: row order, authority scope, rows locked elsewhere. */
  datatype Rows = Rows(order: seq<JobId>, authorised: set<JobId>, locked: set<JobId>)

  /** One overdue candidate as seen by the watchdog's first, unlocked read. */
  datatype Sighting = Sighting(
    job: JobId, token: Option<Token>, sequence: nat, progressAt: Option<int>, stage: Option<string>, deadline: int)

  datatype Reconciliation = Reconciliation(fenced: seq<JobId>, cancelled: seq<JobId>, untouched: seq<JobId>)

  // ---- Rows ------------------------------------------------------------------------------------

  function Unowned(j: Job, status: Status): Job {
    j.(status := status, worker := None, instance := None, token := None, heartbeat := None)
  }

  function Note(s: Store, e: Event): Store {
    s.(log := s.log + [e])
  }

  /** Ends the execution of `id`, if it has one, without its owner. */
  function Revoke(s: Store, id: JobId, row: Job): Store
    requires id in s.jobs
  {
    var j := s.jobs[id];
    s.(jobs := s.jobs[id := row],
       log := if j.status == Running && j.token.Some? then s.log + [Revoked(id, j.token.value, j.instance)] else s.log)
  }

  // ---- Owner transactions ----------------------------------------------------------------------

  function Claim(s: Store, id: JobId, worker: string, instance: Option<string>, now: int): Store {
    if id in s.jobs && s.jobs[id].status in {Queued, Recovering} then
      var j := s.jobs[id];
      Store(s.jobs[id := j.(status := Running, worker := Some(worker), instance := instance,
                            token := Some(s.next), heartbeat := Some(now), progressAt := Some(now),
                            sequence := j.sequence + 1)],
            s.next + 1,
            s.log + [Claimed(id, s.next, instance)])
    else s
  }

  /** The compare-and-set of an owner-fenced update: the row still carries the caller's token. */
  predicate Holds(s: Store, id: JobId, token: Token, allowed: set<Status>) {
    id in s.jobs && s.jobs[id].token == Some(token) && s.jobs[id].status in allowed
  }

  function Settle(s: Store, id: JobId, token: Token, how: Settlement): Store {
    if Holds(s, id, token, if how.Finish? then {Running, Partial} else {Running}) then
      var j := s.jobs[id];
      var status := match how
        case Finish(result) => if result in {Completed, Partial, Cancelled} then result else Completed
        case Block => Blocked
        case Fail(retryable) => if retryable && j.retries + 1 <= j.maxRetries then Queued else Failed
        case Defer => Queued;
      var row := Unowned(j, status).(retries := if how.Fail? then j.retries + 1 else j.retries,
                                     cancel := j.cancel || status == Cancelled);
      s.(jobs := s.jobs[id := row], log := s.log + [Settled(id, token, status)])
    else s
  }

  function Beat(s: Store, id: JobId, token: Token, now: int): Store {
    if Holds(s, id, token, {Running}) then
      s.(jobs := s.jobs[id := s.jobs[id].(heartbeat := Some(now))])
    else s
  }

  function Progress(s: Store, id: JobId, token: Token, stage: string, mark: string, now: int): Store {
    if Holds(s, id, token, {Running}) then
      var j := s.jobs[id];
      s.(jobs := s.jobs[id := j.(progressAt := Some(now), sequence := j.sequence + 1,
                                 stage := Some(stage), mark := mark)])
    else s
  }

  // ---- Requests from outside -------------------------------------------------------------------

  function Enqueue(s: Store, id: JobId, maxRetries: nat): Store {
    if id in s.jobs then s else
      s.(jobs := s.jobs[id := Job(Queued, None, None, None, None, None, 0, None, "", "", false, 0, maxRetries, None, 0, false)])
  }

  /**
   `request_job_cancel`. The row was `read` without a lock; of an unclaimed row only the status and
   the request change, so these two columns are written over whatever the row is by then.
   */
  function RequestCancel(s: Store, id: JobId, read: Job): Store {
    if id !in s.jobs then s else
      var j := s.jobs[id].(cancel := true);
      if read.status in {Queued, Stalled, Recovering} then
        Revoke(s, id, j.(status := Cancelled))
      else
        s.(jobs := s.jobs[id := j])
  }

  /** A preempted prewarm job is made ready to resume: its cancellation request is reset, whatever its row is by then. */
  function ResetCancel(s: Store, id: JobId): Store {
    if id in s.jobs then s.(jobs := s.jobs[id := s.jobs[id].(cancel := false)]) else s
  }

  /** Another transaction settles a row that nobody runs: a blocked sibling, a suppressed retry, a cleaned-up backlog. */
  function SetAside(s: Store, id: JobId, status: Status): Store {
    if id in s.jobs && s.jobs[id].status in {Queued, Stalled, Recovering} && status in {Blocked, Failed, Cancelled}
    then Revoke(s, id, Unowned(s.jobs[id], status)) else s
  }

  // ---- The worker's own recovery ---------------------------------------------------------------

  /** What `_recover_jobs` may take back: a running row, without a pending cancellation, as it was read. */
  predicate Reclaimable(read: Job) {
    read.status == Running && read.token.Some? && !read.cancel
  }

  /** The status it writes depends on the row as read. */
  function ReclaimStatus(read: Job): Status {
    if read.retries < read.maxRetries then Queued else Stale
  }

  /**
   `_recover_jobs` on one row. The row was `read` without a lock, and the changed columns are written
   by primary key, so the write lands on whatever the row is by then. A pending cancellation is
   settled under the token that was read instead.
   */
  function Reclaim(s: Store, id: JobId, read: Job): Store {
    if id !in s.jobs || !Reclaimable(read) then s else
      var j := s.jobs[id];
      Revoke(s, id, Unowned(j, ReclaimStatus(read)).(
                      instance := if read.instance.Some? then None else j.instance,
                      overtaken := j.overtaken || !(j.status == Running && j.token == read.token)))
  }

  // ---- Recovery --------------------------------------------------------------------------------

  function Remember(j: Job, sig: Signature): Job {
    j.(signature := Some(sig), identical := if j.signature == Some(sig) then j.identical + 1 else 1)
  }

  /** Running under this worker id and, when the registration names one, this instance. */
  predicate OwnedBy(j: Job, worker: string, instance: Option<string>) {
    j.status == Running && j.worker == Some(worker) && (instance.Some? ==> j.instance == instance)
  }

  predicate Lockable(s: Store, rows: Rows, id: JobId) {
    id in s.jobs && id in rows.authorised && id !in rows.locked
  }

  function LostRow(j: Job, memory: bool): Job {
    if j.cancel then Unowned(j, Cancelled)
    else Unowned(if memory then Remember(j, MemoryCritical(j.checkpoint)) else j, Stalled)
  }

  /** One row of the reconciliation: not this owner's, owned but out of reach, or taken back. */
  function LoseRow(
    s: Store, r: Reconciliation, worker: string, instance: Option<string>, memory: bool, rows: Rows, id: JobId):
    (Store, Reconciliation)
  {
    if !(id in s.jobs && OwnedBy(s.jobs[id], worker, instance)) then (s, r)
    else if !Lockable(s, rows, id) then (s, r.(untouched := r.untouched + [id]))
    else
      var j := s.jobs[id];
      (Revoke(s, id, LostRow(j, memory)),
       if j.cancel then r.(cancelled := r.cancelled + [id]) else r.(fenced := r.fenced + [id]))
  }

  /** `reconcile_jobs_for_worker_loss`, row by row in the order the query returns. */
  function Reconcile(s: Store, worker: string, instance: Option<string>, memory: bool, rows: Rows, ids: seq<JobId>):
    (r: (Store, Reconciliation))
    ensures forall k | 0 <= k < |r.1.fenced| :: r.1.fenced[k] in s.jobs
    ensures r.0.jobs.Keys == s.jobs.Keys
  {
    if ids == [] then (s, Reconciliation([], [], [])) else
      var (t, r) := Reconcile(s, worker, instance, memory, rows, Init(ids));
      LoseRow(t, r, worker, instance, memory, rows, Last(ids))
  }

  /** The watchdog's second read: locked, unchanged since the sighting, and still overdue. */
  predicate StillOverdue(s: Store, worker: string, instance: Option<string>, rows: Rows, g: Sighting) {
    && Lockable(s, rows, g.job)
    && OwnedBy(s.jobs[g.job], worker, instance)
    && var j := s.jobs[g.job];
    && j.progressAt.Some?
    && j.token == g.token && j.sequence == g.sequence && j.progressAt == g.progressAt && j.stage == g.stage
    && (j.cancel || j.progressAt.value < g.deadline)
  }

  function FrozenRow(j: Job): Job {
    if j.cancel then Unowned(j, Cancelled)
    else Unowned(Remember(j, FrozenProgress(j.mark)), Stalled)
  }

  /** `fence_stalled_jobs` over the sightings of its first read. */
  function FenceStalled(s: Store, worker: string, instance: Option<string>, rows: Rows, seen: seq<Sighting>):
    (r: (Store, seq<JobId>))
    ensures r.0.jobs.Keys == s.jobs.Keys
    ensures forall k | 0 <= k < |r.1| :: r.1[k] in s.jobs
  {
    if seen == [] then (s, []) else
      var (t, fenced) := FenceStalled(s, worker, instance, rows, Init(seen));
      var g := Last(seen);
      if !StillOverdue(t, worker, instance, rows, g) then (t, fenced)
      else
        var j := t.jobs[g.job];
        (Revoke(t, g.job, FrozenRow(j)), if j.cancel then fenced else fenced + [g.job])
  }

  predicate Requeueable(s: Store, listed: seq<JobId>, rows: Rows, id: JobId) {
    Lockable(s, rows, id) && id in listed && s.jobs[id].status == Stalled
  }

  /** One row of `requeue_stalled_jobs`: cancelled, blocked after too many equal stalls, or recovering. */
  function RequeueRow(s: Store, id: JobId, limit: nat): Store
    requires id in s.jobs
  {
    var j := s.jobs[id];
    if j.cancel then Revoke(s, id, Unowned(j, Cancelled))
    else if j.identical >= limit then s.(jobs := s.jobs[id := j.(status := Blocked)])
    else s.(jobs := s.jobs[id := j.(status := Recovering)], log := s.log + [Recovered(id)])
  }

  function RequeueStalled(s: Store, listed: seq<JobId>, limit: nat, rows: Rows, ids: seq<JobId>): (t: Store)
    ensures t.jobs.Keys == s.jobs.Keys
  {
    if ids == [] then s else
      var t := RequeueStalled(s, listed, limit, rows, Init(ids));
      if Requeueable(t, listed, rows, Last(ids)) then RequeueRow(t, Last(ids), limit) else t
  }

  // ---- The ledger ------------------------------------------------------------------------------

  /** The row is running under the token. */
  predicate LiveUnder(s: Store, id: JobId, token: Token) {
    id in s.jobs && s.jobs[id].status == Running && s.jobs[id].token == Some(token)
  }

  /** A running row has a token; no other row has one, but one cancelled while it was being claimed. */
  predicate RowOk(j: Job) {
    (j.status == Running ==> j.token.Some?) && (j.token.Some? ==> j.status in {Running, Cancelled})
  }

  predicate IsRunning(s: Store, id: JobId) {
    id in s.jobs && s.jobs[id].status == Running
  }

  /**
   Running rows have tokens; tokens are handed out once, to one job; and every
   execution handed out is either still live or was ended exactly once.
   */
  ghost predicate Ledger(s: Store) {
    && (forall id | id in s.jobs :: RowOk(s.jobs[id]))
    && (forall id: JobId, t: Token :: Claims(s.log, id, t) == Endings(s.log, id, t) + if LiveUnder(s, id, t) then 1 else 0)
    && (forall id: JobId, t: Token :: Claims(s.log, id, t) <= 1)
    && (forall id: JobId, t: Token | t >= s.next :: Claims(s.log, id, t) == 0)
    && (forall a: JobId, b: JobId, t: Token | a != b :: Claims(s.log, a, t) == 0 || Claims(s.log, b, t) == 0)
    && (forall id: JobId :: JobClaims(s.log, id) == JobEndings(s.log, id) + if IsRunning(s, id) then 1 else 0)
  }

  /** A row change that hands out and takes back nothing. */
  lemma {:induction false} NeutralKeeps(s: Store, t: Store)
    requires Ledger(s)
    requires t.next == s.next && t.log == s.log
    requires s.jobs.Keys <= t.jobs.Keys
    requires forall id | id in s.jobs ::
               && (t.jobs[id].status == Running <==> s.jobs[id].status == Running)
               && (t.jobs[id].status == Running ==> t.jobs[id].token == s.jobs[id].token)
    requires forall id | id in t.jobs :: RowOk(t.jobs[id]) && (id !in s.jobs ==> t.jobs[id].status != Running)
    ensures Ledger(t)
  {
    forall id: JobId, k: Token ensures LiveUnder(t, id, k) == LiveUnder(s, id, k) {}
    forall id: JobId ensures IsRunning(t, id) == IsRunning(s, id) {}
  }

  /** An event that neither starts nor ends an execution. */
  lemma {:induction false} NoteKeeps(s: Store, e: Event)
    requires Ledger(s) && !e.Claimed? && !Ends(e)
    ensures Ledger(Note(s, e))
  {
    var t := Note(s, e);
    forall id: JobId, k: Token
      ensures Claims(t.log, id, k) == Claims(s.log, id, k) && Endings(t.log, id, k) == Endings(s.log, id, k)
      ensures LiveUnder(t, id, k) == LiveUnder(s, id, k)
    {
      TallyAppend(s.log, e, id, k);
    }
    forall id: JobId
      ensures JobClaims(t.log, id) == JobClaims(s.log, id) && JobEndings(t.log, id) == JobEndings(s.log, id)
      ensures IsRunning(t, id) == IsRunning(s, id)
    {
      TallyAppend(s.log, e, id, 0);
    }
  }

  lemma {:induction false} ClaimKeeps(s: Store, id: JobId, worker: string, instance: Option<string>, now: int)
    requires Ledger(s)
    ensures Ledger(Claim(s, id, worker, instance, now))
  {
    var t := Claim(s, id, worker, instance, now);
    if t != s {
      var e := Claimed(id, s.next, instance);
      forall i: JobId, k: Token
        ensures Claims(t.log, i, k) == Claims(s.log, i, k) + if i == id && k == s.next then 1 else 0
        ensures Endings(t.log, i, k) == Endings(s.log, i, k)
        ensures LiveUnder(t, i, k) == (LiveUnder(s, i, k) || (i == id && k == s.next))
      {
        TallyAppend(s.log, e, i, k);
      }
      forall i: JobId
        ensures JobClaims(t.log, i) == JobClaims(s.log, i) + if i == id then 1 else 0
        ensures JobEndings(t.log, i) == JobEndings(s.log, i)
        ensures IsRunning(t, i) == (IsRunning(s, i) || i == id)
      {
        TallyAppend(s.log, e, i, 0);
      }
      assert !IsRunning(s, id);
    }
  }

  /** Taking the token off a running row, with the matching ending on the log. */
  lemma {:induction false} EndKeeps(s: Store, id: JobId, row: Job, e: Event)
    requires Ledger(s) && id in s.jobs && s.jobs[id].status == Running
    requires RowOk(row) && row.status != Running
    requires Ends(e) && e.job == id && Some(e.token) == s.jobs[id].token
    ensures Ledger(s.(jobs := s.jobs[id := row], log := s.log + [e]))
  {
    var t := s.(jobs := s.jobs[id := row], log := s.log + [e]);
    forall i: JobId, k: Token
      ensures Claims(t.log, i, k) == Claims(s.log, i, k)
      ensures Endings(t.log, i, k) == Endings(s.log, i, k) + if i == id && k == e.token then 1 else 0
      ensures LiveUnder(t, i, k) == (LiveUnder(s, i, k) && !(i == id && k == e.token))
    {
      TallyAppend(s.log, e, i, k);
    }
    forall i: JobId
      ensures JobClaims(t.log, i) == JobClaims(s.log, i)
      ensures JobEndings(t.log, i) == JobEndings(s.log, i) + if i == id then 1 else 0
      ensures IsRunning(t, i) == (IsRunning(s, i) && i != id)
    {
      TallyAppend(s.log, e, i, 0);
    }
    assert LiveUnder(s, id, e.token) && IsRunning(s, id);
  }

  lemma {:induction false} RevokeKeeps(s: Store, id: JobId, row: Job)
    requires Ledger(s) && id in s.jobs && RowOk(row) && row.status != Running
    ensures Ledger(Revoke(s, id, row))
  {
    var j := s.jobs[id];
    if j.status == Running {
      EndKeeps(s, id, row, Revoked(id, j.token.value, j.instance));
    } else {
      NeutralKeeps(s, Revoke(s, id, row));
    }
  }

  lemma {:induction false} SettleKeeps(s: Store, id: JobId, token: Token, how: Settlement)
    requires Ledger(s)
    ensures Ledger(Settle(s, id, token, how))
  {
    var t := Settle(s, id, token, how);
    if Holds(s, id, token, if how.Finish? then {Running, Partial} else {Running}) {
      EndKeeps(s, id, t.jobs[id], Last(t.log));
    }
  }

  lemma {:induction false} OwnerUpdatesKeep(s: Store, id: JobId, token: Token, stage: string, mark: string, now: int)
    requires Ledger(s)
    ensures Ledger(Beat(s, id, token, now))
    ensures Ledger(Progress(s, id, token, stage, mark, now))
  {
    NeutralKeeps(s, Beat(s, id, token, now));
    NeutralKeeps(s, Progress(s, id, token, stage, mark, now));
  }

  lemma {:induction false} SubmitKeeps(s: Store, id: JobId, maxRetries: nat)
    requires Ledger(s)
    ensures Ledger(Enqueue(s, id, maxRetries))
  {
    NeutralKeeps(s, Enqueue(s, id, maxRetries));
  }

  lemma {:induction false} CancelKeeps(s: Store, id: JobId, read: Job)
    requires Ledger(s)
    ensures Ledger(RequestCancel(s, id, read))
  {
    if id in s.jobs {
      if read.status in {Queued, Stalled, Recovering} {
        RevokeKeeps(s, id, s.jobs[id].(cancel := true, status := Cancelled));
      } else {
        NeutralKeeps(s, RequestCancel(s, id, read));
      }
    }
  }

  lemma {:induction false} ResetKeeps(s: Store, id: JobId)
    requires Ledger(s)
    ensures Ledger(ResetCancel(s, id))
  {
    NeutralKeeps(s, ResetCancel(s, id));
  }

  lemma {:induction false} SetAsideKeeps(s: Store, id: JobId, status: Status)
    requires Ledger(s)
    ensures Ledger(SetAside(s, id, status))
  {
    if SetAside(s, id, status) != s {
      RevokeKeeps(s, id, Unowned(s.jobs[id], status));
    }
  }

  lemma {:induction false} ReclaimKeeps(s: Store, id: JobId, read: Job)
    requires Ledger(s)
    ensures Ledger(Reclaim(s, id, read))
  {
    if id in s.jobs && Reclaimable(read) {
      RevokeKeeps(s, id, Reclaim(s, id, read).jobs[id]);
    }
  }

  lemma {:induction false} ReconcileKeeps(
    s: Store, worker: string, instance: Option<string>, memory: bool, rows: Rows, ids: seq<JobId>)
    requires Ledger(s)
    ensures Ledger(Reconcile(s, worker, instance, memory, rows, ids).0)
  {
    if ids != [] {
      ReconcileKeeps(s, worker, instance, memory, rows, Init(ids));
      var t := Reconcile(s, worker, instance, memory, rows, Init(ids)).0;
      var id := Last(ids);
      if id in t.jobs && OwnedBy(t.jobs[id], worker, instance) && Lockable(t, rows, id) {
        RevokeKeeps(t, id, LostRow(t.jobs[id], memory));
      }
    }
  }

  lemma {:induction false} FenceStalledKeeps(
    s: Store, worker: string, instance: Option<string>, rows: Rows, seen: seq<Sighting>)
    requires Ledger(s)
    ensures Ledger(FenceStalled(s, worker, instance, rows, seen).0)
  {
    if seen != [] {
      FenceStalledKeeps(s, worker, instance, rows, Init(seen));
      var t := FenceStalled(s, worker, instance, rows, Init(seen)).0;
      if StillOverdue(t, worker, instance, rows, Last(seen)) {
        RevokeKeeps(t, Last(seen).job, FrozenRow(t.jobs[Last(seen).job]));
      }
    }
  }

  lemma {:induction false} RequeueRowKeeps(s: Store, id: JobId, limit: nat)
    requires Ledger(s) && id in s.jobs && s.jobs[id].status == Stalled
    ensures Ledger(RequeueRow(s, id, limit))
  {
    var j := s.jobs[id];
    if j.cancel {
      RevokeKeeps(s, id, Unowned(j, Cancelled));
    } else if j.identical >= limit {
      NeutralKeeps(s, RequeueRow(s, id, limit));
    } else {
      var t := s.(jobs := s.jobs[id := j.(status := Recovering)]);
      NeutralKeeps(s, t);
      NoteKeeps(t, Recovered(id));
    }
  }

  lemma {:induction false} RequeueKeeps(s: Store, listed: seq<JobId>, limit: nat, rows: Rows, ids: seq<JobId>)
    requires Ledger(s)
    ensures Ledger(RequeueStalled(s, listed, limit, rows, ids))
  {
    if ids != [] {
      RequeueKeeps(s, listed, limit, rows, Init(ids));
      var t := RequeueStalled(s, listed, limit, rows, Init(ids));
      if Requeueable(t, listed, rows, Last(ids)) {
        RequeueRowKeeps(t, Last(ids), limit);
      }
    }
  }

  // ---- What the ledger means -------------------------------------------------------------------

  /** A fenced execution never commits: neither before nor after the fence, under any schedule. */
  lemma {:induction false} FencedNeverCommits(s: Store, i: nat, j: nat)
    requires Ledger(s) && i < |s.log| && j < |s.log|
    requires s.log[i].Revoked? && s.log[j].Settled?
    ensures !(s.log[i].job == s.log[j].job && s.log[i].token == s.log[j].token)
  {
    if s.log[i].job == s.log[j].job && s.log[i].token == s.log[j].token {
      TwoEndings(s.log, if i < j then i else j, if i < j then j else i);
    }
  }

  /** A token that was ended is on no row, so no later owner-fenced update with it succeeds. */
  lemma {:induction false} EndedTokenIsDead(s: Store, i: nat, how: Settlement, now: int)
    requires Ledger(s) && i < |s.log| && Ends(s.log[i])
    ensures forall id :: !LiveUnder(s, id, s.log[i].token)
    ensures Settle(s, s.log[i].job, s.log[i].token, how) == s
    ensures Beat(s, s.log[i].job, s.log[i].token, now) == s
  {
    TallyWitness(s.log, i);
    assert Claims(s.log, s.log[i].job, s.log[i].token) >= 1;
  }

  // ---- What the unlocked recovery of a worker can do -------------------------------------------

  /**
   Exactly what the read-then-write form of a worker's recovery does, whatever happened in between.
   If the row still runs under the token that was read, the execution that was read is ended, as under
   a lock. Otherwise the write overtakes: an execution that was never read is ended if one runs, and
   in any case the job becomes runnable again, or stale, whatever its status was.
   */
  lemma {:induction false} ReclaimExactly(s: Store, id: JobId, read: Job)
    requires Ledger(s) && id in s.jobs && Reclaimable(read)
    ensures var j, t := s.jobs[id], Reclaim(s, id, read);
            && t.jobs[id].status == ReclaimStatus(read)
            && (t.jobs[id].overtaken <==> j.overtaken || !LiveUnder(s, id, read.token.value))
            && (LiveUnder(s, id, read.token.value) ==> t.log == s.log + [Revoked(id, read.token.value, j.instance)])
            && (j.status == Running && !LiveUnder(s, id, read.token.value) ==>
                  j.token.Some? && t.log == s.log + [Revoked(id, j.token.value, j.instance)])
            && (j.status != Running ==> t.log == s.log)
  {
  }

  lemma {:induction false} EmptyKeeps()
    ensures Ledger(Store(map[], 0, []))
  {
  }

  /** A job that was claimed, read by another worker's recovery, and then completed by its owner. */
  lemma {:induction false} CompletedAfterRead() returns (s: Store, read: Job)
    ensures Ledger(s) && 0 in s.jobs && s.jobs[0].status == Completed && s.next == 1
    ensures s.log == [Claimed(0, 0, None), Settled(0, 0, Completed)]
    ensures Reclaimable(read) && read.token == Some(0) && read.retries < read.maxRetries
  {
    var s1 := ClaimedOnce();
    read := s1.jobs[0];
    s := Settle(s1, 0, 0, Finish(Completed));
    SettleKeeps(s1, 0, 0, Finish(Completed));
  }

  lemma {:induction false} ClaimedOnce() returns (s: Store)
    ensures Ledger(s) && s.jobs.Keys == {0} && s.next == 1 && s.log == [Claimed(0, 0, None)]
    ensures Reclaimable(s.jobs[0]) && s.jobs[0].token == Some(0) && s.jobs[0].retries < s.jobs[0].maxRetries
  {
    var s0 := Enqueue(Store(map[], 0, []), 0, 1);
    EmptyKeeps();
    SubmitKeeps(Store(map[], 0, []), 0, 1);
    ClaimKeeps(s0, 0, "worker", None, 0);
    s := Claim(s0, 0, "worker", None, 0);
  }

  /** An overtaking write requeues a completed job, and the job is then run a second time. */
  lemma {:induction false} ReclaimCanRepeat() returns (s: Store, read: Job)
    ensures Ledger(s) && s.log == [Claimed(0, 0, None), Settled(0, 0, Completed)]
    ensures Reclaimable(read) && read.token == Some(0)
    ensures var t := Claim(Reclaim(s, 0, read), 0, "worker", None, 0);
            Ledger(t) && t.log == s.log + [Claimed(0, 1, None)]
  {
    s, read := CompletedAfterRead();
    ReclaimKeeps(s, 0, read);
    ClaimKeeps(Reclaim(s, 0, read), 0, "worker", None, 0);
  }

  // ---- What the recovery transactions touch ----------------------------------------------------

  predicate Hit(s: Store, worker: string, instance: Option<string>, rows: Rows, ids: seq<JobId>, id: JobId) {
    id in ids && id in s.jobs && OwnedBy(s.jobs[id], worker, instance) && Lockable(s, rows, id)
  }

  /** Worker-loss recovery changes exactly the lockable running rows of the named worker and instance. */
  lemma {:induction false} ReconcileRows(
    s: Store, worker: string, instance: Option<string>, memory: bool, rows: Rows, ids: seq<JobId>, id: JobId)
    requires id in s.jobs
    ensures var t := Reconcile(s, worker, instance, memory, rows, ids).0;
            && t.next == s.next
            && t.jobs[id] == if Hit(s, worker, instance, rows, ids, id) then LostRow(s.jobs[id], memory) else s.jobs[id]
  {
    if ids != [] {
      ReconcileRows(s, worker, instance, memory, rows, Init(ids), id);
      assert ids == Init(ids) + [Last(ids)];
    }
  }

  /** The three lists of a reconciliation: fenced, cancelled on request, and owned but out of reach. */
  lemma {:induction false} ReconcileLists(
    s: Store, worker: string, instance: Option<string>, memory: bool, rows: Rows, ids: seq<JobId>, id: JobId)
    requires id in s.jobs
    ensures var r := Reconcile(s, worker, instance, memory, rows, ids).1;
            var hit := Hit(s, worker, instance, rows, ids, id);
            && (id in r.fenced <==> hit && !s.jobs[id].cancel)
            && (id in r.cancelled <==> hit && s.jobs[id].cancel)
            && (id in r.untouched <==>
                id in ids && OwnedBy(s.jobs[id], worker, instance) && !Lockable(s, rows, id))
  {
    if ids != [] {
      ReconcileLists(s, worker, instance, memory, rows, Init(ids), id);
      ReconcileRows(s, worker, instance, memory, rows, Init(ids), id);
      assert ids == Init(ids) + [Last(ids)];
      var (t, r) := Reconcile(s, worker, instance, memory, rows, Init(ids));
      if Last(ids) != id {
        LoseRowElsewhere(t, r, worker, instance, memory, rows, Last(ids), id);
      }
    }
  }

  lemma {:induction false} LoseRowElsewhere(
    s: Store, r: Reconciliation, worker: string, instance: Option<string>, memory: bool, rows: Rows, at: JobId, id: JobId)
    requires at != id
    ensures var r' := LoseRow(s, r, worker, instance, memory, rows, at).1;
            && (id in r'.fenced <==> id in r.fenced)
            && (id in r'.cancelled <==> id in r.cancelled)
            && (id in r'.untouched <==> id in r.untouched)
  {
  }

  /** The newest events of `log` after `from` all revoke an execution of `instance`, if one is named. */
  ghost predicate OnlyRevokes(log: seq<Event>, from: nat, instance: Option<string>) {
    from <= |log| && forall k | from <= k < |log| :: log[k].Revoked? && (instance.Some? ==> log[k].instance == instance)
  }

  ghost predicate RevokedSince(log: seq<Event>, from: nat, id: JobId) {
    exists k :: from <= k < |log| && log[k].Revoked? && log[k].job == id
  }

  /** Every row a reconciliation fences had its execution revoked in that transaction. */
  lemma {:induction false} ReconcileRevokes(
    s: Store, worker: string, instance: Option<string>, memory: bool, rows: Rows, ids: seq<JobId>)
    requires Ledger(s)
    ensures var (t, r) := Reconcile(s, worker, instance, memory, rows, ids);
            && s.log <= t.log && OnlyRevokes(t.log, |s.log|, instance)
            && (forall id | id in r.fenced :: RevokedSince(t.log, |s.log|, id))
  {
    if ids != [] {
      ReconcileRevokes(s, worker, instance, memory, rows, Init(ids));
      ReconcileKeeps(s, worker, instance, memory, rows, Init(ids));
      var (t, r) := Reconcile(s, worker, instance, memory, rows, Init(ids));
      var id := Last(ids);
      if id in t.jobs && OwnedBy(t.jobs[id], worker, instance) && Lockable(t, rows, id) {
        var t' := Revoke(t, id, LostRow(t.jobs[id], memory));
        RevokedGrows(t.log, t'.log, |s.log|);
        assert t'.log[|t.log|].Revoked? && t'.log[|t.log|].job == id;
      }
    }
  }

  lemma {:induction false} RevokedGrows(log: seq<Event>, log': seq<Event>, from: nat)
    requires log <= log'
    ensures forall id: JobId :: RevokedSince(log, from, id) ==> RevokedSince(log', from, id)
  {
    forall id: JobId | RevokedSince(log, from, id) ensures RevokedSince(log', from, id) {
      var k :| from <= k < |log| && log[k].Revoked? && log[k].job == id;
      assert log'[k] == log[k];
    }
  }

  /**
   The watchdog fences a row only if, under the lock, it is still the very execution that was
   sighted, with no progress since, and it fences every such row.
   */
  lemma {:induction false} FenceStalledExact(
    s: Store, worker: string, instance: Option<string>, rows: Rows, seen: seq<Sighting>, id: JobId)
    ensures var (t, fenced) := FenceStalled(s, worker, instance, rows, seen);
            var hit := exists g :: g in seen && g.job == id && StillOverdue(s, worker, instance, rows, g);
            && t.next == s.next
            && (id in s.jobs ==> t.jobs[id] == if hit then FrozenRow(s.jobs[id]) else s.jobs[id])
            && (id in fenced <==> hit && !s.jobs[id].cancel)
  {
    if seen != [] {
      FenceStalledExact(s, worker, instance, rows, Init(seen), id);
      var t := FenceStalled(s, worker, instance, rows, Init(seen)).0;
      var g := Last(seen);
      assert seen == Init(seen) + [g];
      if g.job == id && id in s.jobs {
        if exists h :: h in Init(seen) && h.job == id && StillOverdue(s, worker, instance, rows, h) {
          assert t.jobs[id].status != Running;
        } else {
          assert StillOverdue(t, worker, instance, rows, g) == StillOverdue(s, worker, instance, rows, g);
        }
      }
    }
  }

  /** Every row the watchdog fences had its execution revoked in that transaction. */
  lemma {:induction false} FenceStalledRevokes(
    s: Store, worker: string, instance: Option<string>, rows: Rows, seen: seq<Sighting>)
    requires Ledger(s)
    ensures var (t, fenced) := FenceStalled(s, worker, instance, rows, seen);
            && s.log <= t.log && OnlyRevokes(t.log, |s.log|, instance)
            && (forall id | id in fenced :: RevokedSince(t.log, |s.log|, id))
  {
    if seen != [] {
      FenceStalledRevokes(s, worker, instance, rows, Init(seen));
      FenceStalledKeeps(s, worker, instance, rows, Init(seen));
      var t := FenceStalled(s, worker, instance, rows, Init(seen)).0;
      var g := Last(seen);
      if StillOverdue(t, worker, instance, rows, g) {
        var t' := Revoke(t, g.job, FrozenRow(t.jobs[g.job]));
        RevokedGrows(t.log, t'.log, |s.log|);
        assert t'.log[|t.log|].Revoked? && t'.log[|t.log|].job == g.job;
      }
    }
  }

  /** Requeueing changes exactly the listed, lockable, stalled rows. */
  lemma {:induction false} RequeueExact(
    s: Store, listed: seq<JobId>, limit: nat, rows: Rows, ids: seq<JobId>, id: JobId)
    ensures var t := RequeueStalled(s, listed, limit, rows, ids);
            && t.next == s.next
            && (id in s.jobs ==>
                  var j := s.jobs[id];
                  t.jobs[id] == if !(id in ids && Requeueable(s, listed, rows, id)) then j
                                else if j.cancel then Unowned(j, Cancelled)
                                else j.(status := if j.identical >= limit then Blocked else Recovering))
  {
    if ids != [] {
      RequeueExact(s, listed, limit, rows, Init(ids), id);
      assert ids == Init(ids) + [Last(ids)];
    }
  }

  /** Requeueing writes nothing to the timeline but recoveries of listed jobs. */
  lemma {:induction false} RequeueRecovers(s: Store, listed: seq<JobId>, limit: nat, rows: Rows, ids: seq<JobId>)
    requires Ledger(s)
    ensures var t := RequeueStalled(s, listed, limit, rows, ids);
            && s.log <= t.log
            && (forall k | |s.log| <= k < |t.log| :: t.log[k].Recovered? && t.log[k].job in listed)
  {
    if ids != [] {
      RequeueRecovers(s, listed, limit, rows, Init(ids));
      RequeueKeeps(s, listed, limit, rows, Init(ids));
    }
  }
}
