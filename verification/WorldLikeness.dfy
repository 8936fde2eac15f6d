/**
 Two worlds that differ only in web processes: the same jobs, registration and clocks, the same other processes,
 and the same timeline once the web events are left out. Every outside step and every transaction keeps this.
 */
module WorldLikeness {
  import opened Common
  import opened Timeline
  import opened JobTable
  import opened Runtime
  import opened SuperviseOnce

  /** Not an event of the web role, whose processes are `webs`. */
  predicate Mine(e: Event, webs: set<int>) {
    && !((e.Launched? || e.Failure?) && e.role == Web)
    && !((e.ExitSeen? || e.KillLauncher?) && e.pid in webs)
  }

  function Kept(log: seq<Event>, webs: set<int>): seq<Event> {
    if log == [] then [] else Kept(Init(log), webs) + if Mine(Last(log), webs) then [Last(log)] else []
  }

  lemma {:induction false} KeptNext(log: seq<Event>, e: Event, webs: set<int>)
    ensures Kept(log + [e], webs) == Kept(log, webs) + if Mine(e, webs) then [e] else []
  {
    assert Init(log + [e]) == log;
  }

  ghost predicate SameStore(s: Store, t: Store, webs: set<int>) {
    s.jobs == t.jobs && s.next == t.next && Kept(s.log, webs) == Kept(t.log, webs)
  }

  ghost predicate SameProcs(a: World, b: World, webs: set<int>) {
    && (forall pid | pid !in webs :: pid in a.procs <==> pid in b.procs)
    && (forall pid | pid !in webs && pid in a.procs :: a.procs[pid] == b.procs[pid])
    && (forall pid | pid !in webs :: pid in a.blind <==> pid in b.blind)
  }

  /** The registered process is no web process. */
  predicate OwnPid(r: Registration, webs: set<int>) {
    r.pid.Some? ==> r.pid.value !in webs
  }

  predicate OwnChild(child: Option<Child>, webs: set<int>) {
    child.Some? ==> child.value.pid !in webs
  }

  ghost predicate Like(a: World, b: World, webs: set<int>) {
    && SameStore(a.store, b.store, webs) && SameProcs(a, b, webs)
    && a.reg == b.reg && a.wall == b.wall && a.mono == b.mono
    && (a.reg.Some? ==> OwnPid(a.reg.value, webs))
  }

  // ---- Events and transactions -------------------------------------------------------------------

  lemma {:induction false} NoteLike(s: Store, t: Store, e: Event, webs: set<int>)
    requires SameStore(s, t, webs)
    ensures SameStore(Note(s, e), Note(t, e), webs)
  {
    KeptNext(s.log, e, webs);
    KeptNext(t.log, e, webs);
  }

  lemma {:induction false} EmitLike(a: World, b: World, e: Event, webs: set<int>)
    requires Like(a, b, webs)
    ensures Like(Emit(a, e), Emit(b, e), webs)
  {
    NoteLike(a.store, b.store, e, webs);
  }

  /** An event of the web role is not seen. */
  lemma {:induction false} EmitHidden(w: World, e: Event, webs: set<int>)
    requires !Mine(e, webs)
    ensures Kept(Emit(w, e).store.log, webs) == Kept(w.store.log, webs)
  {
    KeptNext(w.store.log, e, webs);
  }

  lemma {:induction false} RevokeLike(s: Store, t: Store, id: JobId, row: Job, webs: set<int>)
    requires SameStore(s, t, webs) && id in s.jobs
    ensures SameStore(Revoke(s, id, row), Revoke(t, id, row), webs)
  {
    if s.jobs[id].token.Some? {
      var e := Revoked(id, s.jobs[id].token.value, s.jobs[id].instance);
      KeptNext(s.log, e, webs);
      KeptNext(t.log, e, webs);
    }
  }

  lemma {:induction false} OwnerLike(s: Store, t: Store, id: JobId, token: Token, how: Settlement, webs: set<int>)
    requires SameStore(s, t, webs)
    ensures SameStore(Settle(s, id, token, how), Settle(t, id, token, how), webs)
  {
    var s' := Settle(s, id, token, how);
    if s' != s {
      var e := Last(s'.log);
      KeptNext(s.log, e, webs);
      KeptNext(t.log, e, webs);
    }
  }

  lemma {:induction false} ClaimLike(s: Store, t: Store, id: JobId, worker: string, instance: Option<string>, now: int, webs: set<int>)
    requires SameStore(s, t, webs)
    ensures SameStore(Claim(s, id, worker, instance, now), Claim(t, id, worker, instance, now), webs)
  {
    KeptNext(s.log, Claimed(id, s.next, instance), webs);
    KeptNext(t.log, Claimed(id, s.next, instance), webs);
  }

  lemma {:induction false} CancelLike(s: Store, t: Store, id: JobId, read: Job, webs: set<int>)
    requires SameStore(s, t, webs)
    ensures SameStore(RequestCancel(s, id, read), RequestCancel(t, id, read), webs)
  {
    if id in s.jobs {
      RevokeLike(s, t, id, s.jobs[id].(cancel := true, status := Cancelled), webs);
    }
  }

  lemma {:induction false} SetAsideLike(s: Store, t: Store, id: JobId, status: Status, webs: set<int>)
    requires SameStore(s, t, webs)
    ensures SameStore(SetAside(s, id, status), SetAside(t, id, status), webs)
  {
    if id in s.jobs {
      RevokeLike(s, t, id, Unowned(s.jobs[id], status), webs);
    }
  }

  lemma {:induction false} ReclaimLike(s: Store, t: Store, id: JobId, read: Job, webs: set<int>)
    requires SameStore(s, t, webs)
    ensures SameStore(Reclaim(s, id, read), Reclaim(t, id, read), webs)
  {
    var s' := Reclaim(s, id, read);
    if id in s.jobs {
      RevokeLike(s, t, id, s'.jobs[id], webs);
    }
  }

  lemma {:induction false} LoseRowLike(
    s: Store, t: Store, r: Reconciliation, worker: string, instance: Option<string>, memory: bool, rows: Rows, id: JobId, webs: set<int>)
    requires SameStore(s, t, webs)
    ensures SameStore(LoseRow(s, r, worker, instance, memory, rows, id).0, LoseRow(t, r, worker, instance, memory, rows, id).0, webs)
    ensures LoseRow(s, r, worker, instance, memory, rows, id).1 == LoseRow(t, r, worker, instance, memory, rows, id).1
  {
    if id in s.jobs {
      RevokeLike(s, t, id, LostRow(s.jobs[id], memory), webs);
    }
  }

  lemma {:induction false} ReconcileLike(
    s: Store, t: Store, worker: string, instance: Option<string>, memory: bool, rows: Rows, ids: seq<JobId>, webs: set<int>)
    requires SameStore(s, t, webs)
    ensures SameStore(Reconcile(s, worker, instance, memory, rows, ids).0, Reconcile(t, worker, instance, memory, rows, ids).0, webs)
    ensures Reconcile(s, worker, instance, memory, rows, ids).1 == Reconcile(t, worker, instance, memory, rows, ids).1
  {
    if ids != [] {
      ReconcileLike(s, t, worker, instance, memory, rows, Init(ids), webs);
      var (s1, r) := Reconcile(s, worker, instance, memory, rows, Init(ids));
      LoseRowLike(s1, Reconcile(t, worker, instance, memory, rows, Init(ids)).0, r, worker, instance, memory, rows, Last(ids), webs);
    }
  }

  lemma {:induction false} OverdueLike(
    s: Store, t: Store, worker: string, instance: Option<string>, rows: Rows, g: Sighting, webs: set<int>)
    requires SameStore(s, t, webs)
    ensures StillOverdue(s, worker, instance, rows, g) == StillOverdue(t, worker, instance, rows, g)
    ensures StillOverdue(s, worker, instance, rows, g) ==>
              SameStore(Revoke(s, g.job, FrozenRow(s.jobs[g.job])), Revoke(t, g.job, FrozenRow(s.jobs[g.job])), webs)
  {
    if g.job in s.jobs {
      RevokeLike(s, t, g.job, FrozenRow(s.jobs[g.job]), webs);
    }
  }

  lemma {:induction false} FenceStalledLike(
    s: Store, t: Store, worker: string, instance: Option<string>, rows: Rows, seen: seq<Sighting>, webs: set<int>)
    requires SameStore(s, t, webs)
    ensures SameStore(FenceStalled(s, worker, instance, rows, seen).0, FenceStalled(t, worker, instance, rows, seen).0, webs)
    ensures FenceStalled(s, worker, instance, rows, seen).1 == FenceStalled(t, worker, instance, rows, seen).1
  {
    if seen != [] {
      FenceStalledLike(s, t, worker, instance, rows, Init(seen), webs);
      var s1, t1 := FenceStalled(s, worker, instance, rows, Init(seen)).0, FenceStalled(t, worker, instance, rows, Init(seen)).0;
      OverdueLike(s1, t1, worker, instance, rows, Last(seen), webs);
    }
  }

  lemma {:induction false} RequeueRowLike(s: Store, t: Store, id: JobId, limit: nat, webs: set<int>)
    requires SameStore(s, t, webs) && id in s.jobs
    ensures SameStore(RequeueRow(s, id, limit), RequeueRow(t, id, limit), webs)
  {
    RevokeLike(s, t, id, Unowned(s.jobs[id], Cancelled), webs);
    KeptNext(s.log, Recovered(id), webs);
    KeptNext(t.log, Recovered(id), webs);
  }

  lemma {:induction false} RequeueStalledLike(
    s: Store, t: Store, listed: seq<JobId>, limit: nat, rows: Rows, ids: seq<JobId>, webs: set<int>)
    requires SameStore(s, t, webs)
    ensures SameStore(RequeueStalled(s, listed, limit, rows, ids), RequeueStalled(t, listed, limit, rows, ids), webs)
  {
    if ids != [] {
      RequeueStalledLike(s, t, listed, limit, rows, Init(ids), webs);
      var s1 := RequeueStalled(s, listed, limit, rows, Init(ids));
      if Last(ids) in s1.jobs {
        RequeueRowLike(s1, RequeueStalled(t, listed, limit, rows, Init(ids)), Last(ids), limit, webs);
      }
    }
  }

  // ---- Outside steps -----------------------------------------------------------------------------

  /** A step of a web process. */
  predicate WebStep(e: Step, webs: set<int>) {
    (e.Exit? || e.Spawn?) && e.pid in webs
  }

  /** No worker registers under the process id of a web process. */
  predicate Fair(e: Step, webs: set<int>) {
    e.Register? ==> e.pid !in webs
  }

  function Others(steps: seq<Step>, webs: set<int>): seq<Step> {
    if steps == [] then [] else Others(Init(steps), webs) + if WebStep(Last(steps), webs) then [] else [Last(steps)]
  }

  /** The same steps, but for those of web processes. */
  ghost predicate SameSteps(xs: seq<Step>, ys: seq<Step>, webs: set<int>) {
    && Others(xs, webs) == Others(ys, webs)
    && (forall e | e in xs :: Fair(e, webs)) && (forall e | e in ys :: Fair(e, webs))
  }

  lemma {:induction false} WebStepHidden(a: World, b: World, c: Settings, e: Step, webs: set<int>)
    requires Like(a, b, webs) && WebStep(e, webs)
    ensures Like(Do(a, c, e), b, webs) && Like(a, Do(b, c, e), webs)
  {
  }

  /** A job transaction. */
  predicate JobStep(e: Step) {
    e.Take? || e.End? || e.Pulse? || e.Advance? || e.Submit? || e.Cancel? || e.Resume? || e.PutAside? || e.TakeBack?
  }

  lemma {:induction false} JobStepLike(a: World, b: World, c: Settings, e: Step, webs: set<int>)
    requires Like(a, b, webs) && JobStep(e)
    ensures Like(Do(a, c, e), Do(b, c, e), webs)
  {
    match e
    case Take(id, taker) => ClaimLike(a.store, b.store, id, c.worker, taker, a.wall, webs);
    case End(id, token, how) => OwnerLike(a.store, b.store, id, token, how, webs);
    case Cancel(id, read) => CancelLike(a.store, b.store, id, read, webs);
    case PutAside(id, status) => SetAsideLike(a.store, b.store, id, status, webs);
    case TakeBack(id, read) => ReclaimLike(a.store, b.store, id, read, webs);
    case _ =>
  }

  lemma {:induction false} StepLike(a: World, b: World, c: Settings, e: Step, webs: set<int>)
    requires Like(a, b, webs) && Fair(e, webs) && !WebStep(e, webs)
    ensures Like(Do(a, c, e), Do(b, c, e), webs)
  {
    if JobStep(e) {
      JobStepLike(a, b, c, e, webs);
    }
  }

  lemma {:induction false} EnvLike(a: World, b: World, c: Settings, xs: seq<Step>, ys: seq<Step>, webs: set<int>)
    requires Like(a, b, webs) && SameSteps(xs, ys, webs)
    ensures Like(Env(a, c, xs), Env(b, c, ys), webs)
    decreases |xs| + |ys|
  {
    if xs != [] && WebStep(Last(xs), webs) {
      assert forall e | e in Init(xs) :: e in xs;
      EnvLike(a, b, c, Init(xs), ys, webs);
      WebStepHidden(Env(a, c, Init(xs)), Env(b, c, ys), c, Last(xs), webs);
    } else if ys != [] && WebStep(Last(ys), webs) {
      assert forall e | e in Init(ys) :: e in ys;
      EnvLike(a, b, c, xs, Init(ys), webs);
      WebStepHidden(Env(a, c, xs), Env(b, c, Init(ys)), c, Last(ys), webs);
    } else if xs != [] && ys != [] {
      assert Last(Others(xs, webs)) == Last(xs) && Last(Others(ys, webs)) == Last(ys);
      assert Init(Others(xs, webs)) == Others(Init(xs), webs) && Init(Others(ys, webs)) == Others(Init(ys), webs);
      assert (forall e | e in Init(xs) :: e in xs) && (forall e | e in Init(ys) :: e in ys) && Last(xs) in xs;
      EnvLike(a, b, c, Init(xs), Init(ys), webs);
      StepLike(Env(a, c, Init(xs)), Env(b, c, Init(ys)), c, Last(xs), webs);
    }
  }
}
