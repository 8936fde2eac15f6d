/**
 A call of `_supervise_once` requeues only what it fenced itself. A job left stalled by an earlier
 call, because its requeue failed or its row was locked, is never requeued again.
 */
module StrandedJobs {
  import opened Common
  import opened Timeline
  import opened JobTable
  import opened Runtime
  import opened SuperviseOnce
  import opened CallSafety
  import opened RecoverySafety

  /** None of the ids was parked in the reference table `s`, unless its row has been overtaken in `t`. */
  ghost predicate NonePark(s: Store, t: Store, ids: seq<JobId>) {
    forall id | id in ids && id in s.jobs && Parked(s.jobs[id]) :: id in t.jobs && t.jobs[id].overtaken
  }

  lemma {:induction false} FenceLostNonePark(s: Store, w: World, c: Settings, o: Oracle, r: Registration, memory: bool)
    requires Ledger(w.store) && StaysParked(s, w.store)
    ensures var (w', ids) := FenceLost(w, c, o, r, memory); ids.Some? ==> NonePark(s, w'.store, ids.value)
  {
    YieldCalm(w, c, o, PreFence);
    var w1 := Yield(w, c, o, PreFence);
    var rows := o.rows(FenceJobs);
    var (t, rec) := Reconcile(w1.store, c.worker, r.instance, memory, rows, rows.order);
    forall id | id in rec.fenced && id in s.jobs && Parked(s.jobs[id]) ensures id in t.jobs && t.jobs[id].overtaken {
      ReconcileLists(w1.store, c.worker, r.instance, memory, rows, rows.order, id);
      ReconcileRows(w1.store, c.worker, r.instance, memory, rows, rows.order, id);
    }
  }

  lemma {:induction false} FenceFrozenNonePark(s: Store, w: World, c: Settings, o: Oracle, r: Registration)
    requires Ledger(w.store) && StaysParked(s, w.store)
    ensures var (w', ids) := FenceFrozen(w, c, o, r); ids.Some? ==> NonePark(s, w'.store, ids.value)
  {
    YieldCalm(w, c, o, PreWatchdog);
    var w1 := Yield(w, c, o, PreWatchdog);
    var (t, fenced) := FenceStalled(w1.store, c.worker, r.instance, o.rows(Watchdog), o.sightings);
    forall id | id in fenced && id in s.jobs && Parked(s.jobs[id]) ensures id in t.jobs && t.jobs[id].overtaken {
      FenceStalledExact(w1.store, c.worker, r.instance, o.rows(Watchdog), o.sightings, id);
    }
  }

  lemma {:induction false} NoneParkGrows(s: Store, a: Store, b: Store, ids: seq<JobId>)
    requires NonePark(s, a, ids) && StaysParked(a, b)
    ensures NonePark(s, b, ids)
  {
  }

  lemma {:induction false} RetireAndRequeueParks(s: Store, w: World, c: Settings, o: Oracle, r: Registration, ids: seq<JobId>)
    requires Ledger(w.store) && StaysParked(s, w.store) && NonePark(s, w.store, ids)
    ensures var w' := RetireAndRequeue(w, c, o, r, ids).0; Ledger(w'.store) && StaysParked(s, w'.store)
  {
    RetireCalm(w, c, o, r);
    var w0 := Retire(w, c, o, r);
    YieldCalm(w0, c, o, PreRequeue);
    var w1 := Yield(w0, c, o, PreRequeue);
    EmitCalm(w1, Requeue(ids));
    var w2 := Emit(w1, Requeue(ids));
    if ids != [] && o.mishap(RequeueJobs) != RolledBack {
      var rows := o.rows(RequeueJobs);
      RequeueKeeps(w2.store, ids, c.recoveryLimit, rows, rows.order);
      var t := RequeueStalled(w2.store, ids, c.recoveryLimit, rows, rows.order);
      forall id | id in s.jobs && Parked(s.jobs[id])
        ensures id in t.jobs && Parked(t.jobs[id]) && (s.jobs[id].overtaken ==> t.jobs[id].overtaken)
      {
        RequeueExact(w2.store, ids, c.recoveryLimit, rows, rows.order, id);
      }
    }
  }

  lemma {:induction false} RecoverLostParks(s: Store, w: World, c: Settings, o: Oracle, r: Registration)
    requires Ledger(w.store) && StaysParked(s, w.store)
    ensures var w' := RecoverLost(w, c, o, r).0; Ledger(w'.store) && StaysParked(s, w'.store)
  {
    FenceLostCalm(w, c, o, r, false);
    FenceLostNonePark(s, w, c, o, r, false);
    var (w1, ids) := FenceLost(w, c, o, r, false);
    if ids.Some? {
      RetireAndRequeueParks(s, w1, c, o, r, ids.value);
    }
  }

  lemma {:induction false} FenceUsableParks(s: Store, w: World, c: Settings, o: Oracle, r: Registration)
    requires Ledger(w.store) && StaysParked(s, w.store)
    ensures var (w', ids) := FenceUsable(w, c, o, r);
            Ledger(w'.store) && StaysParked(s, w'.store) && (ids.Some? ==> NonePark(s, w'.store, ids.value))
  {
    FenceFrozenCalm(w, c, o, r);
    FenceFrozenNonePark(s, w, c, o, r);
    var w1 := FenceFrozen(w, c, o, r).0;
    FenceLostCalm(w1, c, o, r, true);
    FenceLostNonePark(s, w1, c, o, r, true);
    if FenceFrozen(w, c, o, r).1.Some? {
      NoneParkGrows(s, w1.store, FenceLost(w1, c, o, r, true).0.store, FenceFrozen(w, c, o, r).1.value);
    }
  }

  lemma {:induction false} UsableWorkerParks(s: Store, w: World, c: Settings, o: Oracle, r: Registration, child: Option<Child>)
    requires Ledger(w.store) && StaysParked(s, w.store)
    ensures StaysParked(s, UsableWorker(w, c, o, r, child).0.store)
  {
    TrackLauncherCalm(w, c, o, r, child);
    var (w1, kept) := TrackLauncher(w, c, o, r, child);
    FenceUsableParks(s, w1, c, o, r);
    var (w2, stalled) := FenceUsable(w1, c, o, r);
    if stalled.Some? && stalled.value != [] {
      TerminateInstanceCalm(w2, c, o, r, kept);
      NoneParkGrows(s, w2.store, TerminateInstance(w2, c, o, r, kept).store, stalled.value);
      RetireAndRequeueParks(s, TerminateInstance(w2, c, o, r, kept), c, o, r, stalled.value);
    }
  }

  lemma {:induction false} StaleLoopParks(s: Store, w: World, c: Settings, o: Oracle, r: Registration, child: Option<Child>)
    requires Ledger(w.store) && StaysParked(s, w.store)
    ensures StaysParked(s, StaleLoop(w, c, o, r, child).0.store)
  {
    TerminateInstanceCalm(w, c, o, r, child);
    var w1 := TerminateInstance(w, c, o, r, child);
    YieldCalm(w1, c, o, PostKill);
    var w2 := Yield(w1, c, o, PostKill);
    CalmTrans(w, w1, w2);
    EmitCalm(w2, FoundDead(PidOf(r)));
    RecoverLostParks(s, Emit(w2, FoundDead(PidOf(r))), c, o, r);
  }

  lemma {:induction false} NoUsableWorkerParks(s: Store, w: World, c: Settings, o: Oracle, worker: Option<Registration>, child: Option<Child>)
    requires Ledger(w.store) && StaysParked(s, w.store)
    ensures StaysParked(s, NoUsableWorker(w, c, o, worker, child).0.store)
  {
    AgePollCalm(w, c, o, child);
    var w1 := if child.None? then w else Poll(Yield(w, c, o, PreAgePoll), child.value.pid);
    if Active(worker) {
      RecoverLostParks(s, w1, c, o, worker.value);
      ReplaceSound(RecoverLost(w1, c, o, worker.value).0, c, o, child);
    } else {
      ReplaceSound(w1, c, o, child);
    }
  }

  /** A job that is not queued, recovering or running when a call begins is not made runnable by it, whatever else moves. */
  lemma {:induction false} CallStrands(w: World, c: Settings, o: Oracle, child: Option<Child>)
    requires Ledger(w.store)
    ensures StaysParked(w.store, SuperviseOnce.SuperviseOnce(w, c, o, child).0.store)
  {
    if o.mishap(ReadRow) == Fine {
      AssessCalm(w, c, o, w.reg);
      var g := Assess(w, c, o, w.reg);
      assert StaysParked(w.store, g.world.store);
      if !g.process {
        NoUsableWorkerParks(w.store, g.world, c, o, w.reg, child);
      } else if Excused(g) {
        UsableWorkerParks(w.store, g.world, c, o, w.reg.value, child);
      } else {
        StaleLoopParks(w.store, g.world, c, o, w.reg.value, child);
      }
    }
  }

  // ---- What becomes of a fenced job ----------------------------------------------------------------

  /** The table as the fence finds it. */
  function AtFence(w: World, c: Settings, o: Oracle): Store {
    Yield(w, c, o, PreFence).store
  }

  /** The table as the requeue finds it, after the retirement and whatever else has moved. */
  function AtRequeue(w: World, c: Settings, o: Oracle, r: Registration): Store {
    Yield(Retire(w, c, o, r), c, o, PreRequeue).store
  }

  /** The requeue commits, and the row is returned, authorised and not locked. */
  predicate Reached(o: Oracle, id: JobId) {
    var rows := o.rows(RequeueJobs);
    o.mishap(RequeueJobs) != RolledBack && id in rows.order && id in rows.authorised && id !in rows.locked
  }

  function Requeued(j: Job, limit: nat): Job {
    if j.cancel then Unowned(j, Cancelled) else j.(status := if j.identical >= limit then Blocked else Recovering)
  }

  /** Whatever moves: a listed row is requeued exactly when it is still stalled and within reach. */
  lemma {:induction false} RequeuedExactly(w: World, c: Settings, o: Oracle, r: Registration, ids: seq<JobId>, id: JobId)
    requires id in ids && id in AtRequeue(w, c, o, r).jobs
    ensures var k, j := AtRequeue(w, c, o, r).jobs[id], RetireAndRequeue(w, c, o, r, ids).0.store.jobs[id];
            && j == (if Reached(o, id) && k.status == Stalled then Requeued(k, c.recoveryLimit) else k)
            && (j.status == Stalled <==> k.status == Stalled && !Reached(o, id))
  {
    var w1 := Emit(Yield(Retire(w, c, o, r), c, o, PreRequeue), Requeue(ids));
    RequeueExact(w1.store, ids, c.recoveryLimit, o.rows(RequeueJobs), o.rows(RequeueJobs).order, id);
  }

  /** A parked row is still there when the requeue looks at it. */
  lemma {:induction false} StillThere(w: World, c: Settings, o: Oracle, r: Registration, id: JobId)
    requires Ledger(w.store) && id in w.store.jobs && Parked(w.store.jobs[id])
    ensures id in AtRequeue(w, c, o, r).jobs
  {
    RetireCalm(w, c, o, r);
    YieldCalm(Retire(w, c, o, r), c, o, PreRequeue);
  }

  lemma {:induction false} FencedRow(w: World, c: Settings, o: Oracle, r: Registration, memory: bool, id: JobId)
    requires o.mishap(FenceJobs) != RolledBack
    requires Hit(AtFence(w, c, o), c.worker, r.instance, o.rows(FenceJobs), o.rows(FenceJobs).order, id)
    ensures var j, (w1, ids) := AtFence(w, c, o).jobs[id], FenceLost(w, c, o, r, memory);
            && id in w1.store.jobs && w1.store.jobs[id] == LostRow(j, memory)
            && (ids.Some? <==> o.mishap(FenceJobs) == Fine) && (ids.Some? ==> (id in ids.value <==> !j.cancel))
  {
    var s, rows := AtFence(w, c, o), o.rows(FenceJobs);
    ReconcileRows(s, c.worker, r.instance, memory, rows, rows.order, id);
    ReconcileLists(s, c.worker, r.instance, memory, rows, rows.order, id);
  }

  /**
   What becomes of a job that the fence took from a lost instance, whatever else moves. The fence leaves it
   cancelled or stalled. If its answer is lost, nothing more happens. Otherwise a stalled job is left stalled, for
   good, exactly when the requeue finds it stalled but rolls back, or its row is not returned, not authorised or locked.
   */
  lemma {:induction false} RecoveryExactly(w: World, c: Settings, o: Oracle, r: Registration, id: JobId)
    requires Ledger(w.store) && o.mishap(FenceJobs) != RolledBack
    requires Hit(AtFence(w, c, o), c.worker, r.instance, o.rows(FenceJobs), o.rows(FenceJobs).order, id)
    ensures var w1, w' := FenceLost(w, c, o, r, false).0, RecoverLost(w, c, o, r).0;
            && id in w1.store.jobs && w1.store.jobs[id] == LostRow(AtFence(w, c, o).jobs[id], false)
            && (o.mishap(FenceJobs) != Fine ==> w' == w1)
            && (o.mishap(FenceJobs) == Fine && !AtFence(w, c, o).jobs[id].cancel ==>
                  && id in AtRequeue(w1, c, o, r).jobs && id in w'.store.jobs
                  && var k := AtRequeue(w1, c, o, r).jobs[id];
                  && w'.store.jobs[id] == (if Reached(o, id) && k.status == Stalled then Requeued(k, c.recoveryLimit) else k)
                  && (w'.store.jobs[id].status == Stalled <==> k.status == Stalled && !Reached(o, id)))
  {
    FencedRow(w, c, o, r, false, id);
    var (w1, ids) := FenceLost(w, c, o, r, false);
    if o.mishap(FenceJobs) == Fine && !AtFence(w, c, o).jobs[id].cancel {
      FenceLostCalm(w, c, o, r, false);
      StillThere(w1, c, o, r, id);
      RequeuedExactly(w1, c, o, r, ids.value, id);
    }
  }

  /** The same for a recycled worker, between its fences and its requeue. */
  lemma {:induction false} RecycleExactly(
    w: World, c: Settings, o: Oracle, r: Registration, child: Option<Child>, ids: seq<JobId>, id: JobId)
    requires Ledger(w.store) && id in ids && id in w.store.jobs && Parked(w.store.jobs[id])
    ensures var w1, w' := TerminateInstance(w, c, o, r, child), Recycle(w, c, o, r, child, ids).0;
            && id in AtRequeue(w1, c, o, r).jobs && id in w'.store.jobs
            && var k := AtRequeue(w1, c, o, r).jobs[id];
            && w'.store.jobs[id] == (if Reached(o, id) && k.status == Stalled then Requeued(k, c.recoveryLimit) else k)
            && (w'.store.jobs[id].status == Stalled <==> k.status == Stalled && !Reached(o, id))
  {
    TerminateInstanceCalm(w, c, o, r, child);
    StillThere(TerminateInstance(w, c, o, r, child), c, o, r, id);
    RequeuedExactly(TerminateInstance(w, c, o, r, child), c, o, r, ids, id);
  }

  /** When nothing else moves, the row after the whole recovery is a function of the row before it. */
  lemma {:induction false} UndisturbedRecovery(w: World, c: Settings, o: Oracle, r: Registration, id: JobId)
    requires Ledger(w.store) && (forall p :: o.env(p) == []) && o.mishap(FenceJobs) != RolledBack
    requires Hit(w.store, c.worker, r.instance, o.rows(FenceJobs), o.rows(FenceJobs).order, id)
    ensures var j, j' := w.store.jobs[id], RecoverLost(w, c, o, r).0.store.jobs[id];
            j' == if j.cancel then Unowned(j, Cancelled)
                  else if o.mishap(FenceJobs) != Fine || !Reached(o, id) then Unowned(j, Stalled)
                  else Unowned(j, if j.identical >= c.recoveryLimit then Blocked else Recovering)
  {
    assert AtFence(w, c, o) == w.store;
    FencedRow(w, c, o, r, false, id);
    RecoveryExactly(w, c, o, r, id);
    var (w1, ids) := FenceLost(w, c, o, r, false);
    assert AtRequeue(w1, c, o, r).jobs == w1.store.jobs;
    if ids.Some? && w.store.jobs[id].cancel {
      var w2 := Emit(Retire(w1, c, o, r), Requeue(ids.value));
      RequeueExact(w2.store, ids.value, c.recoveryLimit, o.rows(RequeueJobs), o.rows(RequeueJobs).order, id);
    }
  }
}
