/**
 Every recovery is fenced: over every interleaving, a job goes back to the queue only after the call
 that read the registration fenced that job against exactly that registration and then tried to
 retire it.
 */
module RecoverySafety {
  import opened Common
  import opened Timeline
  import opened JobTable
  import opened Runtime
  import opened SuperviseOnce
  import opened CallSafety

  /** The current call read `r` at `from`, and no other call has begun since. */
  ghost predicate Begun(log: seq<Event>, from: nat, r: Registration) {
    from < |log| && log[from] == Read(Some(r)) && forall k | from < k < |log| :: !log[k].Read?
  }

  /** Since `from`, a fence for exactly `r`'s instance returned `id`, whose execution it had revoked. */
  ghost predicate FencedFor(log: seq<Event>, from: nat, r: Registration, id: JobId) {
    exists f :: from < f < |log| && log[f].Fenced? && log[f].fencedInstance == r.instance && id in log[f].ids
                && RevokedSince(log[..f], from, id)
  }

  /** The recovery at `i` belongs to a call that read a registration, fenced the job for it and retired it. */
  ghost predicate Backed(log: seq<Event>, i: nat, from: nat, t: nat) {
    && from < t < i < |log|
    && log[i].Recovered? && log[t].Retired? && log[from] == Read(Some(log[t].retiree))
    && (forall k | from < k < i :: !log[k].Read?)
    && FencedFor(log[..t], from, log[t].retiree, log[i].job)
  }

  ghost predicate AllBacked(log: seq<Event>) {
    forall i | 0 <= i < |log| && log[i].Recovered? :: exists from: nat, t: nat :: Backed(log, i, from, t)
  }

  lemma {:induction false} FencedForGrows(a: seq<Event>, b: seq<Event>, from: nat, r: Registration, id: JobId)
    requires a <= b && FencedFor(a, from, r, id)
    ensures FencedFor(b, from, r, id)
  {
    var f :| from < f < |a| && a[f].Fenced? && a[f].fencedInstance == r.instance && id in a[f].ids
             && RevokedSince(a[..f], from, id);
    assert b[..f] == a[..f] && b[f] == a[f];
  }

  lemma {:induction false} CalmKeepsBacked(a: seq<Event>, b: seq<Event>)
    requires AllBacked(a) && a <= b && forall k | |a| <= k < |b| :: !b[k].Recovered?
    ensures AllBacked(b)
  {
    forall i | 0 <= i < |b| && b[i].Recovered? ensures exists from: nat, t: nat :: Backed(b, i, from, t) {
      assert a[i].Recovered?;
      var from: nat, t: nat :| Backed(a, i, from, t);
      assert b[..t] == a[..t];
      assert Backed(b, i, from, t);
    }
  }

  lemma {:induction false} FenceLostFences(w: World, c: Settings, o: Oracle, r: Registration, memory: bool, from: nat)
    requires Ledger(w.store) && Begun(w.store.log, from, r)
    ensures var (w', ids) := FenceLost(w, c, o, r, memory);
            ids.Some? ==> forall id | id in ids.value :: FencedFor(w'.store.log, from, r, id)
  {
    YieldCalm(w, c, o, PreFence);
    var w1 := Yield(w, c, o, PreFence);
    var rows := o.rows(FenceJobs);
    ReconcileRevokes(w1.store, c.worker, r.instance, memory, rows, rows.order);
    var t := Reconcile(w1.store, c.worker, r.instance, memory, rows, rows.order).0;
    var (w', ids) := FenceLost(w, c, o, r, memory);
    if ids.Some? {
      forall id | id in ids.value ensures FencedFor(w'.store.log, from, r, id) {
        assert w'.store.log[..|t.log|] == t.log;
        assert RevokedSince(t.log, |w1.store.log|, id);
        assert RevokedSince(t.log, from, id);
        assert w'.store.log[|t.log|].Fenced?;
      }
    }
  }

  lemma {:induction false} FenceFrozenFences(w: World, c: Settings, o: Oracle, r: Registration, from: nat)
    requires Ledger(w.store) && Begun(w.store.log, from, r)
    ensures var (w', ids) := FenceFrozen(w, c, o, r);
            ids.Some? ==> forall id | id in ids.value :: FencedFor(w'.store.log, from, r, id)
  {
    YieldCalm(w, c, o, PreWatchdog);
    var w1 := Yield(w, c, o, PreWatchdog);
    FenceStalledRevokes(w1.store, c.worker, r.instance, o.rows(Watchdog), o.sightings);
    var t := FenceStalled(w1.store, c.worker, r.instance, o.rows(Watchdog), o.sightings).0;
    var (w', ids) := FenceFrozen(w, c, o, r);
    if ids.Some? {
      forall id | id in ids.value ensures FencedFor(w'.store.log, from, r, id) {
        assert w'.store.log[..|t.log|] == t.log;
        assert RevokedSince(t.log, |w1.store.log|, id);
        assert RevokedSince(t.log, from, id);
        assert w'.store.log[|t.log|].Fenced?;
      }
    }
  }

  /** What a completed requeue leaves behind. */
  ghost predicate Soundly(a: World, b: World) {
    && Ledger(b.store) && Onward(a, b)
    && a.store.log <= b.store.log
    && (forall k | |a.store.log| <= k < |b.store.log| :: Calm(b.store.log[k]) || b.store.log[k].Recovered?)
  }

  /** Recoveries appended after a fence and a retirement are backed by them. */
  lemma {:induction false} RecoveriesBacked(a: seq<Event>, b: seq<Event>, r: Registration, ids: seq<JobId>, from: nat, t: nat)
    requires AllBacked(a) && Begun(a, from, r) && from < t < |a| && a[t] == Retired(r)
    requires forall id | id in ids :: FencedFor(a[..t], from, r, id)
    requires a <= b && forall k | |a| <= k < |b| :: b[k].Recovered? && b[k].job in ids
    ensures AllBacked(b)
  {
    CalmKeepsBacked(a, b[..|a|]);
    forall i | 0 <= i < |b| && b[i].Recovered? ensures exists from: nat, t: nat :: Backed(b, i, from, t) {
      if i < |a| {
        assert a[i].Recovered?;
        var from', t' :| 0 <= from' && 0 <= t' && Backed(a, i, from', t');
        assert b[..t'] == a[..t'];
        assert Backed(b, i, from', t');
      } else {
        assert b[..t] == a[..t];
        assert Backed(b, i, from, t);
      }
    }
  }

  lemma {:induction false} RequeueBacked(w: World, c: Settings, o: Oracle, r: Registration, ids: seq<JobId>, from: nat, t: nat)
    requires Ledger(w.store) && AllBacked(w.store.log) && Begun(w.store.log, from, r)
    requires from < t < |w.store.log| && w.store.log[t] == Retired(r)
    requires forall id | id in ids :: FencedFor(w.store.log[..t], from, r, id)
    ensures AllBacked(RequeueIds(w, c, o, ids).0.store.log) && Soundly(w, RequeueIds(w, c, o, ids).0)
  {
    YieldCalm(w, c, o, PreRequeue);
    var w0 := Yield(w, c, o, PreRequeue);
    var w1 := Emit(w0, Requeue(ids));
    EmitCalm(w0, Requeue(ids));
    CalmTrans(w, w0, w1);
    CalmKeepsBacked(w.store.log, w1.store.log);
    if ids != [] && o.mishap(RequeueJobs) != RolledBack {
      var rows := o.rows(RequeueJobs);
      RequeueKeeps(w1.store, ids, c.recoveryLimit, rows, rows.order);
      RequeueRecovers(w1.store, ids, c.recoveryLimit, rows, rows.order);
      assert w1.store.log[..t] == w.store.log[..t];
      RecoveriesBacked(w1.store.log, RequeueStalled(w1.store, ids, c.recoveryLimit, rows, rows.order).log, r, ids, from, t);
    }
  }

  lemma {:induction false} RetireAndRequeueBacked(w: World, c: Settings, o: Oracle, r: Registration, ids: seq<JobId>, from: nat)
    requires Ledger(w.store) && AllBacked(w.store.log) && Begun(w.store.log, from, r)
    requires forall id | id in ids :: FencedFor(w.store.log, from, r, id)
    ensures var w' := RetireAndRequeue(w, c, o, r, ids).0; AllBacked(w'.store.log) && Soundly(w, w')
  {
    RetireCalm(w, c, o, r);
    YieldCalm(w, c, o, PreRetire);
    var w1 := Retire(w, c, o, r);
    var t := |w1.store.log| - 1;
    assert w1.store.log[t] == Retired(r);
    assert w.store.log <= w1.store.log[..t];
    CalmKeepsBacked(w.store.log, w1.store.log);
    forall id | id in ids ensures FencedFor(w1.store.log[..t], from, r, id) {
      FencedForGrows(w.store.log, w1.store.log[..t], from, r, id);
    }
    RequeueBacked(w1, c, o, r, ids, from, t);
  }

  lemma {:induction false} RecoverLostBacked(w: World, c: Settings, o: Oracle, r: Registration, from: nat)
    requires Ledger(w.store) && AllBacked(w.store.log) && Begun(w.store.log, from, r)
    ensures var w' := RecoverLost(w, c, o, r).0; AllBacked(w'.store.log) && Soundly(w, w')
  {
    FenceLostCalm(w, c, o, r, false);
    FenceLostFences(w, c, o, r, false, from);
    var (w1, ids) := FenceLost(w, c, o, r, false);
    CalmKeepsBacked(w.store.log, w1.store.log);
    if ids.Some? {
      RetireAndRequeueBacked(w1, c, o, r, ids.value, from);
    }
  }

  lemma {:induction false} StaleLoopBacked(w: World, c: Settings, o: Oracle, r: Registration, child: Option<Child>, from: nat)
    requires Ledger(w.store) && AllBacked(w.store.log) && Begun(w.store.log, from, r)
    ensures var w' := StaleLoop(w, c, o, r, child).0; AllBacked(w'.store.log) && Soundly(w, w')
  {
    StruckCalm(w, c, o, r, child);
    var w2 := Struck(w, c, o, r, child);
    var w3 := Emit(w2, FoundDead(PidOf(r)));
    CalmKeepsBacked(w.store.log, w2.store.log);
    CalmKeepsBacked(w.store.log, w3.store.log);
    RecoverLostBacked(w3, c, o, r, from);
  }

  lemma {:induction false} FenceUsableFences(w: World, c: Settings, o: Oracle, r: Registration, from: nat)
    requires Ledger(w.store) && Begun(w.store.log, from, r)
    ensures var (w', ids) := FenceUsable(w, c, o, r);
            ids.Some? ==> forall id | id in ids.value :: FencedFor(w'.store.log, from, r, id)
  {
    FenceFrozenCalm(w, c, o, r);
    FenceFrozenFences(w, c, o, r, from);
    var (w1, frozen) := FenceFrozen(w, c, o, r);
    FenceLostCalm(w1, c, o, r, true);
    FenceLostFences(w1, c, o, r, true, from);
    var w2 := FenceLost(w1, c, o, r, true).0;
    if frozen.Some? {
      forall id | id in frozen.value ensures FencedFor(w2.store.log, from, r, id) {
        FencedForGrows(w1.store.log, w2.store.log, from, r, id);
      }
    }
  }

  lemma {:induction false} RecycleBacked(
    w: World, c: Settings, o: Oracle, r: Registration, child: Option<Child>, ids: seq<JobId>, from: nat)
    requires Ledger(w.store) && AllBacked(w.store.log) && Begun(w.store.log, from, r)
    requires forall id | id in ids :: FencedFor(w.store.log, from, r, id)
    ensures var w' := Recycle(w, c, o, r, child, ids).0; AllBacked(w'.store.log) && Soundly(w, w')
  {
    TerminateInstanceCalm(w, c, o, r, child);
    var w1 := TerminateInstance(w, c, o, r, child);
    CalmKeepsBacked(w.store.log, w1.store.log);
    forall id | id in ids ensures FencedFor(w1.store.log, from, r, id) {
      FencedForGrows(w.store.log, w1.store.log, from, r, id);
    }
    RetireAndRequeueBacked(w1, c, o, r, ids, from);
  }

  /** A usable worker after its launcher is tracked and both fences are done. */
  lemma {:induction false} UsableFenced(w: World, c: Settings, o: Oracle, r: Registration, child: Option<Child>, from: nat)
    requires Ledger(w.store) && AllBacked(w.store.log) && Begun(w.store.log, from, r)
    ensures var (w2, stalled) := FenceUsable(TrackLauncher(w, c, o, r, child).0, c, o, r);
            && Calmly(w, w2) && AllBacked(w2.store.log) && Begun(w2.store.log, from, r)
            && (stalled.Some? ==> forall id | id in stalled.value :: FencedFor(w2.store.log, from, r, id))
  {
    TrackLauncherCalm(w, c, o, r, child);
    var w1 := TrackLauncher(w, c, o, r, child).0;
    FenceUsableCalm(w1, c, o, r);
    FenceUsableFences(w1, c, o, r, from);
    var w2 := FenceUsable(w1, c, o, r).0;
    CalmTrans(w, w1, w2);
    CalmKeepsBacked(w.store.log, w2.store.log);
  }

  lemma {:induction false} UsableWorkerBacked(w: World, c: Settings, o: Oracle, r: Registration, child: Option<Child>, from: nat)
    requires Ledger(w.store) && AllBacked(w.store.log) && Begun(w.store.log, from, r)
    ensures var w' := UsableWorker(w, c, o, r, child).0; AllBacked(w'.store.log) && Soundly(w, w')
  {
    UsableFenced(w, c, o, r, child, from);
    var (w1, kept) := TrackLauncher(w, c, o, r, child);
    var (w2, stalled) := FenceUsable(w1, c, o, r);
    if stalled.Some? && stalled.value != [] {
      RecycleBacked(w2, c, o, r, kept, stalled.value, from);
    }
  }

  lemma {:induction false} StopRunningCalm(w: World, c: Settings, o: Oracle, child: Option<Child>)
    requires Ledger(w.store)
    ensures Calmly(w, StopRunning(w, c, o, child))
  {
    if child.Some? {
      YieldCalm(w, c, o, PreReplacePoll);
      var v := Yield(w, c, o, PreReplacePoll);
      PollCalm(v, child.value.pid);
      CalmTrans(w, v, Poll(v, child.value.pid));
      TerminateLauncherCalm(Poll(v, child.value.pid), c, o, child.value.pid);
    }
  }

  lemma {:induction false} ReplaceSound(w: World, c: Settings, o: Oracle, child: Option<Child>)
    requires Ledger(w.store)
    ensures var w' := Replace(w, c, o, child).0;
            && Ledger(w'.store) && Onward(w, w') && StaysParked(w.store, w'.store)
            && w.store.log <= w'.store.log
            && (forall k | |w.store.log| <= k < |w'.store.log| :: Calm(w'.store.log[k]) || w'.store.log[k].Launched?)
  {
    StopRunningCalm(w, c, o, child);
    var w1 := StopRunning(w, c, o, child);
    YieldCalm(w1, c, o, PreSpawn);
    var w2 := Yield(w1, c, o, PreSpawn);
    CalmTrans(w, w1, w2);
    NoteKeeps(w2.store, Launched(Worker, o.newPid));
  }

  lemma {:induction false} NoUsableWorkerBacked(
    w: World, c: Settings, o: Oracle, worker: Option<Registration>, child: Option<Child>, from: nat)
    requires Ledger(w.store) && AllBacked(w.store.log)
    requires worker.Some? ==> Begun(w.store.log, from, worker.value)
    ensures var w' := NoUsableWorker(w, c, o, worker, child).0;
            && AllBacked(w'.store.log) && Ledger(w'.store) && Onward(w, w') && w.store.log <= w'.store.log
  {
    AgePollCalm(w, c, o, child);
    var w1 := if child.None? then w else Poll(Yield(w, c, o, PreAgePoll), child.value.pid);
    CalmKeepsBacked(w.store.log, w1.store.log);
    if Active(worker) {
      RecoverLostBacked(w1, c, o, worker.value, from);
      ReplaceBacked(RecoverLost(w1, c, o, worker.value).0, c, o, child);
    } else {
      ReplaceBacked(w1, c, o, child);
    }
  }

  lemma {:induction false} ReplaceBacked(w: World, c: Settings, o: Oracle, child: Option<Child>)
    requires Ledger(w.store) && AllBacked(w.store.log)
    ensures var w' := Replace(w, c, o, child).0;
            && AllBacked(w'.store.log) && Ledger(w'.store) && Onward(w, w') && w.store.log <= w'.store.log
  {
    ReplaceSound(w, c, o, child);
    CalmKeepsBacked(w.store.log, Replace(w, c, o, child).0.store.log);
  }

  lemma {:induction false} AgePollCalm(w: World, c: Settings, o: Oracle, child: Option<Child>)
    requires Ledger(w.store)
    ensures Calmly(w, if child.None? then w else Poll(Yield(w, c, o, PreAgePoll), child.value.pid))
  {
    if child.Some? {
      YieldCalm(w, c, o, PreAgePoll);
      PollCalm(Yield(w, c, o, PreAgePoll), child.value.pid);
      CalmTrans(w, Yield(w, c, o, PreAgePoll), Poll(Yield(w, c, o, PreAgePoll), child.value.pid));
    }
  }

  /** The readings a call begins with: the row as read stands on the timeline, and nothing else has happened. */
  lemma {:induction false} CallOpens(w: World, c: Settings, o: Oracle)
    requires Ledger(w.store) && AllBacked(w.store.log)
    ensures var v := Assess(w, c, o, w.reg).world;
            && Ledger(v.store) && AllBacked(v.store.log) && Onward(w, v) && StaysParked(w.store, v.store)
            && w.store.log < v.store.log && v.store.log[|w.store.log|] == Read(w.reg)
            && forall k | |w.store.log| < k < |v.store.log| :: Calm(v.store.log[k])
  {
    AssessCalm(w, c, o, w.reg);
    var w0, v := Emit(w, Read(w.reg)), Assess(w, c, o, w.reg).world;
    CalmKeepsBacked(w.store.log, w0.store.log);
    CalmKeepsBacked(w0.store.log, v.store.log);
    assert v.store.log[|w.store.log|] == w0.store.log[|w.store.log|];
  }

  /** One call of `_supervise_once`, under any oracle, keeps the ledger and backs every recovery. */
  lemma {:induction false} CallBacked(w: World, c: Settings, o: Oracle, child: Option<Child>)
    requires Ledger(w.store) && AllBacked(w.store.log)
    ensures var w' := SuperviseOnce.SuperviseOnce(w, c, o, child).0;
            && AllBacked(w'.store.log) && Ledger(w'.store) && Onward(w, w') && w.store.log <= w'.store.log
  {
    if o.mishap(ReadRow) == Fine {
      CallOpens(w, c, o);
      var g, from := Assess(w, c, o, w.reg), |w.store.log|;
      if !g.process {
        NoUsableWorkerBacked(g.world, c, o, w.reg, child, from);
      } else if Excused(g) {
        UsableWorkerBacked(g.world, c, o, w.reg.value, child, from);
      } else {
        StaleLoopBacked(g.world, c, o, w.reg.value, child, from);
      }
    }
  }
}
