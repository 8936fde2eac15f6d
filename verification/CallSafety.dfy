/** What every call of `_supervise_once` keeps, under every oracle. */
module CallSafety {
  import opened Common
  import opened Timeline
  import opened JobTable
  import opened Runtime
  import opened SuperviseOnce

  /** A stretch of a call that starts no recovery and no process, and disturbs no parked job. */
  ghost predicate Calmly(a: World, b: World) {
    && Ledger(b.store)
    && Onward(a, b)
    && GrowsBy(a.store.log, b.store.log, Calm)
    && StaysParked(a.store, b.store)
  }

  lemma {:induction false} CalmTrans(a: World, b: World, d: World)
    requires Calmly(a, b) && Calmly(b, d)
    ensures Calmly(a, d)
  {
  }

  lemma {:induction false} EmitCalm(w: World, e: Event)
    requires Ledger(w.store) && Calm(e) && !IsJobEvent(e)
    ensures Calmly(w, Emit(w, e))
  {
    NoteKeeps(w.store, e);
  }

  lemma {:induction false} YieldCalm(w: World, c: Settings, o: Oracle, at: Point)
    requires Ledger(w.store)
    ensures Calmly(w, Yield(w, c, o, at))
  {
    EnvKeeps(w, c, o.env(at));
  }

  lemma {:induction false} PollCalm(w: World, pid: int)
    requires Ledger(w.store)
    ensures Calmly(w, Poll(w, pid))
  {
    EmitCalm(w, ExitSeen(pid));
  }

  lemma {:induction false} TerminateLauncherCalm(w: World, c: Settings, o: Oracle, pid: int)
    requires Ledger(w.store)
    ensures Calmly(w, TerminateLauncher(w, c, o, pid))
  {
    YieldCalm(w, c, o, PreSignal);
    var w1 := Yield(w, c, o, PreSignal);
    EmitCalm(w1, ExitSeen(pid));
    EmitCalm(w1, KillLauncher(pid));
  }

  lemma {:induction false} KillRegisteredCalm(w: World, c: Settings, o: Oracle, r: Registration)
    requires Ledger(w.store)
    ensures Calmly(w, KillRegistered(w, c, o, r))
  {
    YieldCalm(w, c, o, PreKill);
    EmitCalm(Yield(w, c, o, PreKill), KillWorker(PidOf(r)));
  }

  lemma {:induction false} KillSeparateCalm(w: World, c: Settings, o: Oracle, r: Registration, child: Option<Child>)
    requires Ledger(w.store)
    ensures Calmly(w, KillSeparate(w, c, o, r, child))
  {
    if child.Some? {
      YieldCalm(w, c, o, PreKillPoll);
      var w1 := Yield(w, c, o, PreKillPoll);
      PollCalm(w1, child.value.pid);
      CalmTrans(w, w1, Poll(w1, child.value.pid));
      TerminateLauncherCalm(Poll(w1, child.value.pid), c, o, child.value.pid);
    }
  }

  lemma {:induction false} TerminateInstanceCalm(w: World, c: Settings, o: Oracle, r: Registration, child: Option<Child>)
    requires Ledger(w.store)
    ensures Calmly(w, TerminateInstance(w, c, o, r, child))
  {
    KillRegisteredCalm(w, c, o, r);
    KillSeparateCalm(KillRegistered(w, c, o, r), c, o, r, child);
  }

  /** The world a stale loop is judged in after its instance was signalled. */
  function Struck(w: World, c: Settings, o: Oracle, r: Registration, child: Option<Child>): World {
    Yield(TerminateInstance(w, c, o, r, child), c, o, PostKill)
  }

  lemma {:induction false} StruckCalm(w: World, c: Settings, o: Oracle, r: Registration, child: Option<Child>)
    requires Ledger(w.store)
    ensures var w2 := Struck(w, c, o, r, child);
            Calmly(w, w2) && Calmly(w, Emit(w2, FoundDead(PidOf(r)))) && Calmly(TerminateInstance(w, c, o, r, child), w2)
  {
    TerminateInstanceCalm(w, c, o, r, child);
    var w1 := TerminateInstance(w, c, o, r, child);
    YieldCalm(w1, c, o, PostKill);
    var w2 := Yield(w1, c, o, PostKill);
    CalmTrans(w, w1, w2);
    EmitCalm(w2, FoundDead(PidOf(r)));
    CalmTrans(w, w2, Emit(w2, FoundDead(PidOf(r))));
  }

  lemma {:induction false} ReconcileCalm(w: World, c: Settings, r: Registration, memory: bool, rows: Rows)
    requires Ledger(w.store)
    ensures Calmly(w, w.(store := Reconcile(w.store, c.worker, r.instance, memory, rows, rows.order).0))
  {
    var t := Reconcile(w.store, c.worker, r.instance, memory, rows, rows.order).0;
    ReconcileKeeps(w.store, c.worker, r.instance, memory, rows, rows.order);
    ReconcileRevokes(w.store, c.worker, r.instance, memory, rows, rows.order);
    forall id | id in w.store.jobs && Parked(w.store.jobs[id])
      ensures id in t.jobs && Parked(t.jobs[id]) && (w.store.jobs[id].overtaken ==> t.jobs[id].overtaken)
    {
      ReconcileRows(w.store, c.worker, r.instance, memory, rows, rows.order, id);
    }
  }

  lemma {:induction false} FenceLostCalm(w: World, c: Settings, o: Oracle, r: Registration, memory: bool)
    requires Ledger(w.store)
    ensures Calmly(w, FenceLost(w, c, o, r, memory).0)
  {
    YieldCalm(w, c, o, PreFence);
    var w1 := Yield(w, c, o, PreFence);
    var rows := o.rows(FenceJobs);
    ReconcileCalm(w1, c, r, memory, rows);
    var (t, rec) := Reconcile(w1.store, c.worker, r.instance, memory, rows, rows.order);
    CalmTrans(w, w1, w1.(store := t));
    EmitCalm(w1.(store := t), Fenced(r.instance, rec.fenced));
    CalmTrans(w, w1.(store := t), Emit(w1.(store := t), Fenced(r.instance, rec.fenced)));
  }

  lemma {:induction false} StalledCalm(w: World, c: Settings, o: Oracle, r: Registration)
    requires Ledger(w.store)
    ensures Calmly(w, w.(store := FenceStalled(w.store, c.worker, r.instance, o.rows(Watchdog), o.sightings).0))
  {
    var rows := o.rows(Watchdog);
    var t := FenceStalled(w.store, c.worker, r.instance, rows, o.sightings).0;
    FenceStalledKeeps(w.store, c.worker, r.instance, rows, o.sightings);
    FenceStalledRevokes(w.store, c.worker, r.instance, rows, o.sightings);
    forall id | id in w.store.jobs && Parked(w.store.jobs[id])
      ensures id in t.jobs && Parked(t.jobs[id]) && (w.store.jobs[id].overtaken ==> t.jobs[id].overtaken)
    {
      FenceStalledExact(w.store, c.worker, r.instance, rows, o.sightings, id);
    }
  }

  lemma {:induction false} FenceFrozenCalm(w: World, c: Settings, o: Oracle, r: Registration)
    requires Ledger(w.store)
    ensures Calmly(w, FenceFrozen(w, c, o, r).0)
  {
    YieldCalm(w, c, o, PreWatchdog);
    var w1 := Yield(w, c, o, PreWatchdog);
    StalledCalm(w1, c, o, r);
    var (t, fenced) := FenceStalled(w1.store, c.worker, r.instance, o.rows(Watchdog), o.sightings);
    CalmTrans(w, w1, w1.(store := t));
    EmitCalm(w1.(store := t), Fenced(r.instance, fenced));
    CalmTrans(w, w1.(store := t), Emit(w1.(store := t), Fenced(r.instance, fenced)));
  }

  lemma {:induction false} RetireCalm(w: World, c: Settings, o: Oracle, r: Registration)
    requires Ledger(w.store)
    ensures Calmly(w, Retire(w, c, o, r))
  {
    YieldCalm(w, c, o, PreRetire);
    EmitCalm(Yield(w, c, o, PreRetire), Retired(r));
  }

  lemma {:induction false} AssociateCalm(w: World, c: Settings, o: Oracle, r: Registration, pid: int)
    requires Ledger(w.store)
    ensures Calmly(w, AssociateLauncher(w, c, o, r, pid))
  {
    YieldCalm(w, c, o, PreAssociate);
  }

  lemma {:induction false} TrackLauncherCalm(w: World, c: Settings, o: Oracle, r: Registration, child: Option<Child>)
    requires Ledger(w.store)
    ensures Calmly(w, TrackLauncher(w, c, o, r, child).0)
  {
    if child.Some? {
      var pid := child.value.pid;
      AssociateCalm(w, c, o, r, pid);
      var w1 := AssociateLauncher(w, c, o, r, pid);
      YieldCalm(w1, c, o, PreTrackPoll);
      var w2 := Yield(w1, c, o, PreTrackPoll);
      CalmTrans(w, w1, w2);
      PollCalm(w2, pid);
      CalmTrans(w, w2, Poll(w2, pid));
    }
  }

  lemma {:induction false} FenceUsableCalm(w: World, c: Settings, o: Oracle, r: Registration)
    requires Ledger(w.store)
    ensures Calmly(w, FenceUsable(w, c, o, r).0)
  {
    FenceFrozenCalm(w, c, o, r);
    FenceLostCalm(FenceFrozen(w, c, o, r).0, c, o, r, true);
  }

  lemma {:induction false} AssessCalm(w: World, c: Settings, o: Oracle, worker: Option<Registration>)
    requires Ledger(w.store)
    ensures Ledger(Emit(w, Read(worker)).store)
    ensures Calmly(Emit(w, Read(worker)), Assess(w, c, o, worker).world)
  {
    NoteKeeps(w.store, Read(worker));
    var w0 := Emit(w, Read(worker));
    YieldCalm(w0, c, o, PostRead);
    var w1 := Yield(w0, c, o, PostRead);
    YieldCalm(w1, c, o, PostProcess);
    var w2 := Yield(w1, c, o, PostProcess);
    YieldCalm(w2, c, o, PostControl);
    var w3 := Yield(w2, c, o, PostControl);
    YieldCalm(w3, c, o, PostSampler);
    var w4 := Yield(w3, c, o, PostSampler);
    var g := Assess(w, c, o, worker);
    EmitCalm(w4, Assessed(g.process, g.control, g.sampler, g.execution));
  }
}
