/**
 Recycling is justified: the registered process is signalled only after the same call found its
 control loop stale without excuse, or fenced a job of it, or at an owned shutdown; and on a stale
 control loop nothing durable happens before the process was found dead. Signals and deaths concern
 the very process of the registration that the call read.
 */
module Recycling {
  import opened Common
  import opened Timeline
  import opened JobTable
  import opened Runtime
  import opened SuperviseOnce
  import opened CallSafety
  import opened RecoverySafety
  import opened Launchers

  /** The verdict that condemns a live process: stale control loop, no fresh execution with a live sampler. */
  predicate Condemned(e: Event) {
    e.Assessed? && e.process && !e.control && !(e.execution && e.sampler)
  }

  predicate Durable(e: Event) {
    e.Fenced? || e.Retired? || e.Requeue?
  }

  ghost predicate NoReadBetween(log: seq<Event>, a: int, b: int) {
    0 <= a <= b <= |log| && forall k | a < k < b :: !log[k].Read?
  }

  /** Within the call that signals at `i`, the verdict or a fenced job came first. */
  ghost predicate Grounds(log: seq<Event>, i: nat, a: nat) {
    && a < i < |log| && NoReadBetween(log, a, i)
    && ((log[a].Assessed? && log[a].process && (Condemned(log[a]) || exists f :: a < f < i && log[f].Fenced? && log[f].ids != []))
        || log[a].Closing?)
  }

  ghost predicate KillsGrounded(log: seq<Event>) {
    forall i | 0 <= i < |log| && log[i].KillWorker? :: exists a: nat :: Grounds(log, i, a)
  }

  /** After a condemning verdict, a durable action of that call follows the process's death. */
  ghost predicate DeathFirst(log: seq<Event>) {
    forall a, i | 0 <= a < i < |log| && Condemned(log[a]) && Durable(log[i]) && NoReadBetween(log, a, i) ::
      exists d :: a < d < i && log[d].FoundDead?
  }

  /** The signal or death at `i` concerns the very process of the registration its call read. */
  ghost predicate Aimed(log: seq<Event>, i: nat, from: nat) {
    && from < i < |log| && (log[i].KillWorker? || log[i].FoundDead?)
    && log[from].Read? && log[from].worker.Some? && PidOf(log[from].worker.value) == log[i].pid
    && NoReadBetween(log, from, i)
  }

  ghost predicate AllAimed(log: seq<Event>) {
    forall i | 0 <= i < |log| && (log[i].KillWorker? || log[i].FoundDead?) :: exists from: nat :: Aimed(log, i, from)
  }

  ghost predicate Justified(log: seq<Event>) {
    KillsGrounded(log) && DeathFirst(log) && AllAimed(log)
  }

  /** Signalling and watching: no durable action. */
  predicate Handling(e: Event) {
    Outside(e) || e.ExitSeen? || e.KillLauncher? || e.KillWorker?
  }

  /** Durable work: the registered process is not signalled and nothing is started. */
  predicate Repairing(e: Event) {
    Outside(e) || e.ExitSeen? || e.KillLauncher? || Durable(e) || e.Recovered?
  }

  /** Durable work, and perhaps a new worker. */
  predicate Recording(e: Event) {
    Repairing(e) || (e.Launched? && e.role == Worker)
  }

  // ---- Growth of the timeline ------------------------------------------------------------------

  lemma {:induction false} GroundsStable(a: seq<Event>, b: seq<Event>, i: nat, k: nat)
    requires a <= b && Grounds(a, i, k)
    ensures Grounds(b, i, k)
  {
    assert forall x | 0 <= x < |a| :: b[x] == a[x];
    if exists f :: k < f < i && a[f].Fenced? && a[f].ids != [] {
      var f :| k < f < i && a[f].Fenced? && a[f].ids != [];
      assert b[f].Fenced? && b[f].ids != [];
    }
  }

  /** Some fence since `from` returned a job. */
  ghost predicate FencedAny(log: seq<Event>, from: nat) {
    exists f :: from <= f < |log| && log[f].Fenced? && log[f].ids != []
  }

  lemma {:induction false} AimedGrows(a: seq<Event>, b: seq<Event>)
    requires AllAimed(a) && a <= b
    requires forall i | |a| <= i < |b| && (b[i].KillWorker? || b[i].FoundDead?) :: exists from: nat :: Aimed(b, i, from)
    ensures AllAimed(b)
  {
    forall i | 0 <= i < |b| && (b[i].KillWorker? || b[i].FoundDead?) ensures exists from: nat :: Aimed(b, i, from) {
      if i < |a| {
        assert a[i] == b[i];
        var from: nat :| Aimed(a, i, from);
        assert Aimed(b, i, from);
      }
    }
  }

  /** New kills need grounds, new durable actions need a death if the call was condemned. */
  lemma {:induction false} Extend(a: seq<Event>, b: seq<Event>)
    requires Justified(a) && a <= b
    requires forall i | |a| <= i < |b| && b[i].KillWorker? :: exists k: nat :: Grounds(b, i, k)
    requires forall k, i | 0 <= k < i && |a| <= i < |b| && Condemned(b[k]) && Durable(b[i]) && NoReadBetween(b, k, i) ::
               exists d :: k < d < i && b[d].FoundDead?
    requires forall i | |a| <= i < |b| && (b[i].KillWorker? || b[i].FoundDead?) :: exists from: nat :: Aimed(b, i, from)
    ensures Justified(b)
  {
    AimedGrows(a, b);
    forall i | 0 <= i < |b| && b[i].KillWorker? ensures exists k: nat :: Grounds(b, i, k) {
      if i < |a| {
        assert a[i].KillWorker?;
        var k: nat :| Grounds(a, i, k);
        GroundsStable(a, b, i, k);
      }
    }
    forall k, i | 0 <= k < i < |b| && Condemned(b[k]) && Durable(b[i]) && NoReadBetween(b, k, i)
      ensures exists d :: k < d < i && b[d].FoundDead?
    {
      if i < |a| {
        assert Condemned(a[k]) && Durable(a[i]) && NoReadBetween(a, k, i);
        var d :| k < d < i && a[d].FoundDead?;
        assert b[d].FoundDead?;
      }
    }
  }

  /** Handling under grounds at `k`. */
  lemma {:induction false} HandlingJustified(a: seq<Event>, b: seq<Event>, r: Registration, from: nat, k: nat)
    requires Justified(a) && GrowsBy(a, b, Handling)
    requires forall i | |a| <= i < |b| && b[i].KillWorker? :: b[i].pid == PidOf(r)
    requires from < k < |a| && a[from] == Read(Some(r)) && NoReadBetween(a, from, |a|)
    requires Condemned(a[k]) || a[k].Closing? || (a[k].Assessed? && a[k].process && exists f :: k < f < |a| && a[f].Fenced? && a[f].ids != [])
    ensures Justified(b)
  {
    forall i | |a| <= i < |b| && b[i].KillWorker? ensures exists k: nat :: Grounds(b, i, k) {
      if !Condemned(a[k]) && !a[k].Closing? {
        var f :| k < f < |a| && a[f].Fenced? && a[f].ids != [];
        assert b[f].Fenced? && b[f].ids != [];
      }
      assert Grounds(b, i, k);
    }
    forall i | |a| <= i < |b| && b[i].KillWorker? ensures exists from: nat :: Aimed(b, i, from) {
      assert Aimed(b, i, from);
    }
    Extend(a, b);
  }

  /** Durable work once the verdict at `k` is not a condemnation, or the process was found dead since. */
  lemma {:induction false} RecordingJustified(a: seq<Event>, b: seq<Event>, from: nat, k: nat)
    requires Justified(a) && GrowsBy(a, b, Recording)
    requires from < k < |a| && a[from].Read? && NoReadBetween(a, from, |a|)
    requires forall x | from < x < |a| && x != k :: !a[x].Assessed?
    requires Condemned(a[k]) ==> exists d :: k < d < |a| && a[d].FoundDead?
    ensures Justified(b)
  {
    forall x, i | 0 <= x < i && |a| <= i < |b| && Condemned(b[x]) && Durable(b[i]) && NoReadBetween(b, x, i)
      ensures exists d :: x < d < i && b[d].FoundDead?
    {
      assert b[from].Read?;
      assert x == k;
      var d :| k < d < |a| && a[d].FoundDead?;
      assert b[d].FoundDead?;
    }
    Extend(a, b);
  }

  // ---- The pieces of a call --------------------------------------------------------------------

  lemma {:induction false} YieldHandles(w: World, c: Settings, o: Oracle, at: Point)
    ensures GrowsBy(w.store.log, Yield(w, c, o, at).store.log, Outside)
  {
    EnvKeeps(w, c, o.env(at));
  }

  lemma {:induction false} TerminateLauncherHandles(w: World, c: Settings, o: Oracle, pid: int)
    ensures GrowsBy(w.store.log, TerminateLauncher(w, c, o, pid).store.log, Handling)
    ensures GrowsBy(w.store.log, TerminateLauncher(w, c, o, pid).store.log, Repairing)
  {
    YieldHandles(w, c, o, PreSignal);
  }

  lemma {:induction false} TerminateInstanceHandles(w: World, c: Settings, o: Oracle, r: Registration, child: Option<Child>)
    ensures var a, b := w.store.log, TerminateInstance(w, c, o, r, child).store.log;
            && GrowsBy(a, b, Handling)
            && forall i | |a| <= i < |b| && b[i].KillWorker? :: b[i].pid == PidOf(r)
  {
    YieldHandles(w, c, o, PreKill);
    KillSeparateHandles(KillRegistered(w, c, o, r), c, o, r, child);
  }

  lemma {:induction false} KillSeparateHandles(w: World, c: Settings, o: Oracle, r: Registration, child: Option<Child>)
    ensures GrowsBy(w.store.log, KillSeparate(w, c, o, r, child).store.log, Repairing)
    ensures GrowsBy(w.store.log, KillSeparate(w, c, o, r, child).store.log, Handling)
  {
    if child.Some? {
      YieldHandles(w, c, o, PreKillPoll);
      TerminateLauncherHandles(Poll(Yield(w, c, o, PreKillPoll), child.value.pid), c, o, child.value.pid);
    }
  }

  /** The fence's own event is the last one it writes. */
  lemma {:induction false} FenceLostRecords(w: World, c: Settings, o: Oracle, r: Registration, memory: bool)
    requires Ledger(w.store)
    ensures var (w', ids) := FenceLost(w, c, o, r, memory);
            && GrowsBy(w.store.log, w'.store.log, Repairing)
            && (ids.Some? && ids.value != [] ==> FencedAny(w'.store.log, |w.store.log|))
  {
    YieldHandles(w, c, o, PreFence);
    YieldCalm(w, c, o, PreFence);
    var w1 := Yield(w, c, o, PreFence);
    ReconcileRevokes(w1.store, c.worker, r.instance, memory, o.rows(FenceJobs), o.rows(FenceJobs).order);
    var (w', ids) := FenceLost(w, c, o, r, memory);
    if ids.Some? {
      assert w'.store.log[|w'.store.log| - 1] == Fenced(r.instance, ids.value);
      assert |w1.store.log| < |w'.store.log|;
    }
  }

  lemma {:induction false} FenceFrozenRecords(w: World, c: Settings, o: Oracle, r: Registration)
    requires Ledger(w.store)
    ensures var (w', ids) := FenceFrozen(w, c, o, r);
            && GrowsBy(w.store.log, w'.store.log, Repairing)
            && (ids.Some? && ids.value != [] ==> FencedAny(w'.store.log, |w.store.log|))
  {
    YieldHandles(w, c, o, PreWatchdog);
    YieldCalm(w, c, o, PreWatchdog);
    var w1 := Yield(w, c, o, PreWatchdog);
    FenceStalledRevokes(w1.store, c.worker, r.instance, o.rows(Watchdog), o.sightings);
    var (w', ids) := FenceFrozen(w, c, o, r);
    if ids.Some? {
      assert w'.store.log[|w'.store.log| - 1] == Fenced(r.instance, ids.value);
      assert |w1.store.log| < |w'.store.log|;
    }
  }

  lemma {:induction false} RequeueRecords(w: World, c: Settings, o: Oracle, ids: seq<JobId>)
    requires Ledger(w.store)
    ensures GrowsBy(w.store.log, RequeueIds(w, c, o, ids).0.store.log, Repairing)
  {
    if ids != [] {
      YieldHandles(w, c, o, PreRequeue);
      YieldCalm(w, c, o, PreRequeue);
      var w1 := Emit(Yield(w, c, o, PreRequeue), Requeue(ids));
      EmitCalm(Yield(w, c, o, PreRequeue), Requeue(ids));
      RequeueRecovers(w1.store, ids, c.recoveryLimit, o.rows(RequeueJobs), o.rows(RequeueJobs).order);
    }
  }

  lemma {:induction false} RetireAndRequeueRecords(w: World, c: Settings, o: Oracle, r: Registration, ids: seq<JobId>)
    requires Ledger(w.store)
    ensures GrowsBy(w.store.log, RetireAndRequeue(w, c, o, r, ids).0.store.log, Repairing)
  {
    YieldHandles(w, c, o, PreRetire);
    RetireCalm(w, c, o, r);
    RequeueRecords(Retire(w, c, o, r), c, o, ids);
  }

  lemma {:induction false} RecoverLostRecords(w: World, c: Settings, o: Oracle, r: Registration)
    requires Ledger(w.store)
    ensures GrowsBy(w.store.log, RecoverLost(w, c, o, r).0.store.log, Repairing)
  {
    FenceLostRecords(w, c, o, r, false);
    FenceLostCalm(w, c, o, r, false);
    var (w1, ids) := FenceLost(w, c, o, r, false);
    if ids.Some? {
      RetireAndRequeueRecords(w1, c, o, r, ids.value);
    }
  }

  lemma {:induction false} ReplaceRecords(w: World, c: Settings, o: Oracle, child: Option<Child>)
    ensures GrowsBy(w.store.log, Replace(w, c, o, child).0.store.log, Recording)
  {
    if child.Some? {
      YieldHandles(w, c, o, PreReplacePoll);
      TerminateLauncherHandles(Poll(Yield(w, c, o, PreReplacePoll), child.value.pid), c, o, child.value.pid);
    }
    YieldHandles(StopRunning(w, c, o, child), c, o, PreSpawn);
  }

  lemma {:induction false} NoUsableWorkerRecords(w: World, c: Settings, o: Oracle, worker: Option<Registration>, child: Option<Child>)
    requires Ledger(w.store)
    ensures GrowsBy(w.store.log, NoUsableWorker(w, c, o, worker, child).0.store.log, Recording)
  {
    var w1 := w;
    if child.Some? {
      YieldHandles(w, c, o, PreAgePoll);
      YieldCalm(w, c, o, PreAgePoll);
      PollCalm(Yield(w, c, o, PreAgePoll), child.value.pid);
      w1 := Poll(Yield(w, c, o, PreAgePoll), child.value.pid);
    }
    if Active(worker) {
      RecoverLostRecords(w1, c, o, worker.value);
      ReplaceRecords(RecoverLost(w1, c, o, worker.value).0, c, o, child);
    } else {
      ReplaceRecords(w1, c, o, child);
    }
  }

  lemma {:induction false} TrackLauncherRecords(w: World, c: Settings, o: Oracle, r: Registration, child: Option<Child>)
    ensures GrowsBy(w.store.log, TrackLauncher(w, c, o, r, child).0.store.log, Repairing)
  {
    if child.Some? {
      YieldHandles(w, c, o, PreAssociate);
      YieldHandles(AssociateLauncher(w, c, o, r, child.value.pid), c, o, PreTrackPoll);
    }
  }

  /** A nonempty list of stalled jobs was returned by a fence that is on the timeline. */
  lemma {:induction false} FenceUsableRecords(w: World, c: Settings, o: Oracle, r: Registration)
    requires Ledger(w.store)
    ensures var (w', stalled) := FenceUsable(w, c, o, r);
            && GrowsBy(w.store.log, w'.store.log, Repairing)
            && (stalled.Some? && stalled.value != [] ==> FencedAny(w'.store.log, |w.store.log|))
  {
    FenceFrozenRecords(w, c, o, r);
    FenceFrozenCalm(w, c, o, r);
    var (w1, frozen) := FenceFrozen(w, c, o, r);
    FenceLostRecords(w1, c, o, r, true);
    var (w2, lost) := FenceLost(w1, c, o, r, true);
    if frozen.Some? && frozen.value != [] {
      var f :| |w.store.log| <= f < |w1.store.log| && w1.store.log[f].Fenced? && w1.store.log[f].ids != [];
      assert w2.store.log[f] == w1.store.log[f];
    }
    if lost.Some? && lost.value != [] {
      var f :| |w1.store.log| <= f < |w2.store.log| && w2.store.log[f].Fenced? && w2.store.log[f].ids != [];
      assert |w.store.log| <= f;
    }
  }

  // ---- The call --------------------------------------------------------------------------------

  /** The current call's registration read, and its one verdict at `k`. */
  ghost predicate Ruled(log: seq<Event>, from: nat, k: nat) {
    && from < k < |log| && log[from].Read? && NoReadBetween(log, from, |log|)
    && log[k].Assessed? && forall x | from < x < |log| && x != k :: !log[x].Assessed?
  }

  lemma {:induction false} RuledGrows(a: seq<Event>, b: seq<Event>, from: nat, k: nat)
    requires Ruled(a, from, k) && a <= b && forall x | |a| <= x < |b| :: !b[x].Read? && !b[x].Assessed?
    ensures Ruled(b, from, k)
  {
  }

  lemma {:induction false} StruckHandles(w: World, c: Settings, o: Oracle, r: Registration, child: Option<Child>)
    requires Ledger(w.store)
    ensures var a, b := w.store.log, Struck(w, c, o, r, child).store.log;
            && GrowsBy(a, b, Handling)
            && forall i | |a| <= i < |b| && b[i].KillWorker? :: b[i].pid == PidOf(r)
  {
    TerminateInstanceHandles(w, c, o, r, child);
    YieldHandles(TerminateInstance(w, c, o, r, child), c, o, PostKill);
  }

  lemma {:induction false} StruckJustified(w: World, c: Settings, o: Oracle, r: Registration, child: Option<Child>, from: nat, k: nat)
    requires Ledger(w.store) && Justified(w.store.log) && Ruled(w.store.log, from, k) && Condemned(w.store.log[k])
    requires w.store.log[from] == Read(Some(r))
    ensures var w2 := Struck(w, c, o, r, child);
            var w3 := Emit(w2, FoundDead(PidOf(r)));
            Justified(w2.store.log) && Justified(w3.store.log) && Ruled(w3.store.log, from, k) && w3.store.log[k] == w.store.log[k]
  {
    StruckHandles(w, c, o, r, child);
    var w2 := Struck(w, c, o, r, child);
    HandlingJustified(w.store.log, w2.store.log, r, from, k);
    RuledGrows(w.store.log, w2.store.log, from, k);
    var w3 := Emit(w2, FoundDead(PidOf(r)));
    assert Aimed(w3.store.log, |w2.store.log|, from);
    Extend(w2.store.log, w3.store.log);
    RuledGrows(w2.store.log, w3.store.log, from, k);
  }

  lemma {:induction false} StaleLoopJustified(w: World, c: Settings, o: Oracle, r: Registration, child: Option<Child>, from: nat, k: nat)
    requires Ledger(w.store) && Justified(w.store.log) && Ruled(w.store.log, from, k) && Condemned(w.store.log[k])
    requires w.store.log[from] == Read(Some(r))
    ensures Justified(StaleLoop(w, c, o, r, child).0.store.log)
  {
    StruckJustified(w, c, o, r, child, from, k);
    StruckCalm(w, c, o, r, child);
    var w2 := Struck(w, c, o, r, child);
    var w3 := Emit(w2, FoundDead(PidOf(r)));
    assert w3.store.log[|w2.store.log|].FoundDead?;
    RecoverLostRecords(w3, c, o, r);
    RecordingJustified(w3.store.log, RecoverLost(w3, c, o, r).0.store.log, from, k);
  }

  lemma {:induction false} RecycleJustified(
    w: World, c: Settings, o: Oracle, r: Registration, child: Option<Child>, ids: seq<JobId>, from: nat, k: nat)
    requires Ledger(w.store) && Justified(w.store.log) && Ruled(w.store.log, from, k)
    requires w.store.log[k].process && !Condemned(w.store.log[k]) && FencedAny(w.store.log, k + 1)
    requires w.store.log[from] == Read(Some(r))
    ensures Justified(Recycle(w, c, o, r, child, ids).0.store.log)
  {
    TerminateInstanceHandles(w, c, o, r, child);
    TerminateInstanceCalm(w, c, o, r, child);
    var w1 := TerminateInstance(w, c, o, r, child);
    HandlingJustified(w.store.log, w1.store.log, r, from, k);
    RuledGrows(w.store.log, w1.store.log, from, k);
    RetireAndRequeueRecords(w1, c, o, r, ids);
    RecordingJustified(w1.store.log, RetireAndRequeue(w1, c, o, r, ids).0.store.log, from, k);
  }

  lemma {:induction false} UsableWorkerJustified(w: World, c: Settings, o: Oracle, r: Registration, child: Option<Child>, from: nat, k: nat)
    requires Ledger(w.store) && Justified(w.store.log) && Ruled(w.store.log, from, k)
    requires w.store.log[k].process && !Condemned(w.store.log[k]) && w.store.log[from] == Read(Some(r))
    ensures Justified(UsableWorker(w, c, o, r, child).0.store.log)
  {
    TrackLauncherRecords(w, c, o, r, child);
    TrackLauncherCalm(w, c, o, r, child);
    var (w1, kept) := TrackLauncher(w, c, o, r, child);
    FenceUsableRecords(w1, c, o, r);
    FenceUsableCalm(w1, c, o, r);
    var (w2, stalled) := FenceUsable(w1, c, o, r);
    RecordingJustified(w.store.log, w2.store.log, from, k);
    RuledGrows(w.store.log, w2.store.log, from, k);
    if stalled.Some? && stalled.value != [] {
      var f :| |w1.store.log| <= f < |w2.store.log| && w2.store.log[f].Fenced? && w2.store.log[f].ids != [];
      assert k + 1 <= f;
      RecycleJustified(w2, c, o, r, kept, stalled.value, from, k);
    }
  }

  /** The row as read, steps from outside, and the verdict. */
  lemma {:induction false} AssessShape(w: World, c: Settings, o: Oracle, worker: Option<Registration>)
    ensures var g := Assess(w, c, o, worker);
            var a, b := w.store.log, g.world.store.log;
            && a <= b && |a| + 1 < |b| && b[|a|] == Read(worker)
            && Last(b) == Assessed(g.process, g.control, g.sampler, g.execution)
            && forall k | |a| < k < |b| - 1 :: Outside(b[k])
  {
    var w0 := Emit(w, Read(worker));
    var w1 := Yield(w0, c, o, PostRead);
    EnvKeeps(w0, c, o.env(PostRead));
    var w2 := Yield(w1, c, o, PostProcess);
    EnvKeeps(w1, c, o.env(PostProcess));
    var w3 := Yield(w2, c, o, PostControl);
    EnvKeeps(w2, c, o.env(PostControl));
    EnvKeeps(w3, c, o.env(PostSampler));
  }

  lemma {:induction false} AssessRules(w: World, c: Settings, o: Oracle, worker: Option<Registration>)
    requires Justified(w.store.log)
    ensures var g := Assess(w, c, o, worker);
            && Justified(g.world.store.log) && Ruled(g.world.store.log, |w.store.log|, |g.world.store.log| - 1)
            && Last(g.world.store.log) == Assessed(g.process, g.control, g.sampler, g.execution)
            && g.world.store.log[|w.store.log|] == Read(worker)
  {
    AssessShape(w, c, o, worker);
    Extend(w.store.log, Assess(w, c, o, worker).world.store.log);
  }

  lemma {:induction false} CallJustified(w: World, c: Settings, o: Oracle, child: Option<Child>)
    requires Ledger(w.store) && Justified(w.store.log)
    ensures Justified(SuperviseOnce.SuperviseOnce(w, c, o, child).0.store.log)
  {
    if o.mishap(ReadRow) == Fine {
      AssessCalm(w, c, o, w.reg);
      AssessRules(w, c, o, w.reg);
      var g := Assess(w, c, o, w.reg);
      var from, k := |w.store.log|, |g.world.store.log| - 1;
      if !g.process {
        NoUsableWorkerRecords(g.world, c, o, w.reg, child);
        RecordingJustified(g.world.store.log, NoUsableWorker(g.world, c, o, w.reg, child).0.store.log, from, k);
      } else if Excused(g) {
        UsableWorkerJustified(g.world, c, o, w.reg.value, child, from, k);
      } else {
        StaleLoopJustified(g.world, c, o, w.reg.value, child, from, k);
      }
    }
  }

  // ---- A death that was found is real ----------------------------------------------------------

  /** Every process found dead since `a` has exited. */
  ghost predicate DeathsReal(a: seq<Event>, w: World) {
    && a <= w.store.log
    && forall k | |a| <= k < |w.store.log| && w.store.log[k].FoundDead? ::
         w.store.log[k].pid in w.procs && w.procs[w.store.log[k].pid].exit.Some?
  }

  /** On the stale-loop branch, with every process visible, found dead means exited. */
  lemma {:induction false} StaleLoopDead(w: World, c: Settings, o: Oracle, r: Registration, child: Option<Child>)
    requires Ledger(w.store) && Sighted(w, o)
    requires Recorded(w, r)
    ensures DeathsReal(w.store.log, StaleLoop(w, c, o, r, child).0)
  {
    StruckHandles(w, c, o, r, child);
    StruckSighted(w, c, o, r, child);
    var w2 := Struck(w, c, o, r, child);
    if !IsAlive(w2, r.pid, r.started) {
      var w3 := Emit(w2, FoundDead(PidOf(r)));
      EmitCalm(w2, FoundDead(PidOf(r)));
      RecoverLostRecords(w3, c, o, r);
      RecoverLostProcs(w3, c, o, r);
    }
  }

  lemma {:induction false} StruckSighted(w: World, c: Settings, o: Oracle, r: Registration, child: Option<Child>)
    requires Ledger(w.store) && Sighted(w, o) && Recorded(w, r)
    ensures var w2 := Struck(w, c, o, r, child); w2.blind == {} && Recorded(w2, r) && Ledger(w2.store)
  {
    StruckCalm(w, c, o, r, child);
    TerminateInstanceBlind(w, c, o, r, child);
    EnvSighted(TerminateInstance(w, c, o, r, child), c, o.env(PostKill));
  }

  lemma {:induction false} RecoverLostProcs(w: World, c: Settings, o: Oracle, r: Registration)
    requires Ledger(w.store)
    ensures Onward(w, RecoverLost(w, c, o, r).0)
  {
    FenceLostCalm(w, c, o, r, false);
    var (w1, ids) := FenceLost(w, c, o, r, false);
    if ids.Some? {
      RetireCalm(w1, c, o, r);
      var w2 := Retire(w1, c, o, r);
      if ids.value != [] {
        YieldCalm(w2, c, o, PreRequeue);
      }
    }
  }

  lemma {:induction false} UsableWorkerNoDeath(w: World, c: Settings, o: Oracle, r: Registration, child: Option<Child>)
    requires Ledger(w.store)
    ensures DeathsReal(w.store.log, UsableWorker(w, c, o, r, child).0)
  {
    UsableWorkerRecordsOnly(w, c, o, r, child);
    var (w1, kept) := TrackLauncher(w, c, o, r, child);
    var (w2, stalled) := FenceUsable(w1, c, o, r);
    if stalled.Some? && stalled.value != [] {
      TerminateInstanceHandles(w2, c, o, r, kept);
      TerminateInstanceCalm(w2, c, o, r, kept);
      RetireAndRequeueRecords(TerminateInstance(w2, c, o, r, kept), c, o, r, stalled.value);
    }
  }

  lemma {:induction false} UsableWorkerRecordsOnly(w: World, c: Settings, o: Oracle, r: Registration, child: Option<Child>)
    requires Ledger(w.store)
    ensures var w2 := FenceUsable(TrackLauncher(w, c, o, r, child).0, c, o, r).0;
            GrowsBy(w.store.log, w2.store.log, Recording) && Ledger(w2.store)
  {
    TrackLauncherRecords(w, c, o, r, child);
    TrackLauncherCalm(w, c, o, r, child);
    var w1 := TrackLauncher(w, c, o, r, child).0;
    FenceUsableRecords(w1, c, o, r);
    FenceUsableCalm(w1, c, o, r);
  }

  /** With every process visible, whatever a call found dead has really exited. */
  lemma {:induction false} CallDeathsReal(w: World, c: Settings, o: Oracle, child: Option<Child>)
    requires Ledger(w.store) && Sighted(w, o)
    ensures DeathsReal(w.store.log, SuperviseOnce.SuperviseOnce(w, c, o, child).0)
  {
    if o.mishap(ReadRow) == Fine {
      AssessCalm(w, c, o, w.reg);
      AssessSighted(w, c, o, w.reg);
      var g := Assess(w, c, o, w.reg);
      AssessNoDeath(w, c, o, w.reg);
      if !g.process {
        NoUsableWorkerRecords(g.world, c, o, w.reg, child);
      } else if Excused(g) {
        UsableWorkerNoDeath(g.world, c, o, w.reg.value, child);
      } else {
        StaleLoopDead(g.world, c, o, w.reg.value, child);
      }
    }
  }

  lemma {:induction false} AssessNoDeath(w: World, c: Settings, o: Oracle, worker: Option<Registration>)
    ensures var b := Assess(w, c, o, worker).world.store.log;
            w.store.log <= b && forall k | |w.store.log| <= k < |b| :: !b[k].FoundDead?
  {
    AssessShape(w, c, o, worker);
  }

  // ---- What a call writes ----------------------------------------------------------------------

  /** Everything a call may leave on the timeline: no ownership answer, no charge, no web launch. */
  predicate CallEvent(e: Event) {
    Handling(e) || Recording(e) || e.Read? || e.Assessed? || e.FoundDead?
  }

  lemma {:induction false} GrowsTrans(a: seq<Event>, b: seq<Event>, d: seq<Event>, ok: Event -> bool)
    requires GrowsBy(a, b, ok) && GrowsBy(b, d, ok)
    ensures GrowsBy(a, d, ok)
  {
  }

  lemma {:induction false} AssessWrites(w: World, c: Settings, o: Oracle, worker: Option<Registration>)
    ensures GrowsBy(w.store.log, Assess(w, c, o, worker).world.store.log, CallEvent)
  {
    AssessShape(w, c, o, worker);
  }

  lemma {:induction false} RecycleWrites(w: World, c: Settings, o: Oracle, r: Registration, child: Option<Child>, ids: seq<JobId>)
    requires Ledger(w.store)
    ensures GrowsBy(w.store.log, Recycle(w, c, o, r, child, ids).0.store.log, CallEvent)
  {
    TerminateInstanceHandles(w, c, o, r, child);
    TerminateInstanceCalm(w, c, o, r, child);
    RetireAndRequeueRecords(TerminateInstance(w, c, o, r, child), c, o, r, ids);
  }

  lemma {:induction false} UsableWorkerWrites(w: World, c: Settings, o: Oracle, r: Registration, child: Option<Child>)
    requires Ledger(w.store)
    ensures GrowsBy(w.store.log, UsableWorker(w, c, o, r, child).0.store.log, CallEvent)
  {
    UsableWorkerRecordsOnly(w, c, o, r, child);
    var (w1, kept) := TrackLauncher(w, c, o, r, child);
    var (w2, stalled) := FenceUsable(w1, c, o, r);
    if stalled.Some? && stalled.value != [] {
      RecycleWrites(w2, c, o, r, kept, stalled.value);
    }
  }

  lemma {:induction false} StaleLoopWrites(w: World, c: Settings, o: Oracle, r: Registration, child: Option<Child>)
    requires Ledger(w.store)
    ensures GrowsBy(w.store.log, StaleLoop(w, c, o, r, child).0.store.log, CallEvent)
  {
    StruckHandles(w, c, o, r, child);
    StruckCalm(w, c, o, r, child);
    RecoverLostRecords(Emit(Struck(w, c, o, r, child), FoundDead(PidOf(r))), c, o, r);
  }

  lemma {:induction false} CallWrites(w: World, c: Settings, o: Oracle, child: Option<Child>)
    requires Ledger(w.store)
    ensures GrowsBy(w.store.log, SuperviseOnce.SuperviseOnce(w, c, o, child).0.store.log, CallEvent)
  {
    if o.mishap(ReadRow) == Fine {
      AssessWrites(w, c, o, w.reg);
      AssessCalm(w, c, o, w.reg);
      var g := Assess(w, c, o, w.reg);
      if !g.process {
        NoUsableWorkerRecords(g.world, c, o, w.reg, child);
      } else if Excused(g) {
        UsableWorkerWrites(g.world, c, o, w.reg.value, child);
      } else {
        StaleLoopWrites(g.world, c, o, w.reg.value, child);
      }
    }
  }
}
