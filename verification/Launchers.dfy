/**
 The launcher discipline: while processes can be inspected and signalled, a worker launcher is
 started only when every launcher started before it was seen to exit or was sent a termination.
 */
module Launchers {
  import opened Common
  import opened Timeline
  import opened JobTable
  import opened Runtime
  import opened SuperviseOnce
  import opened CallSafety
  import opened RecoverySafety

  predicate WorkerLaunch(e: Event) {
    e.Launched? && e.role == Worker
  }

  predicate Settles(e: Event, pid: int) {
    e == ExitSeen(pid) || e == KillWorker(pid) || e == KillLauncher(pid)
  }

  ghost predicate SettledSince(log: seq<Event>, from: nat, pid: int) {
    exists k :: from <= k < |log| && Settles(log[k], pid)
  }

  /** Between two worker launches, the earlier one was settled. */
  ghost predicate Orderly(log: seq<Event>) {
    forall i, j | 0 <= i < j < |log| && WorkerLaunch(log[i]) && WorkerLaunch(log[j]) ::
      SettledSince(log[..j], i + 1, log[i].pid)
  }

  /** Every launcher ever started is the tracked one or is settled. */
  ghost predicate Tracked(log: seq<Event>, child: Option<Child>) {
    forall i | 0 <= i < |log| && WorkerLaunch(log[i]) ::
      (child.Some? && child.value.pid == log[i].pid) || SettledSince(log, i + 1, log[i].pid)
  }

  /** No step hides a process and no signal fails. */
  ghost predicate Clear(o: Oracle) {
    && (forall p, e | e in o.env(p) :: !e.Obscure?)
    && o.mishap(SignalWorker) == Fine && o.mishap(SignalLauncher) == Fine
  }

  /** Inspection and signalling work throughout the call. */
  ghost predicate Sighted(w: World, o: Oracle) {
    w.blind == {} && Clear(o)
  }

  lemma {:induction false} EnvSighted(w: World, c: Settings, steps: seq<Step>)
    requires w.blind == {} && forall e | e in steps :: !e.Obscure?
    ensures Env(w, c, steps).blind == {}
  {
    if steps != [] {
      EnvSighted(w, c, Init(steps));
      assert Last(steps) in steps;
    }
  }

  lemma {:induction false} SettledGrows(a: seq<Event>, b: seq<Event>, from: nat, pid: int)
    requires a <= b && SettledSince(a, from, pid)
    ensures SettledSince(b, from, pid)
  {
    var k :| from <= k < |a| && Settles(a[k], pid);
    assert b[k] == a[k];
  }

  /** Growth without a launch keeps the discipline. */
  lemma {:induction false} QuietKeeps(a: seq<Event>, b: seq<Event>, child: Option<Child>)
    requires Orderly(a) && a <= b && forall k | |a| <= k < |b| :: !WorkerLaunch(b[k])
    ensures Orderly(b)
    ensures Tracked(a, child) ==> Tracked(b, child)
  {
    forall i, j | 0 <= i < j < |b| && WorkerLaunch(b[i]) && WorkerLaunch(b[j])
      ensures SettledSince(b[..j], i + 1, b[i].pid)
    {
      assert b[..j] == a[..j];
      assert WorkerLaunch(a[i]) && WorkerLaunch(a[j]);
    }
    if Tracked(a, child) {
      forall i | 0 <= i < |b| && WorkerLaunch(b[i])
        ensures (child.Some? && child.value.pid == b[i].pid) || SettledSince(b, i + 1, b[i].pid)
      {
        assert WorkerLaunch(a[i]);
        if !(child.Some? && child.value.pid == a[i].pid) {
          SettledGrows(a, b, i + 1, a[i].pid);
        }
      }
    }
  }

  /** Settling the tracked launcher leaves nothing to track. */
  lemma {:induction false} SettledUntracks(a: seq<Event>, b: seq<Event>, child: Option<Child>)
    requires Tracked(a, child) && a <= b && forall k | |a| <= k < |b| :: !WorkerLaunch(b[k])
    requires child.Some? ==> SettledSince(b, |a|, child.value.pid)
    ensures Tracked(b, None)
  {
    forall i | 0 <= i < |b| && WorkerLaunch(b[i]) ensures SettledSince(b, i + 1, b[i].pid) {
      assert WorkerLaunch(a[i]);
      if child.Some? && child.value.pid == a[i].pid {
        var k :| |a| <= k < |b| && Settles(b[k], child.value.pid);
        assert i + 1 <= k;
      } else {
        SettledGrows(a, b, i + 1, a[i].pid);
      }
    }
  }

  lemma {:induction false} LaunchKeeps(a: seq<Event>, pid: int, at: int)
    requires Orderly(a) && Tracked(a, None)
    ensures Orderly(a + [Launched(Worker, pid)])
    ensures Tracked(a + [Launched(Worker, pid)], Some(Child(pid, at)))
  {
    var b := a + [Launched(Worker, pid)];
    forall i, j | 0 <= i < j < |b| && WorkerLaunch(b[i]) && WorkerLaunch(b[j])
      ensures SettledSince(b[..j], i + 1, b[i].pid)
    {
      assert b[..j] == a[..j];
      assert WorkerLaunch(a[i]);
    }
    forall i | 0 <= i < |b| && WorkerLaunch(b[i]) && b[i].pid != pid ensures SettledSince(b, i + 1, b[i].pid) {
      assert WorkerLaunch(a[i]);
      SettledGrows(a, b, i + 1, a[i].pid);
    }
  }

  /** The registered process is a known one with the recorded start time, alive or not. */
  predicate Recorded(w: World, r: Registration) {
    && r.pid.Some? && r.pid.value > 0 && r.pid.value in w.procs
    && (r.started.Some? ==> -START_TOLERANCE <= w.procs[r.pid.value].start - r.started.value <= START_TOLERANCE)
  }

  lemma {:induction false} TerminateLauncherSettles(w: World, c: Settings, o: Oracle, pid: int)
    requires Ledger(w.store) && Sighted(w, o)
    ensures SettledSince(TerminateLauncher(w, c, o, pid).store.log, |w.store.log|, pid)
  {
    YieldCalm(w, c, o, PreSignal);
    var w1 := Yield(w, c, o, PreSignal);
    var w' := TerminateLauncher(w, c, o, pid);
    assert Settles(w'.store.log[|w1.store.log|], pid);
  }

  lemma {:induction false} PollSettles(w: World, pid: int)
    requires !StillRuns(w, pid)
    ensures SettledSince(Poll(w, pid).store.log, |w.store.log|, pid)
  {
    assert Settles(Poll(w, pid).store.log[|w.store.log|], pid);
  }

  /** Stopping an instance settles the tracked launcher, whether or not it is the worker itself. */
  lemma {:induction false} TerminateInstanceSettles(w: World, c: Settings, o: Oracle, r: Registration, child: Child)
    requires Ledger(w.store) && Sighted(w, o) && Recorded(w, r)
    ensures SettledSince(TerminateInstance(w, c, o, r, Some(child)).store.log, |w.store.log|, child.pid)
  {
    YieldCalm(w, c, o, PreKill);
    EnvSighted(w, c, o.env(PreKill));
    var w1 := Yield(w, c, o, PreKill);
    KillRegisteredCalm(w, c, o, r);
    var w2 := KillRegistered(w, c, o, r);
    YieldCalm(w2, c, o, PreKillPoll);
    EnvSighted(w2, c, o.env(PreKillPoll));
    var w3 := Yield(w2, c, o, PreKillPoll);
    PollCalm(w3, child.pid);
    var w4 := Poll(w3, child.pid);
    KillSeparateCalm(w2, c, o, r, Some(child));
    var w' := TerminateInstance(w, c, o, r, Some(child));
    if !StillRuns(w3, child.pid) {
      PollSettles(w3, child.pid);
      SettledGrows(w4.store.log, w'.store.log, |w3.store.log|, child.pid);
    } else if Some(child.pid) != r.pid {
      TerminateLauncherSettles(w4, c, o, child.pid);
    } else {
      assert IsAlive(w1, r.pid, r.started);
      assert Settles(w2.store.log[|w1.store.log|], child.pid);
      SettledGrows(w2.store.log, w'.store.log, |w.store.log|, child.pid);
    }
  }

  lemma {:induction false} StopRunningSettles(w: World, c: Settings, o: Oracle, child: Child)
    requires Ledger(w.store) && Sighted(w, o)
    ensures SettledSince(StopRunning(w, c, o, Some(child)).store.log, |w.store.log|, child.pid)
  {
    YieldCalm(w, c, o, PreReplacePoll);
    EnvSighted(w, c, o.env(PreReplacePoll));
    var w1 := Yield(w, c, o, PreReplacePoll);
    PollCalm(w1, child.pid);
    if StillRuns(w1, child.pid) {
      TerminateLauncherSettles(Poll(w1, child.pid), c, o, child.pid);
    } else {
      PollSettles(w1, child.pid);
    }
  }

  // ---- The branches ----------------------------------------------------------------------------

  /** What `main` tracks after a call: the returned launcher, or the old one when the call raised. */
  function Next(out: Outcome, child: Option<Child>): Option<Child> {
    if out.Returned? then out.child else child
  }

  ghost predicate Disciplined(w: World, child: Option<Child>) {
    Orderly(w.store.log) && Tracked(w.store.log, child)
  }

  lemma {:induction false} ReplaceDisciplined(w: World, c: Settings, o: Oracle, child: Option<Child>)
    requires Ledger(w.store) && Sighted(w, o) && Disciplined(w, child)
    ensures var (w', out) := Replace(w, c, o, child); Disciplined(w', Next(out, child))
  {
    StopRunningCalm(w, c, o, child);
    var w1 := StopRunning(w, c, o, child);
    YieldCalm(w1, c, o, PreSpawn);
    var w2 := Yield(w1, c, o, PreSpawn);
    CalmTrans(w, w1, w2);
    if child.Some? {
      StopRunningSettles(w, c, o, child.value);
      SettledGrows(w1.store.log, w2.store.log, |w.store.log|, child.value.pid);
    }
    QuietKeeps(w.store.log, w2.store.log, child);
    SettledUntracks(w.store.log, w2.store.log, child);
    LaunchKeeps(w2.store.log, o.newPid, w2.mono);
  }

  lemma {:induction false} SoundlyDisciplined(w: World, w': World, child: Option<Child>)
    requires Disciplined(w, child) && Soundly(w, w')
    ensures Disciplined(w', child)
  {
    QuietKeeps(w.store.log, w'.store.log, child);
  }

  lemma {:induction false} SoundlyBlind(w: World, c: Settings, o: Oracle, r: Registration, ids: seq<JobId>)
    requires Sighted(w, o)
    ensures RetireAndRequeue(w, c, o, r, ids).0.blind == {}
  {
    EnvSighted(w, c, o.env(PreRetire));
    EnvSighted(Retire(w, c, o, r), c, o.env(PreRequeue));
  }

  lemma {:induction false} RecoverLostBlind(w: World, c: Settings, o: Oracle, r: Registration)
    requires Sighted(w, o)
    ensures RecoverLost(w, c, o, r).0.blind == {}
  {
    EnvSighted(w, c, o.env(PreFence));
    var (w1, ids) := FenceLost(w, c, o, r, false);
    if ids.Some? {
      SoundlyBlind(w1, c, o, r, ids.value);
    }
  }

  lemma {:induction false} NoUsableWorkerDisciplined(
    w: World, c: Settings, o: Oracle, worker: Option<Registration>, child: Option<Child>, from: nat)
    requires Ledger(w.store) && Sighted(w, o) && Disciplined(w, child) && AllBacked(w.store.log)
    requires worker.Some? ==> Begun(w.store.log, from, worker.value)
    ensures var (w', out) := NoUsableWorker(w, c, o, worker, child); Disciplined(w', Next(out, child))
  {
    var w1 := w;
    if child.Some? {
      YieldCalm(w, c, o, PreAgePoll);
      EnvSighted(w, c, o.env(PreAgePoll));
      PollCalm(Yield(w, c, o, PreAgePoll), child.value.pid);
      w1 := Poll(Yield(w, c, o, PreAgePoll), child.value.pid);
      CalmTrans(w, Yield(w, c, o, PreAgePoll), w1);
      CalmKeepsBacked(w.store.log, w1.store.log);
      QuietKeeps(w.store.log, w1.store.log, child);
    }
    var w2 := w1;
    if Active(worker) {
      RecoverLostBacked(w1, c, o, worker.value, from);
      RecoverLostBlind(w1, c, o, worker.value);
      w2 := RecoverLost(w1, c, o, worker.value).0;
      SoundlyDisciplined(w1, w2, child);
    }
    ReplaceDisciplined(w2, c, o, child);
  }

  lemma {:induction false} RecoverLostDisciplined(w: World, c: Settings, o: Oracle, r: Registration, child: Option<Child>, from: nat)
    requires Ledger(w.store) && Disciplined(w, child) && AllBacked(w.store.log) && Begun(w.store.log, from, r)
    ensures Disciplined(RecoverLost(w, c, o, r).0, child)
  {
    RecoverLostBacked(w, c, o, r, from);
    SoundlyDisciplined(w, RecoverLost(w, c, o, r).0, child);
  }

  /** Stopping the instance of a stale loop settles the launcher. */
  lemma {:induction false} StruckDisciplined(w: World, c: Settings, o: Oracle, r: Registration, child: Option<Child>)
    requires Ledger(w.store) && Sighted(w, o) && Disciplined(w, child) && Recorded(w, r)
    ensures var w2 := Struck(w, c, o, r, child);
            var w3 := Emit(w2, FoundDead(PidOf(r)));
            Disciplined(w2, child) && Disciplined(w3, child) && Disciplined(w3, None)
  {
    StruckCalm(w, c, o, r, child);
    var w1, w2 := TerminateInstance(w, c, o, r, child), Struck(w, c, o, r, child);
    var w3 := Emit(w2, FoundDead(PidOf(r)));
    if child.Some? {
      TerminateInstanceSettles(w, c, o, r, child.value);
      SettledGrows(w1.store.log, w3.store.log, |w.store.log|, child.value.pid);
    }
    QuietKeeps(w.store.log, w2.store.log, child);
    QuietKeeps(w.store.log, w3.store.log, child);
    SettledUntracks(w.store.log, w3.store.log, child);
  }

  lemma {:induction false} StaleLoopDisciplined(w: World, c: Settings, o: Oracle, r: Registration, child: Option<Child>, from: nat)
    requires Ledger(w.store) && Sighted(w, o) && Disciplined(w, child) && AllBacked(w.store.log)
    requires Begun(w.store.log, from, r) && Recorded(w, r)
    ensures var (w', out) := StaleLoop(w, c, o, r, child); Disciplined(w', Next(out, child))
  {
    StruckDisciplined(w, c, o, r, child);
    StruckCalm(w, c, o, r, child);
    var w3 := Emit(Struck(w, c, o, r, child), FoundDead(PidOf(r)));
    CalmKeepsBacked(w.store.log, w3.store.log);
    RecoverLostDisciplined(w3, c, o, r, None, from);
    RecoverLostDisciplined(w3, c, o, r, child, from);
  }

  lemma {:induction false} TrackLauncherDisciplined(w: World, c: Settings, o: Oracle, r: Registration, child: Option<Child>)
    requires Ledger(w.store) && Sighted(w, o) && Disciplined(w, child)
    ensures var (w', kept) := TrackLauncher(w, c, o, r, child);
            && Disciplined(w', kept) && Disciplined(w', child) && w'.blind == {}
            && (kept.Some? ==> kept == child)
  {
    if child.Some? {
      var pid := child.value.pid;
      YieldCalm(w, c, o, PreAssociate);
      EnvSighted(w, c, o.env(PreAssociate));
      var w1 := AssociateLauncher(w, c, o, r, pid);
      YieldCalm(w1, c, o, PreTrackPoll);
      EnvSighted(w1, c, o.env(PreTrackPoll));
      var w2 := Yield(w1, c, o, PreTrackPoll);
      PollCalm(w2, pid);
      var w3 := Poll(w2, pid);
      assert GrowsBy(w.store.log, w3.store.log, Calm);
      QuietKeeps(w.store.log, w3.store.log, child);
      if !StillRuns(w2, pid) {
        PollSettles(w2, pid);
        SettledUntracks(w.store.log, w3.store.log, child);
      }
    }
  }

  lemma {:induction false} FenceUsableBlind(w: World, c: Settings, o: Oracle, r: Registration)
    requires Sighted(w, o)
    ensures FenceUsable(w, c, o, r).0.blind == {}
  {
    EnvSighted(w, c, o.env(PreWatchdog));
    var w1 := FenceFrozen(w, c, o, r).0;
    EnvSighted(w1, c, o.env(PreFence));
  }

  lemma {:induction false} RecycleDisciplined(
    w: World, c: Settings, o: Oracle, r: Registration, kept: Option<Child>, child: Option<Child>, ids: seq<JobId>, from: nat)
    requires Ledger(w.store) && Sighted(w, o) && AllBacked(w.store.log) && Begun(w.store.log, from, r) && Recorded(w, r)
    requires forall id | id in ids :: FencedFor(w.store.log, from, r, id)
    requires Disciplined(w, kept) && Disciplined(w, child)
    ensures var (w', out) := Recycle(w, c, o, r, kept, ids); Disciplined(w', Next(out, child))
  {
    TerminateInstanceCalm(w, c, o, r, kept);
    var w1 := TerminateInstance(w, c, o, r, kept);
    if kept.Some? {
      TerminateInstanceSettles(w, c, o, r, kept.value);
    }
    QuietKeeps(w.store.log, w1.store.log, child);
    SettledUntracks(w.store.log, w1.store.log, kept);
    CalmKeepsBacked(w.store.log, w1.store.log);
    forall id | id in ids ensures FencedFor(w1.store.log, from, r, id) {
      FencedForGrows(w.store.log, w1.store.log, from, r, id);
    }
    RetireAndRequeueBacked(w1, c, o, r, ids, from);
    SoundlyDisciplined(w1, RetireAndRequeue(w1, c, o, r, ids).0, None);
    SoundlyDisciplined(w1, RetireAndRequeue(w1, c, o, r, ids).0, child);
  }

  lemma {:induction false} UsableWorkerDisciplined(w: World, c: Settings, o: Oracle, r: Registration, child: Option<Child>, from: nat)
    requires Ledger(w.store) && Sighted(w, o) && Disciplined(w, child) && AllBacked(w.store.log)
    requires Begun(w.store.log, from, r) && Recorded(w, r)
    ensures var (w', out) := UsableWorker(w, c, o, r, child); Disciplined(w', Next(out, child))
  {
    TrackLauncherCalm(w, c, o, r, child);
    TrackLauncherDisciplined(w, c, o, r, child);
    var (w1, kept) := TrackLauncher(w, c, o, r, child);
    FenceUsableCalm(w1, c, o, r);
    FenceUsableBlind(w1, c, o, r);
    FenceUsableFences(w1, c, o, r, from);
    var (w2, stalled) := FenceUsable(w1, c, o, r);
    CalmTrans(w, w1, w2);
    CalmKeepsBacked(w.store.log, w2.store.log);
    QuietKeeps(w1.store.log, w2.store.log, kept);
    QuietKeeps(w1.store.log, w2.store.log, child);
    if stalled.Some? && stalled.value != [] {
      RecycleDisciplined(w2, c, o, r, kept, child, stalled.value, from);
    }
  }

  lemma {:induction false} AssessSighted(w: World, c: Settings, o: Oracle, worker: Option<Registration>)
    requires Ledger(w.store) && Sighted(w, o)
    ensures var g := Assess(w, c, o, worker); g.world.blind == {} && (g.process ==> Recorded(g.world, worker.value))
  {
    AssessCalm(w, c, o, worker);
    NoteKeeps(w.store, Read(worker));
    var w0 := Emit(w, Read(worker));
    EnvSighted(w0, c, o.env(PostRead));
    YieldCalm(w0, c, o, PostRead);
    var w1 := Yield(w0, c, o, PostRead);
    EnvSighted(w1, c, o.env(PostProcess));
    YieldCalm(w1, c, o, PostProcess);
    var w2 := Yield(w1, c, o, PostProcess);
    EnvSighted(w2, c, o.env(PostControl));
    YieldCalm(w2, c, o, PostControl);
    var w3 := Yield(w2, c, o, PostControl);
    EnvSighted(w3, c, o.env(PostSampler));
    YieldCalm(w3, c, o, PostSampler);
  }

  /** A sighted call starts a worker launcher only when all earlier ones are settled. */
  lemma {:induction false} CallDisciplined(w: World, c: Settings, o: Oracle, child: Option<Child>)
    requires Ledger(w.store) && AllBacked(w.store.log) && Sighted(w, o) && Disciplined(w, child)
    ensures var (w', out) := SuperviseOnce.SuperviseOnce(w, c, o, child); Disciplined(w', Next(out, child))
  {
    if o.mishap(ReadRow) == Fine {
      AssessCalm(w, c, o, w.reg);
      AssessSighted(w, c, o, w.reg);
      var w0 := Emit(w, Read(w.reg));
      var g := Assess(w, c, o, w.reg);
      var from := |w.store.log|;
      CalmKeepsBacked(w.store.log, w0.store.log);
      CalmKeepsBacked(w0.store.log, g.world.store.log);
      QuietKeeps(w.store.log, w0.store.log, child);
      QuietKeeps(w0.store.log, g.world.store.log, child);
      assert g.world.store.log[from] == Read(w.reg);
      if !g.process {
        NoUsableWorkerDisciplined(g.world, c, o, w.reg, child, from);
      } else if Excused(g) {
        UsableWorkerDisciplined(g.world, c, o, w.reg.value, child, from);
      } else {
        StaleLoopDisciplined(g.world, c, o, w.reg.value, child, from);
      }
    }
  }

  // ---- A sighted call stays sighted, and launches at most once ----------------------------------

  lemma {:induction false} TerminateLauncherBlind(w: World, c: Settings, o: Oracle, pid: int)
    requires Sighted(w, o)
    ensures TerminateLauncher(w, c, o, pid).blind == {}
  {
    EnvSighted(w, c, o.env(PreSignal));
  }

  lemma {:induction false} TerminateInstanceBlind(w: World, c: Settings, o: Oracle, r: Registration, child: Option<Child>)
    requires Sighted(w, o)
    ensures TerminateInstance(w, c, o, r, child).blind == {}
  {
    EnvSighted(w, c, o.env(PreKill));
    var w1 := KillRegistered(w, c, o, r);
    if child.Some? {
      EnvSighted(w1, c, o.env(PreKillPoll));
      TerminateLauncherBlind(Poll(Yield(w1, c, o, PreKillPoll), child.value.pid), c, o, child.value.pid);
    }
  }

  lemma {:induction false} ReplaceBlind(w: World, c: Settings, o: Oracle, child: Option<Child>)
    requires Sighted(w, o)
    ensures Replace(w, c, o, child).0.blind == {}
  {
    if child.Some? {
      EnvSighted(w, c, o.env(PreReplacePoll));
      TerminateLauncherBlind(Poll(Yield(w, c, o, PreReplacePoll), child.value.pid), c, o, child.value.pid);
    }
    EnvSighted(StopRunning(w, c, o, child), c, o.env(PreSpawn));
  }

  lemma {:induction false} NoUsableWorkerBlind(w: World, c: Settings, o: Oracle, worker: Option<Registration>, child: Option<Child>)
    requires Sighted(w, o)
    ensures NoUsableWorker(w, c, o, worker, child).0.blind == {}
  {
    var w1 := w;
    if child.Some? {
      EnvSighted(w, c, o.env(PreAgePoll));
      w1 := Poll(Yield(w, c, o, PreAgePoll), child.value.pid);
    }
    if Active(worker) {
      RecoverLostBlind(w1, c, o, worker.value);
      ReplaceBlind(RecoverLost(w1, c, o, worker.value).0, c, o, child);
    } else {
      ReplaceBlind(w1, c, o, child);
    }
  }

  lemma {:induction false} CallBlind(w: World, c: Settings, o: Oracle, child: Option<Child>)
    requires Ledger(w.store) && Sighted(w, o)
    ensures SuperviseOnce.SuperviseOnce(w, c, o, child).0.blind == {}
  {
    if o.mishap(ReadRow) == Fine {
      AssessSighted(w, c, o, w.reg);
      var g := Assess(w, c, o, w.reg);
      if !g.process {
        NoUsableWorkerBlind(g.world, c, o, w.reg, child);
      } else if Excused(g) {
        var r := w.reg.value;
        if child.Some? {
          EnvSighted(g.world, c, o.env(PreAssociate));
          EnvSighted(AssociateLauncher(g.world, c, o, r, child.value.pid), c, o.env(PreTrackPoll));
        }
        var (w1, kept) := TrackLauncher(g.world, c, o, r, child);
        FenceUsableBlind(w1, c, o, r);
        var (w2, stalled) := FenceUsable(w1, c, o, r);
        TerminateInstanceBlind(w2, c, o, r, kept);
        if stalled.Some? {
          SoundlyBlind(TerminateInstance(w2, c, o, r, kept), c, o, r, stalled.value);
        }
      } else {
        var r := w.reg.value;
        TerminateInstanceBlind(g.world, c, o, r, child);
        var w1 := TerminateInstance(g.world, c, o, r, child);
        EnvSighted(w1, c, o.env(PostKill));
        RecoverLostBlind(Emit(Yield(w1, c, o, PostKill), FoundDead(PidOf(r))), c, o, r);
      }
    }
  }

  /** Nothing but the last event of `b` is a launch, and that one is the returned launcher's. */
  ghost predicate LaunchesLast(a: seq<Event>, b: seq<Event>, out: Outcome) {
    && a <= b
    && forall k | |a| <= k < |b| && b[k].Launched? ::
         k == |b| - 1 && out.Returned? && out.child.Some? && b[k] == Launched(Worker, out.child.value.pid)
  }

  lemma {:induction false} ReplaceLaunchesLast(w: World, c: Settings, o: Oracle, child: Option<Child>)
    requires Ledger(w.store)
    ensures var (w', out) := Replace(w, c, o, child); LaunchesLast(w.store.log, w'.store.log, out)
  {
    StopRunningCalm(w, c, o, child);
    var w1 := StopRunning(w, c, o, child);
    YieldCalm(w1, c, o, PreSpawn);
    CalmTrans(w, w1, Yield(w1, c, o, PreSpawn));
  }

  lemma {:induction false} LaunchesLastAfter(a: seq<Event>, b: seq<Event>, d: seq<Event>, out: Outcome)
    requires a <= b && (forall k | |a| <= k < |b| :: !b[k].Launched?) && LaunchesLast(b, d, out)
    ensures LaunchesLast(a, d, out)
  {
  }

  lemma {:induction false} NoUsableLaunchesLast(
    w: World, c: Settings, o: Oracle, worker: Option<Registration>, child: Option<Child>, from: nat)
    requires Ledger(w.store) && AllBacked(w.store.log)
    requires worker.Some? ==> Begun(w.store.log, from, worker.value)
    ensures var (w', out) := NoUsableWorker(w, c, o, worker, child); LaunchesLast(w.store.log, w'.store.log, out)
  {
    var w1 := w;
    if child.Some? {
      YieldCalm(w, c, o, PreAgePoll);
      PollCalm(Yield(w, c, o, PreAgePoll), child.value.pid);
      w1 := Poll(Yield(w, c, o, PreAgePoll), child.value.pid);
      CalmTrans(w, Yield(w, c, o, PreAgePoll), w1);
      CalmKeepsBacked(w.store.log, w1.store.log);
    }
    var w2 := w1;
    if Active(worker) {
      RecoverLostBacked(w1, c, o, worker.value, from);
      w2 := RecoverLost(w1, c, o, worker.value).0;
    }
    ReplaceLaunchesLast(w2, c, o, child);
    LaunchesLastAfter(w.store.log, w2.store.log, Replace(w2, c, o, child).0.store.log, Replace(w2, c, o, child).1);
  }

  /** At most one worker launch per call, and it is what the call returns. */
  lemma {:induction false} OneLaunchPerCall(w: World, c: Settings, o: Oracle, child: Option<Child>)
    requires Ledger(w.store) && AllBacked(w.store.log)
    ensures var (w', out) := SuperviseOnce.SuperviseOnce(w, c, o, child); LaunchesLast(w.store.log, w'.store.log, out)
  {
    if o.mishap(ReadRow) == Fine {
      CallOpens(w, c, o);
      var g, from := Assess(w, c, o, w.reg), |w.store.log|;
      var (w', out) := SuperviseOnce.SuperviseOnce(w, c, o, child);
      if !g.process {
        NoUsableLaunchesLast(g.world, c, o, w.reg, child, from);
      } else if Excused(g) {
        UsableWorkerBacked(g.world, c, o, w.reg.value, child, from);
      } else {
        StaleLoopBacked(g.world, c, o, w.reg.value, child, from);
      }
      LaunchesLastAfter(w.store.log, g.world.store.log, w'.store.log, out);
    }
  }
}
