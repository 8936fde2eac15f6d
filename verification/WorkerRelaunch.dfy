/** Quiet iterations that start a worker: after a crash loop, and after a graceful recycle. */
module WorkerRelaunch {
  import opened Common
  import opened Timeline
  import opened JobTable
  import opened Runtime
  import opened SuperviseOnce
  import opened CallSafety
  import opened RecoverySafety
  import opened Launchers
  import opened Convergence
  import opened RestartBudget
  import opened SupervisorLoop
  import opened LoopSafety
  import opened LoopTimeline
  import opened WebRestarts
  import opened WorkerRestarts

  // ---- When a quiet call launches ---------------------------------------------------------------

  /** A launcher that may still register. */
  predicate Young(w: World, child: Option<Child>) {
    child.Some? && StillRuns(w, child.value.pid) && w.mono - child.value.at < REGISTRATION_TIMEOUT
  }

  lemma {:induction false} QuietReplaceLaunches(w: World, c: Settings, o: Oracle, child: Option<Child>)
    requires Quiet(w, o)
    ensures var (w', out) := Replace(w, c, o, child);
            && out == Returned(Some(Child(o.newPid, w.mono))) && StillRuns(w', o.newPid)
            && |w'.store.log| > |w.store.log| && Last(w'.store.log) == Launched(Worker, o.newPid)
  {
    if child.Some? {
      assert Yield(w, c, o, PreReplacePoll) == w;
      var w1 := Poll(w, child.value.pid);
      assert Yield(w1, c, o, PreSignal) == w1;
    }
    var w2 := StopRunning(w, c, o, child);
    assert Yield(w2, c, o, PreSpawn) == w2;
    assert w2.procs.Keys == w.procs.Keys && w2.mono == w.mono;
  }

  /** With no usable worker, a quiet call launches one unless no worker is registered and a launcher is young. */
  lemma {:induction false} QuietStarts(w: World, c: Settings, o: Oracle, child: Option<Child>)
    requires Quiet(w, o) && !ProcessAlive(w, c, w.reg)
    ensures var (w', out) := SuperviseOnce.SuperviseOnce(w, c, o, child);
            if Active(w.reg) || !Young(w, child)
            then && out == Returned(Some(Child(o.newPid, w.mono))) && StillRuns(w', o.newPid)
                 && w'.store.log != [] && Last(w'.store.log) == Launched(Worker, o.newPid)
            else out == Returned(child) && w'.procs == w.procs
  {
    QuietAssess(w, c, o);
    var w0 := Assess(w, c, o, w.reg).world;
    var w1 := w0;
    if child.Some? {
      assert Yield(w0, c, o, PreAgePoll) == w0;
      w1 := Poll(w0, child.value.pid);
    }
    if Active(w.reg) {
      QuietRecover(w1, c, o, w.reg.value);
      QuietReplaceLaunches(RecoverLost(w1, c, o, w.reg.value).0, c, o, child);
    } else {
      QuietReplaceLaunches(w1, c, o, child);
    }
  }

  lemma {:induction false} QuietSpawnable(w: World, c: Settings, o: Oracle, child: Option<Child>)
    requires Quiet(w, o)
    ensures Spawnable(w, c, o, child)
  {
    if child.Some? {
      assert Yield(w, c, o, PreReplacePoll) == w;
      var w1 := Poll(w, child.value.pid);
      assert Yield(w1, c, o, PreSignal) == w1;
    }
    var w2 := StopRunning(w, c, o, child);
    assert Yield(w2, c, o, PreSpawn) == w2;
    assert w2.procs.Keys == w.procs.Keys;
  }

  /** So the guards of an undisturbed call without a usable worker are open exactly then. */
  lemma {:induction false} QuietGuards(w: World, c: Settings, o: Oracle, child: Option<Child>)
    requires Quiet(w, o) && !ProcessAlive(w, c, w.reg)
    ensures MayLaunch(w, c, o, child) <==> Active(w.reg) || !Young(w, child)
  {
    QuietAssess(w, c, o);
    var w0 := Assess(w, c, o, w.reg).world;
    if child.Some? {
      assert Yield(w0, c, o, PreAgePoll) == w0;
    }
    var w1 := AgePolled(w0, c, o, child);
    if Active(w.reg) {
      QuietRecover(w1, c, o, w.reg.value);
      QuietSpawnable(RecoverLost(w1, c, o, w.reg.value).0, c, o, child);
    } else {
      QuietSpawnable(w1, c, o, child);
    }
  }

  // ---- Leaving a crash loop -----------------------------------------------------------------------

  /**
   An iteration that leaves the crash loop and whose call is undisturbed launches a worker, unless a worker is
   usable by then or a young launcher runs without a registration.
   */
  lemma {:induction false} QuietEscape(l: Loop, c: Settings, i: Input)
    requires Safe(l.world) && l.workerBudget.crashLoop && Escapes(l, c, i)
    requires var m := AtCall(AtWorker(l, c, i), c, i); Quiet(m.world, i.call) && !ProcessAlive(m.world, c, m.world.reg)
    ensures var m := AtCall(AtWorker(l, c, i), c, i);
            WorkerStarts(Cycle(l, c, i)) == WorkerStarts(l) + if Active(m.world.reg) || !Young(m.world, m.child) then 1 else 0
  {
    var m := AtCall(AtWorker(l, c, i), c, i);
    QuietGuards(m.world, c, i.call, m.child);
    LoopingCycle(l, c, i);
  }

  // ---- A graceful recycle -------------------------------------------------------------------------

  /** The exit of a gracefully stopping worker's launcher is forgotten and not charged. */
  lemma {:induction false} GracefulReview(l: Loop, c: Settings, i: Input)
    requires RowGraceful(l, c, i)
    ensures var l1 := ReviewWorker(l, c, i);
            l1.workerBudget == l.workerBudget && l1.child.None? && l1.world == Polled(l, c, i).world
  {
    var l2 := Polled(l, c, i);
    assert l2.child == l.child && !Active(RowRead(l, c, i));
  }

  /**
   A graceful recycle over the whole worker part: the review leaves the budget unchanged, and when the call is
   undisturbed and no new worker has registered meanwhile, exactly one replacement is launched and tracked.
   */
  lemma {:induction false} GracefulRecycle(l: Loop, c: Settings, i: Input)
    requires Safe(l.world) && i.rowReads && RowGraceful(l, c, i)
    requires var w := AtCall(l, c, i).world; Quiet(w, i.call) && !ProcessAlive(w, c, w.reg)
    ensures var l' := WorkerPart(l, c, i);
            && l'.workerBudget == l.workerBudget
            && if l.workerBudget.crashLoop then WorkerStarts(l') == WorkerStarts(l) && l'.child.None?
               else && WorkerStarts(l') == WorkerStarts(l) + 1 && l'.child.Some?
                    && l'.child.value.pid == i.call.newPid && StillRuns(l'.world, i.call.newPid)
  {
    var m := AtCall(l, c, i);
    GracefulReview(l, c, i);
    PartCounts(l, c, i);
    ReviewBars(l, c, i);
    QuietGuards(m.world, c, i.call, m.child);
    QuietStarts(m.world, c, i.call, m.child);
  }

  // ---- A run into the crash loop and out of it ----------------------------------------------------

  /** No launcher, and the registration of a worker whose process is gone. */
  ghost predicate Orphaned(l: Loop) {
    && !l.done && l.child.None? && l.web.None? && l.world.procs == map[] && l.world.blind == {} && Active(l.world.reg)
  }

  /** An owned iteration that starts after `tick` and waits `pause` before its call; no web child can be spawned. */
  ghost predicate Timed(i: Input, tick: nat, pause: nat) {
    && !i.stop && i.check == Checked(true) && i.rowReads && !i.webSpawns
    && i.env(PreCycle) == [Tick(0, tick)] && i.env(PreCall) == [Tick(0, pause)]
    && i.env(PreWeb) == i.env(BetweenPolls) == i.env(PreRow) == i.env(PostRow) == []
  }

  /** The call cannot read the worker's row. */
  ghost predicate Raising(i: Input, tick: nat, pause: nat) {
    Timed(i, tick, pause) && i.call.mishap(ReadRow) != Fine
  }

  /** The call is undisturbed. */
  ghost predicate Late(i: Input, tick: nat, pause: nat) {
    && Timed(i, tick, pause) && i.call.newPid == 1
    && (forall p :: i.call.env(p) == []) && (forall x :: i.call.mishap(x) == Fine) && i.call.workerDies && i.call.launcherDies
  }

  /** The waits of an iteration: before it, and between its review and its call. */
  datatype Wait = Wait(tick: nat, pause: nat)

  function Elapsed(waits: seq<Wait>): nat {
    if waits == [] then 0 else Elapsed(Init(waits)) + Last(waits).tick + Last(waits).pause
  }

  lemma {:induction false} Ticked(w: World, c: Settings, tick: nat)
    ensures Env(w, c, [Tick(0, tick)]) == w.(wall := 0, mono := w.mono + tick)
  {
    assert Init([Tick(0, tick)]) == [] && Env(w, c, []) == w;
  }

  /** On the way to the worker only the web budget and the clock change. */
  lemma {:induction false} TimedAtWorker(l: Loop, c: Settings, i: Input, tick: nat, pause: nat)
    requires Orphaned(l) && Timed(i, tick, pause)
    ensures var m := AtWorker(l, c, i);
            && Orphaned(m) && m.workerBudget == l.workerBudget && m.world.mono == l.world.mono + tick
  {
    Ticked(l.world, c, tick);
    var m := AtWeb(l, c, i);
    assert ReapWeb(m, c, i) == m;
  }

  lemma {:induction false} TimedReview(l: Loop, c: Settings, i: Input, tick: nat, pause: nat)
    requires Orphaned(l) && Timed(i, tick, pause)
    ensures var l1 := ReviewWorker(l, c, i);
            && Charged(l, c, i) && Orphaned(l1) && l1.world.mono == l.world.mono
            && l1.workerBudget == Record(l.workerBudget, l.world.mono) && ReviewClock(l, c, i) == l.world.mono
  {
    assert Move(Move(l, c, i, PreRow), c, i, PostRow) == l;
    ReviewBudget(l, c, i);
  }

  lemma {:induction false} TimedAtCall(l: Loop, c: Settings, i: Input, tick: nat, pause: nat)
    requires Orphaned(l) && Timed(i, tick, pause)
    ensures var m, b := AtCall(l, c, i), Record(l.workerBudget, l.world.mono);
            && Orphaned(m) && m.workerBudget == b && m.world.mono == l.world.mono + if b.crashLoop then 0 else pause
  {
    TimedReview(l, c, i, tick, pause);
    Ticked(ReviewWorker(l, c, i).world, c, pause);
  }

  /** An orphaned state with at least `n` failures, none before `from`, all within the window. */
  ghost predicate Piled(l: Loop, from: int, limit: nat, window: nat, n: nat) {
    && Orphaned(l) && l.workerBudget.limit == limit && l.workerBudget.window == window && |l.workerBudget.failures| >= n
    && (forall t | t in l.workerBudget.failures :: from <= t <= l.world.mono)
    && l.workerBudget.crashLoop == (|l.workerBudget.failures| >= limit)
  }

  lemma {:induction false} RecordPiled(b: Budget, now: int, from: int)
    requires (forall t | t in b.failures :: from <= t <= now) && from <= now <= from + b.window
    ensures var b' := Record(b, now);
            && |b'.failures| == |b.failures| + 1 && b'.crashLoop == (|b.failures| + 1 >= b.limit)
            && b'.limit == b.limit && b'.window == b.window && forall t | t in b'.failures :: from <= t <= now
  {
    RecentAll(b.failures, now, b.window);
  }

  lemma {:induction false} RaisingCycle(l: Loop, c: Settings, i: Input, tick: nat, pause: nat, from: int, limit: nat, window: nat, n: nat)
    requires Piled(l, from, limit, window, n) && Raising(i, tick, pause)
    requires from <= l.world.mono + tick && l.world.mono + tick + pause <= from + window
    ensures var l' := Cycle(l, c, i); Piled(l', from, limit, window, n + 1) && l'.world.mono <= l.world.mono + tick + pause
  {
    var m := AtWorker(l, c, i);
    TimedAtWorker(l, c, i, tick, pause);
    TimedAtCall(m, c, i, tick, pause);
    RecordPiled(m.workerBudget, m.world.mono, from);
    var l1 := AtCall(m, c, i);
    RecordPiled(l1.workerBudget, l1.world.mono, from);
    SupervisedCycle(l, c, i);
  }

  ghost predicate AllRaise(inputs: seq<Input>, waits: seq<Wait>) {
    |inputs| == |waits| && forall k | 0 <= k < |waits| :: Raising(inputs[k], waits[k].tick, waits[k].pause)
  }

  lemma {:induction false} RaisingRun(l: Loop, c: Settings, inputs: seq<Input>, waits: seq<Wait>, from: int, limit: nat, window: nat)
    requires Piled(l, from, limit, window, 0) && l.workerBudget.failures == [] && AllRaise(inputs, waits)
    requires waits != [] ==> from == l.world.mono + waits[0].tick
    requires l.world.mono + Elapsed(waits) <= from + window
    ensures var l' := Run(l, c, inputs); Piled(l', from, limit, window, |waits|) && l'.world.mono <= l.world.mono + Elapsed(waits)
    ensures waits != [] ==> Run(l, c, inputs).world.mono >= from
  {
    if waits != [] {
      var front := Init(waits);
      assert forall k | 0 <= k < |front| :: front[k] == waits[k] && Init(inputs)[k] == inputs[k];
      RaisingRun(l, c, Init(inputs), front, from, limit, window);
      var l1 := Run(l, c, Init(inputs));
      assert |waits| == 1 ==> l1 == l;
      RaisingCycle(l1, c, Last(inputs), Last(waits).tick, Last(waits).pause, from, limit, window, |front|);
      CycleClock(l1, c, Last(inputs), Last(waits).tick, Last(waits).pause);
    }
  }

  lemma {:induction false} CycleClock(l: Loop, c: Settings, i: Input, tick: nat, pause: nat)
    requires Orphaned(l) && Raising(i, tick, pause)
    ensures Cycle(l, c, i).world.mono >= l.world.mono + tick
  {
    TimedAtWorker(l, c, i, tick, pause);
    TimedAtCall(AtWorker(l, c, i), c, i, tick, pause);
    SupervisedCycle(l, c, i);
  }

  /**
   The worker crash loop is not terminal. Wherever a supervisor starts with the registration of a dead worker and
   a budget of at least two, as many raising calls as the budget allows, within one window and with whatever waits
   between them, lead into the crash loop; and an undisturbed iteration after the window has passed leaves it and
   launches a worker.
   */
  lemma {:induction false} WorkerCrashLoopLeft(
    l: Loop, c: Settings, inputs: seq<Input>, waits: seq<Wait>, last: Input, tick: nat, pause: nat)
    requires Safe(l.world) && Orphaned(l) && l.workerBudget.failures == [] && !l.workerBudget.crashLoop && l.workerBudget.limit >= 2
    requires |waits| == l.workerBudget.limit && AllRaise(inputs, waits)
    requires Elapsed(waits) - waits[0].tick <= l.workerBudget.window
    requires Late(last, tick, pause) && tick > l.workerBudget.window
    ensures var l1 := Run(l, c, inputs);
            && l1.workerBudget.crashLoop && !Cycle(l1, c, last).workerBudget.crashLoop
            && WorkerStarts(Cycle(l1, c, last)) == WorkerStarts(l1) + 1
  {
    var l1, b := Run(l, c, inputs), l.workerBudget;
    RaisingRun(l, c, inputs, waits, l.world.mono + waits[0].tick, b.limit, b.window);
    assert Safe(l1.world) by {
      RunKeeps(l, c, inputs);
    }
    LateCycle(l1, c, last, tick, pause);
  }

  lemma {:induction false} LateCycle(l: Loop, c: Settings, i: Input, tick: nat, pause: nat)
    requires Safe(l.world) && Orphaned(l) && l.workerBudget.crashLoop && l.workerBudget.limit >= 2
    requires (forall t | t in l.workerBudget.failures :: t <= l.world.mono) && tick > l.workerBudget.window
    requires Late(i, tick, pause)
    ensures var l' := Cycle(l, c, i); !l'.workerBudget.crashLoop && WorkerStarts(l') == WorkerStarts(l) + 1
  {
    var m := AtWorker(l, c, i);
    TimedAtWorker(l, c, i, tick, pause);
    TimedReview(m, c, i, tick, pause);
    TimedAtCall(m, c, i, tick, pause);
    RecentNone(l.workerBudget.failures, m.world.mono, l.workerBudget.window);
    QuietEscape(l, c, i);
    QuietStarts(AtCall(m, c, i).world, c, i.call, None);
    SupervisedCycle(l, c, i);
  }

  const NOTHING: Oracle := Oracle(_ => [], _ => Fine, _ => Rows([], {}, {}), [], false, true, true, 1)

  function InputOf(w: Wait, call: Oracle): Input {
    Input(false, Checked(true),
          p => if p == PreCycle then [Tick(0, w.tick)] else if p == PreCall then [Tick(0, w.pause)] else [],
          false, 0, true, NOTHING, call)
  }

  /** There are such runs for any waits. */
  lemma {:induction false} SuchInputs(waits: seq<Wait>, tick: nat, pause: nat) returns (inputs: seq<Input>, last: Input)
    ensures AllRaise(inputs, waits) && Late(last, tick, pause)
  {
    inputs := seq(|waits|, k requires 0 <= k < |waits| => InputOf(waits[k], NOTHING.(mishap := _ => RolledBack)));
    forall k | 0 <= k < |waits| ensures Raising(inputs[k], waits[k].tick, waits[k].pause) {
      assert inputs[k] == InputOf(waits[k], NOTHING.(mishap := _ => RolledBack));
    }
    last := InputOf(Wait(tick, pause), NOTHING);
  }

  /** Waits of any length fit, as long as the window holds them once per failure of the budget. */
  lemma {:induction false} EvenWaits(limit: nat, window: nat, gap: nat, pause: nat) returns (waits: seq<Wait>)
    requires limit >= 1 && limit * (gap + pause) <= window + gap
    ensures |waits| == limit && Elapsed(waits) - waits[0].tick <= window && forall w | w in waits :: w == Wait(gap, pause)
  {
    waits := seq(limit, _ => Wait(gap, pause));
    ElapsedEvenly(waits, gap, pause);
  }

  lemma {:induction false} ElapsedEvenly(waits: seq<Wait>, gap: nat, pause: nat)
    requires forall w | w in waits :: w == Wait(gap, pause)
    ensures Elapsed(waits) == |waits| * (gap + pause)
  {
    if waits != [] {
      assert (forall w | w in Init(waits) :: w in waits) && Last(waits) in waits;
      ElapsedEvenly(Init(waits), gap, pause);
    }
  }
}
