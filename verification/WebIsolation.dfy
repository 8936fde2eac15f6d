/**
 The web role does not depend on the worker role: over every run its child, its budget and its timeline are a fold
 over what its own polls, spawns and clock readings show, and runs that differ only on the worker's side show the same.
 */
module WebIsolation {
  import opened Common
  import opened Timeline
  import opened JobTable
  import opened Runtime
  import opened SuperviseOnce
  import opened RestartBudget
  import opened SupervisorLoop
  import opened LoopSafety
  import opened LoopTimeline
  import opened WebRestarts
  import opened WorldLikeness
  import opened WebFrame
  import CallIsolation

  /** What one iteration sees of the web role: both polls, the clock at each, and whether a spawn would work. */
  datatype Sight = Unwatched | Watched(exited: bool, at: int, running: bool, later: int, spawns: bool, pid: int)

  datatype WebState = WebState(web: Option<Child>, budget: Budget, tally: Tally)

  function WebOf(l: Loop): WebState {
    WebState(l.web, l.webBudget, TallyOf(l.world.store.log))
  }

  function SightOf(l: Loop, c: Settings, i: Input): Sight {
    if !Supervises(l, i) then Unwatched else
      var m := AtWeb(l, c, i);
      var l1 := ReapWeb(m, c, i);
      var w := Move(l1, c, i, BetweenPolls).world;
      Watched(FirstPollExited(m, c, i), Move(m, c, i, PreWeb).world.mono,
              l1.web.Some? && StillRuns(w, l1.web.value.pid), w.mono, SpawnWorks(l1, c, i), i.webPid)
  }

  function FirstPoll(s: WebState, x: Sight): WebState
    requires x.Watched?
  {
    if x.exited then WebState(None, Record(s.budget, x.at), Count(s.tally, Failure(Web, ChildExited))) else s
  }

  function SecondPoll(s: WebState, x: Sight): WebState
    requires x.Watched?
  {
    if s.budget.crashLoop || x.running then s
    else if !x.spawns then WebState(s.web, Record(s.budget, x.later), Count(s.tally, Failure(Web, SpawnFailed)))
    else WebState(Some(Child(x.pid, x.later)), s.budget, Count(s.tally, Launched(Web, x.pid)))
  }

  function Watch(s: WebState, x: Sight): WebState {
    if x.Unwatched? then s else SecondPoll(FirstPoll(s, x), x)
  }

  function WatchAll(s: WebState, xs: seq<Sight>): WebState {
    if xs == [] then s else Watch(WatchAll(s, Init(xs)), Last(xs))
  }

  function Sights(l: Loop, c: Settings, inputs: seq<Input>): seq<Sight> {
    if inputs == [] then [] else Sights(l, c, Init(inputs)) + [SightOf(Run(l, c, Init(inputs)), c, Last(inputs))]
  }

  lemma {:induction false} PartSeen(l: Loop, c: Settings, i: Input, x: Sight)
    requires x.Watched? && x.exited == FirstPollExited(l, c, i) && x.at == Move(l, c, i, PreWeb).world.mono
    requires var l1 := ReapWeb(l, c, i);
             var w := Move(l1, c, i, BetweenPolls).world;
             && x.running == (l1.web.Some? && StillRuns(w, l1.web.value.pid)) && x.later == w.mono
             && x.spawns == SpawnWorks(l1, c, i) && x.pid == i.webPid
    ensures WebOf(WebPart(l, c, i)) == Watch(WebOf(l), x)
  {
    ReapTally(l, c, i);
    var l1 := ReapWeb(l, c, i);
    assert WebOf(l1) == FirstPoll(WebOf(l), x);
    EnsureTally(l1, c, i);
  }

  lemma {:induction false} CycleSeen(l: Loop, c: Settings, i: Input)
    requires Safe(l.world)
    ensures WebOf(Cycle(l, c, i)) == Watch(WebOf(l), SightOf(l, c, i))
  {
    CycleOfWeb(l, c, i);
    if Supervises(l, i) {
      AtWebSame(l, c, i, true);
      PartSeen(AtWeb(l, c, i), c, i, SightOf(l, c, i));
    }
  }

  lemma {:induction false} RunSeen(l: Loop, c: Settings, inputs: seq<Input>)
    requires Safe(l.world)
    ensures WebOf(Run(l, c, inputs)) == WatchAll(WebOf(l), Sights(l, c, inputs))
  {
    if inputs != [] {
      RunSeen(l, c, Init(inputs));
      assert Safe(Run(l, c, Init(inputs)).world) by {
        RunKeeps(l, c, Init(inputs));
      }
      CycleSeen(Run(l, c, Init(inputs)), c, Last(inputs));
      assert Init(Sights(l, c, inputs)) == Sights(l, c, Init(inputs));
    }
  }

  // ---- Runs that differ only on the worker's side --------------------------------------------------

  /** What a web poll can notice: a step of a web process, or time. */
  predicate Noticed(e: Step, webs: set<int>) {
    WebStep(e, webs) || e.Tick?
  }

  function Noticeable(steps: seq<Step>, webs: set<int>): seq<Step> {
    if steps == [] then [] else Noticeable(Init(steps), webs) + if Noticed(Last(steps), webs) then [Last(steps)] else []
  }

  ghost predicate SameToWeb(xs: seq<Step>, ys: seq<Step>, webs: set<int>) {
    && Noticeable(xs, webs) == Noticeable(ys, webs)
    && (forall e | e in xs :: Fair(e, webs)) && (forall e | e in ys :: Fair(e, webs))
  }

  /** The worker side of an input moves no web process and takes no time: time passes before the web role is looked at. */
  ghost predicate WorkerSideIdle(i: Input, webs: set<int>) {
    && IdleSteps(i.env(PreRow), webs) && IdleSteps(i.env(PostRow), webs) && IdleSteps(i.env(PreCall), webs)
    && IdleOracle(i.review, webs) && IdleOracle(i.call, webs)
  }

  /** Inputs that agree on what concerns the web role; everything about the worker, jobs and registration may differ. */
  ghost predicate SameWebInput(i: Input, j: Input, webs: set<int>) {
    && i.stop == j.stop && i.check == j.check && i.webSpawns == j.webSpawns && i.webPid == j.webPid && i.webPid in webs
    && (forall p | p in {PreCycle, PreWeb, BetweenPolls} :: SameToWeb(i.env(p), j.env(p), webs))
    && WorkerSideIdle(i, webs) && WorkerSideIdle(j, webs)
  }

  /** The same web role; `webs` holds the process ids of web children and no worker's. */
  ghost predicate Twins(l: Loop, m: Loop, webs: set<int>) {
    && WebOf(l) == WebOf(m) && l.owns == m.owns && l.deadline == m.deadline && l.done == m.done
    && (l.web.Some? ==> l.web.value.pid in webs)
    && (!l.done ==> && SameWebs(l.world, m.world, webs) && Apart(l.world, webs) && Apart(m.world, webs)
                    && OwnChild(l.child, webs) && OwnChild(m.child, webs))
  }

  lemma {:induction false} NoticedAlike(a: World, b: World, c: Settings, d: Settings, e: Step, webs: set<int>)
    requires SameWebs(a, b, webs) && Apart(a, webs) && Apart(b, webs) && Noticed(e, webs)
    ensures SameWebs(Do(a, c, e), Do(b, d, e), webs) && Apart(Do(a, c, e), webs) && Apart(Do(b, d, e), webs)
  {
  }

  lemma {:induction false} EnvAlike(a: World, b: World, c: Settings, d: Settings, xs: seq<Step>, ys: seq<Step>, webs: set<int>)
    requires SameWebs(a, b, webs) && Apart(a, webs) && Apart(b, webs) && SameToWeb(xs, ys, webs)
    ensures var a', b' := Env(a, c, xs), Env(b, d, ys); SameWebs(a', b', webs) && Apart(a', webs) && Apart(b', webs)
    decreases |xs| + |ys|
  {
    if xs != [] && !Noticed(Last(xs), webs) {
      assert (forall e | e in Init(xs) :: e in xs) && Last(xs) in xs;
      EnvAlike(a, b, c, d, Init(xs), ys, webs);
      DoAside(Env(b, d, ys), Env(a, c, Init(xs)), c, Last(xs), webs);
    } else if ys != [] && !Noticed(Last(ys), webs) {
      assert (forall e | e in Init(ys) :: e in ys) && Last(ys) in ys;
      EnvAlike(a, b, c, d, xs, Init(ys), webs);
      DoAside(Env(a, c, xs), Env(b, d, Init(ys)), d, Last(ys), webs);
    } else if xs != [] && ys != [] {
      assert Last(Noticeable(xs, webs)) == Last(xs) && Last(Noticeable(ys, webs)) == Last(ys);
      assert Init(Noticeable(xs, webs)) == Noticeable(Init(xs), webs) && Init(Noticeable(ys, webs)) == Noticeable(Init(ys), webs);
      assert (forall e | e in Init(xs) :: e in xs) && (forall e | e in Init(ys) :: e in ys);
      EnvAlike(a, b, c, d, Init(xs), Init(ys), webs);
      NoticedAlike(Env(a, c, Init(xs)), Env(b, d, Init(ys)), c, d, Last(xs), webs);
    }
  }

  lemma {:induction false} MoveTwins(l: Loop, m: Loop, c: Settings, d: Settings, i: Input, j: Input, at: LoopPoint, webs: set<int>)
    requires Twins(l, m, webs) && !l.done && SameWebInput(i, j, webs) && at in {PreCycle, PreWeb, BetweenPolls}
    ensures Twins(Move(l, c, i, at), Move(m, d, j, at), webs)
  {
    assert SameToWeb(i.env(at), j.env(at), webs);
    EnvAlike(l.world, m.world, c, d, i.env(at), j.env(at), webs);
    MoveTally(l.world, c, i.env(at));
    MoveTally(m.world, d, j.env(at));
  }

  lemma {:induction false} ReapTwins(l: Loop, m: Loop, c: Settings, d: Settings, i: Input, j: Input, webs: set<int>)
    requires Twins(l, m, webs) && !l.done && SameWebInput(i, j, webs)
    ensures Twins(ReapWeb(l, c, i), ReapWeb(m, d, j), webs) && !ReapWeb(l, c, i).done
  {
    MoveTwins(l, m, c, d, i, j, PreWeb, webs);
    ReapTally(l, c, i);
    ReapTally(m, d, j);
  }

  lemma {:induction false} EnsureTwins(l: Loop, m: Loop, c: Settings, d: Settings, i: Input, j: Input, webs: set<int>)
    requires Twins(l, m, webs) && !l.done && SameWebInput(i, j, webs)
    ensures Twins(EnsureWeb(l, c, i), EnsureWeb(m, d, j), webs) && !EnsureWeb(l, c, i).done
  {
    MoveTwins(l, m, c, d, i, j, BetweenPolls, webs);
    var l1, m1 := Move(l, c, i, BetweenPolls), Move(m, d, j, BetweenPolls);
    if Starts(l, c, i) {
      if SpawnWorks(l, c, i) {
        LaunchTwins(l1, m1, i.webPid, webs);
      } else {
        ChargeTwins(l1, m1, SpawnFailed, webs);
      }
    }
  }

  lemma {:induction false} ChargeTwins(l: Loop, m: Loop, cause: Cause, webs: set<int>)
    requires Twins(l, m, webs) && !l.done
    ensures Twins(ChargeWeb(l, cause), ChargeWeb(m, cause), webs)
  {
    ChargeTally(l, cause);
    ChargeTally(m, cause);
  }

  function Born(w: World, pid: int): World {
    w.(procs := w.procs[pid := Proc(w.wall, None)])
  }

  function Launch(l: Loop, pid: int): Loop {
    l.(world := Emit(Born(l.world, pid), Launched(Web, pid)), web := Some(Child(pid, l.world.mono)))
  }

  lemma {:induction false} BornAlike(a: World, b: World, pid: int, webs: set<int>)
    requires SameWebs(a, b, webs)
    ensures SameWebs(Born(a, pid), Born(b, pid), webs)
  {
  }

  lemma {:induction false} LaunchOf(l: Loop, pid: int)
    ensures WebOf(Launch(l, pid)) == WebState(Some(Child(pid, l.world.mono)), l.webBudget, Count(WebOf(l).tally, Launched(Web, pid)))
  {
    TallyNext(l.world.store.log, Launched(Web, pid));
  }

  lemma {:induction false} LaunchTwins(l: Loop, m: Loop, pid: int, webs: set<int>)
    requires Twins(l, m, webs) && !l.done && pid in webs
    ensures Twins(Launch(l, pid), Launch(m, pid), webs)
  {
    BornAlike(l.world, m.world, pid, webs);
    LaunchOf(l, pid);
    LaunchOf(m, pid);
  }

  // ---- The worker side leaves the web role alone ---------------------------------------------------

  lemma {:induction false} ReviewAside(l: Loop, c: Settings, i: Input, webs: set<int>)
    requires Apart(l.world, webs) && OwnChild(l.child, webs) && WorkerSideIdle(i, webs)
    ensures Aside(l.world, ReviewWorker(l, c, i).world, webs) && OwnChild(ReviewWorker(l, c, i).child, webs)
  {
    EnvAside(l.world, l.world, c, i.env(PreRow), webs);
    var l1 := Move(l, c, i, PreRow);
    EnvAside(l.world, l1.world, c, i.env(PostRow), webs);
    var l2 := PollChild(Move(l1, c, i, PostRow));
    JudgeAside(l.world, l2, c, i, l1.world.reg, ProcessAlive(l2.world, c, l1.world.reg), webs);
  }

  lemma {:induction false} JudgeAside(
    a: World, l: Loop, c: Settings, i: Input, worker: Option<Registration>, alive: bool, webs: set<int>)
    requires Aside(a, l.world, webs) && OwnChild(l.child, webs) && WorkerSideIdle(i, webs)
    ensures Aside(a, Judge(l, c, i, worker, alive).world, webs) && OwnChild(Judge(l, c, i, worker, alive).child, webs)
  {
    if l.child.Some? && !HasExited(l) {
      TerminateLauncherAside(a, ChargeWorker(l, RegistrationTimeout).world, c, i.review, l.child.value.pid, webs);
    }
  }

  lemma {:induction false} CallWorkerAside(a: World, l: Loop, c: Settings, i: Input, webs: set<int>)
    requires Aside(a, l.world, webs) && OwnChild(l.child, webs) && WorkerSideIdle(i, webs)
    ensures Aside(a, CallWorker(l, c, i).world, webs) && OwnChild(CallWorker(l, c, i).child, webs)
  {
    CallAside(a, l.world, c, i.call, l.child, webs);
    CallIsolation.CallReturns(l.world, c, i.call, l.child);
  }

  lemma {:induction false} WorkerPartAside(l: Loop, c: Settings, i: Input, webs: set<int>)
    requires Apart(l.world, webs) && OwnChild(l.child, webs) && WorkerSideIdle(i, webs)
    ensures Aside(l.world, WorkerPart(l, c, i).world, webs) && OwnChild(WorkerPart(l, c, i).child, webs)
  {
    if i.rowReads {
      ReviewAside(l, c, i, webs);
      var l1 := ReviewWorker(l, c, i);
      EnvAside(l.world, l1.world, c, i.env(PreCall), webs);
      CallWorkerAside(l.world, BeforeCall(l1, c, i), c, i, webs);
    }
  }

  lemma {:induction false} WorkerPartTwins(l: Loop, m: Loop, c: Settings, d: Settings, i: Input, j: Input, webs: set<int>)
    requires Twins(l, m, webs) && !l.done && SameWebInput(i, j, webs) && Safe(l.world) && Safe(m.world)
    ensures Twins(WorkerPart(l, c, i), WorkerPart(m, d, j), webs)
  {
    WorkerPartAside(l, c, i, webs);
    WorkerPartAside(m, d, j, webs);
    WorkerPartSame(l, c, i);
    WorkerPartSame(m, d, j);
    WorkerPartLeavesWeb(l, c, i);
    WorkerPartLeavesWeb(m, d, j);
  }

  // ---- Iterations and runs ---------------------------------------------------------------------------

  lemma {:induction false} DecideTwins(l: Loop, m: Loop, c: Settings, d: Settings, i: Input, j: Input, webs: set<int>)
    requires Twins(l, m, webs) && !l.done && SameWebInput(i, j, webs) && Safe(l.world) && Safe(m.world)
    ensures Twins(Decide(l, c, i), Decide(m, d, j), webs)
  {
    if l.owns {
      ReapTwins(l, m, c, d, i, j, webs);
      EnsureTwins(ReapWeb(l, c, i), ReapWeb(m, d, j), c, d, i, j, webs);
      WebPartSafe(l, c, i);
      WebPartSafe(m, d, j);
      WorkerPartTwins(WebPart(l, c, i), WebPart(m, d, j), c, d, i, j, webs);
    } else {
      ShutdownTwins(l, m, c, d, i, j, webs);
    }
  }

  lemma {:induction false} ShutdownTwins(l: Loop, m: Loop, c: Settings, d: Settings, i: Input, j: Input, webs: set<int>)
    requires Twins(l, m, webs) && !l.done && Safe(l.world) && Safe(m.world)
    ensures Twins(Shutdown(l, c, i), Shutdown(m, d, j), webs)
  {
    ShutdownSame(l, c, i);
    ShutdownSame(m, d, j);
  }

  lemma {:induction false} AnswerTwins(l: Loop, m: Loop, owned: bool, webs: set<int>)
    requires Twins(l, m, webs) && !l.done
    ensures Twins(Answer(l, owned), Answer(m, owned), webs)
  {
    TallyNext(l.world.store.log, Ownership(owned));
    TallyNext(m.world.store.log, Ownership(owned));
  }

  lemma {:induction false} CheckedTwins(l: Loop, m: Loop, c: Settings, d: Settings, i: Input, j: Input, webs: set<int>)
    requires Twins(l, m, webs) && !l.done && SameWebInput(i, j, webs) && Safe(l.world) && Safe(m.world) && i.check.Checked?
    ensures Twins(Decide(Answer(l, i.check.owned), c, i), Decide(Answer(m, i.check.owned), d, j), webs)
  {
    AnswerTwins(l, m, i.check.owned, webs);
    AnswerSafe(l.world, i.check.owned);
    AnswerSafe(m.world, i.check.owned);
    DecideTwins(Answer(l, i.check.owned), Answer(m, i.check.owned), c, d, i, j, webs);
  }

  lemma {:induction false} CycleTwins(l: Loop, m: Loop, c: Settings, d: Settings, i: Input, j: Input, webs: set<int>)
    requires Twins(l, m, webs) && SameWebInput(i, j, webs) && Safe(l.world) && Safe(m.world)
    ensures Twins(Cycle(l, c, i), Cycle(m, d, j), webs)
  {
    if !l.done {
      var l0, m0 := Move(l, c, i, PreCycle), Move(m, d, j, PreCycle);
      MoveTwins(l, m, c, d, i, j, PreCycle, webs);
      assert Safe(l0.world) && Safe(m0.world) by {
        MoveSafe(l, c, i, PreCycle);
        MoveSafe(m, d, j, PreCycle);
      }
      if i.stop {
        ShutdownTwins(l0, m0, c, d, i, j, webs);
      } else if i.check.Checked? {
        CheckedTwins(l0, m0, c, d, i, j, webs);
      }
    }
  }

  /**
   Over whole runs: inputs that agree on the web role and the clock, and differ arbitrarily in jobs, registrations,
   workers, failures and settings, give the same web child, the same web budget and the same web timeline.
   */
  lemma {:induction false} WebIgnoresWorker(l: Loop, m: Loop, c: Settings, d: Settings, ins: seq<Input>, js: seq<Input>, webs: set<int>)
    requires Twins(l, m, webs) && Safe(l.world) && Safe(m.world)
    requires |ins| == |js| && forall k | 0 <= k < |ins| :: SameWebInput(ins[k], js[k], webs)
    ensures Twins(Run(l, c, ins), Run(m, d, js), webs)
  {
    if ins != [] {
      assert forall k | 0 <= k < |Init(ins)| :: Init(ins)[k] == ins[k] && Init(js)[k] == js[k];
      WebIgnoresWorker(l, m, c, d, Init(ins), Init(js), webs);
      var l1, m1 := Run(l, c, Init(ins)), Run(m, d, Init(js));
      assert Safe(l1.world) by {
        RunKeeps(l, c, Init(ins));
      }
      assert Safe(m1.world) by {
        RunKeeps(m, d, Init(js));
      }
      CycleTwins(l1, m1, c, d, Last(ins), Last(js), webs);
    }
  }
}
