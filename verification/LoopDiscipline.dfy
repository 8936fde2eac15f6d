/** Launchers and ownership over whole runs of the supervisor. */
module LoopDiscipline {
  import opened Common
  import opened Timeline
  import opened JobTable
  import opened Runtime
  import opened SuperviseOnce
  import opened CallSafety
  import opened RecoverySafety
  import opened Launchers
  import opened Recycling
  import opened RestartBudget
  import opened SupervisorLoop
  import opened LoopSafety
  import opened LoopTimeline

  // ---- The launcher discipline -----------------------------------------------------------------

  /** Inspection and signalling work throughout the iteration. */
  ghost predicate ClearInput(i: Input) {
    && (forall p, e | e in i.env(p) :: !e.Obscure?)
    && Clear(i.review) && Clear(i.call)
  }

  /** All that a sighted run keeps about its launchers. */
  ghost predicate InOrder(l: Loop) {
    Safe(l.world) && l.world.blind == {} && Disciplined(l.world, l.child)
  }

  lemma {:induction false} PlainInOrder(l: Loop, l': Loop)
    requires InOrder(l) && Safe(l'.world) && l'.world.blind == {}
    requires l.world.store.log <= l'.world.store.log
    requires forall k | |l.world.store.log| <= k < |l'.world.store.log| :: !WorkerLaunch(l'.world.store.log[k])
    requires l'.child == l.child ||
             (l'.child.None? && (l.child.Some? ==> SettledSince(l'.world.store.log, |l.world.store.log|, l.child.value.pid)))
    ensures InOrder(l')
  {
    QuietKeeps(l.world.store.log, l'.world.store.log, l.child);
    if l'.child != l.child {
      SettledUntracks(l.world.store.log, l'.world.store.log, l.child);
    }
  }

  lemma {:induction false} MoveInOrder(l: Loop, c: Settings, i: Input, at: LoopPoint)
    requires InOrder(l) && ClearInput(i)
    ensures InOrder(Move(l, c, i, at))
  {
    EnvKeeps(l.world, c, i.env(at));
    EnvPlain(l.world.store, l.world, c, i.env(at));
    EnvSighted(l.world, c, i.env(at));
    PlainInOrder(l, Move(l, c, i, at));
  }

  lemma {:induction false} ReapInOrder(l: Loop, c: Settings, i: Input)
    requires InOrder(l) && ClearInput(i)
    ensures InOrder(ReapWeb(l, c, i))
  {
    MoveInOrder(l, c, i, PreWeb);
    ReapKeeps(l.world.store, l, c, i);
    PlainInOrder(Move(l, c, i, PreWeb), ReapWeb(l, c, i));
  }

  lemma {:induction false} WebInOrder(l: Loop, c: Settings, i: Input)
    requires InOrder(l) && ClearInput(i)
    ensures InOrder(EnsureWeb(ReapWeb(l, c, i), c, i))
  {
    var l1 := ReapWeb(l, c, i);
    ReapInOrder(l, c, i);
    MoveInOrder(l1, c, i, BetweenPolls);
    EnsureKeeps(l1.world.store, l1, c, i);
    PlainInOrder(Move(l1, c, i, BetweenPolls), EnsureWeb(l1, c, i));
  }

  lemma {:induction false} TimeoutInOrder(l: Loop, c: Settings, i: Input)
    requires InOrder(l) && ClearInput(i) && l.child.Some?
    ensures var l1 := ChargeWorker(l, RegistrationTimeout);
            InOrder(l1.(world := TerminateLauncher(l1.world, c, i.review, l.child.value.pid), child := None))
  {
    var l1 := ChargeWorker(l, RegistrationTimeout);
    var pid := l.child.value.pid;
    EmitPlain(l.world.store, l.world, Failure(Worker, RegistrationTimeout));
    PlainInOrder(l, l1);
    TerminateLauncherCalm(l1.world, c, i.review, pid);
    TerminateLauncherSettles(l1.world, c, i.review, pid);
    TerminateLauncherBlind(l1.world, c, i.review, pid);
    StopPlain(l.world.store, l1.world, c, i.review, pid);
    PlainInOrder(l1, l1.(world := TerminateLauncher(l1.world, c, i.review, pid), child := None));
  }

  lemma {:induction false} ChargeInOrder(l: Loop, cause: Cause)
    requires InOrder(l)
    ensures InOrder(ChargeWorker(l, cause))
  {
    EmitPlain(l.world.store, l.world, Failure(Worker, cause));
    PlainInOrder(l, ChargeWorker(l, cause));
  }

  lemma {:induction false} JudgeInOrder(l: Loop, c: Settings, i: Input, worker: Option<Registration>, alive: bool)
    requires InOrder(l) && ClearInput(i)
    requires HasExited(l) ==> Tracked(l.world.store.log, None)
    ensures InOrder(Judge(l, c, i, worker, alive))
  {
    ChargeInOrder(l, ProcessLost);
    if HasExited(l) {
      ChargeInOrder(l.(child := None), ProcessLost);
      ChargeInOrder(l.(child := None), BeforeRegistration);
    } else if l.child.Some? {
      TimeoutInOrder(l, c, i);
    }
  }

  lemma {:induction false} PollInOrder(l: Loop)
    requires InOrder(l)
    ensures InOrder(PollChild(l))
    ensures HasExited(l) ==> Tracked(PollChild(l).world.store.log, None)
  {
    PollChildKeeps(l.world.store, l);
    PlainInOrder(l, PollChild(l));
    if HasExited(l) {
      var b := PollChild(l).world.store.log;
      assert Settles(b[|l.world.store.log|], l.child.value.pid);
      SettledUntracks(l.world.store.log, b, l.child);
    }
  }

  lemma {:induction false} ReviewInOrder(l: Loop, c: Settings, i: Input)
    requires InOrder(l) && ClearInput(i)
    ensures InOrder(ReviewWorker(l, c, i))
  {
    MoveInOrder(l, c, i, PreRow);
    var l1 := Move(l, c, i, PreRow);
    MoveInOrder(l1, c, i, PostRow);
    PollInOrder(Move(l1, c, i, PostRow));
    var l2 := PollChild(Move(l1, c, i, PostRow));
    JudgeInOrder(l2, c, i, l1.world.reg, ProcessAlive(l2.world, c, l1.world.reg));
  }

  lemma {:induction false} BeforeCallInOrder(l: Loop, c: Settings, i: Input)
    requires InOrder(l) && ClearInput(i)
    ensures InOrder(BeforeCall(l, c, i))
  {
    MoveInOrder(l, c, i, PreCall);
  }

  lemma {:induction false} CallInOrder(l: Loop, c: Settings, i: Input)
    requires InOrder(l) && ClearInput(i)
    ensures InOrder(CallWorker(l, c, i))
  {
    if !l.workerBudget.crashLoop {
      CallDisciplined(l.world, c, i.call, l.child);
      CallBlind(l.world, c, i.call, l.child);
      CallBacked(l.world, c, i.call, l.child);
      CallJustified(l.world, c, i.call, l.child);
      var (w, out) := SuperviseOnce.SuperviseOnce(l.world, c, i.call, l.child);
      var l1 := l.(world := w, child := Next(out, l.child));
      EmitPlain(w.store, w, Failure(Worker, SpawnFailed));
      PlainInOrder(l1, ChargeWorker(l1, SpawnFailed));
    }
  }

  lemma {:induction false} CycleInOrder(l: Loop, c: Settings, i: Input)
    requires InOrder(l) && ClearInput(i) && !l.done
    ensures var l' := Cycle(l, c, i); Safe(l'.world) && Orderly(l'.world.store.log) && (!l'.done ==> InOrder(l'))
  {
    CycleKeeps(l.world.store, l, c, i);
    MoveInOrder(l, c, i, PreCycle);
    var l0 := Move(l, c, i, PreCycle);
    if i.stop {
      ShutdownWrites(l0, c, i);
      QuietKeeps(l0.world.store.log, Shutdown(l0, c, i).world.store.log, None);
    } else if i.check.Checked? {
      EmitPlain(l0.world.store, l0.world, Ownership(i.check.owned));
      var l1 := l0.(owns := i.check.owned, world := Emit(l0.world, Ownership(i.check.owned)));
      PlainInOrder(l0, l1);
      if l1.owns {
        WebInOrder(l1, c, i);
        var l2 := EnsureWeb(ReapWeb(l1, c, i), c, i);
        ReviewInOrder(l2, c, i);
        BeforeCallInOrder(ReviewWorker(l2, c, i), c, i);
        CallInOrder(BeforeCall(ReviewWorker(l2, c, i), c, i), c, i);
      }
    }
  }

  /**
   Over every sighted run, each worker launcher was seen to exit or was sent a termination before
   the next one was started.
   */
  lemma {:induction false} RunInOrder(l: Loop, c: Settings, inputs: seq<Input>)
    requires InOrder(l) && !l.done && forall i | i in inputs :: ClearInput(i)
    ensures var l' := Run(l, c, inputs); Orderly(l'.world.store.log) && (!l'.done ==> InOrder(l'))
  {
    if inputs != [] {
      assert forall i | i in Init(inputs) :: i in inputs;
      RunInOrder(l, c, Init(inputs));
      assert Last(inputs) in inputs;
      if !Run(l, c, Init(inputs)).done {
        CycleInOrder(Run(l, c, Init(inputs)), c, Last(inputs));
      }
    }
  }

  // ---- Ownership -------------------------------------------------------------------------------

  /** The latest answer of the ownership check. */
  predicate Owned(log: seq<Event>) {
    if log == [] then false
    else if Last(log).Ownership? then Last(log).owned
    else Owned(Init(log))
  }

  /** Everything the supervisor does to children, registrations and jobs. */
  predicate Action(e: Event) {
    e.KillWorker? || e.KillLauncher? || e.Fenced? || e.Retired? || e.Requeue? || e.Recovered? || e.Launched?
  }

  ghost predicate Gated(log: seq<Event>) {
    forall i | 0 <= i < |log| && Action(log[i]) :: Owned(log[..i])
  }

  lemma {:induction false} OwnedCarries(a: seq<Event>, b: seq<Event>)
    requires a <= b && forall k | |a| <= k < |b| :: !b[k].Ownership?
    ensures Owned(b) == Owned(a)
  {
    if b != a {
      OwnedCarries(a, Init(b));
    }
  }

  lemma {:induction false} GatedGrows(a: seq<Event>, b: seq<Event>)
    requires Gated(a) && a <= b && forall k | |a| <= k < |b| :: !b[k].Ownership?
    requires Owned(a) || forall k | |a| <= k < |b| :: !Action(b[k])
    ensures Gated(b) && Owned(b) == Owned(a)
  {
    OwnedCarries(a, b);
    forall i | 0 <= i < |b| && Action(b[i]) ensures Owned(b[..i]) {
      if i < |a| {
        assert b[..i] == a[..i] && Action(a[i]);
      } else {
        OwnedCarries(a, b[..i]);
      }
    }
  }

  /** An owned iteration never speaks for the ownership check. */
  lemma {:induction false} OwnedCycleUnclaiming(l: Loop, c: Settings, i: Input)
    requires Safe(l.world)
    ensures var a, b := l.world.store.log, OwnedCycle(l, c, i).world.store.log;
            a <= b && forall k | |a| <= k < |b| :: !b[k].Ownership?
  {
    ReapWrites(l, c, i);
    ReapKeeps(l.world.store, l, c, i);
    var l1 := ReapWeb(l, c, i);
    EnsureWrites(l1, c, i);
    EnsureKeeps(l.world.store, l1, c, i);
    WorkerPartWrites(EnsureWeb(l1, c, i), c, i);
  }

  /** The gate, and that the loop's flag is the check's latest answer. */
  ghost predicate GateHolds(l: Loop) {
    Safe(l.world) && Gated(l.world.store.log) && l.owns == Owned(l.world.store.log)
  }

  lemma {:induction false} AnswerGated(l: Loop, owned: bool)
    requires GateHolds(l)
    ensures GateHolds(l.(owns := owned, world := Emit(l.world, Ownership(owned))))
  {
    EmitPlain(l.world.store, l.world, Ownership(owned));
    var a, b := l.world.store.log, l.world.store.log + [Ownership(owned)];
    forall k | 0 <= k < |b| && Action(b[k]) ensures Owned(b[..k]) {
      assert b[..k] == a[..k] && Action(a[k]);
    }
  }

  lemma {:induction false} MoveGated(l: Loop, c: Settings, i: Input, at: LoopPoint)
    requires GateHolds(l)
    ensures GateHolds(Move(l, c, i, at))
  {
    EnvKeeps(l.world, c, i.env(at));
    EnvPlain(l.world.store, l.world, c, i.env(at));
    GatedGrows(l.world.store.log, Move(l, c, i, at).world.store.log);
  }

  lemma {:induction false} ShutdownGated(l: Loop, c: Settings, i: Input)
    requires GateHolds(l)
    ensures GateHolds(Shutdown(l, c, i))
  {
    if l.owns {
      ShutdownKeeps(l.world.store, l, c, i);
      ShutdownWrites(l, c, i);
      GatedGrows(l.world.store.log, Shutdown(l, c, i).world.store.log);
    }
  }

  lemma {:induction false} OwnedCycleGated(l: Loop, c: Settings, i: Input)
    requires GateHolds(l) && l.owns && Safe(OwnedCycle(l, c, i).world)
    ensures GateHolds(OwnedCycle(l, c, i))
  {
    OwnedCycleUnclaiming(l, c, i);
    OwnedCycleOwns(l, c, i);
    GatedStep(l, OwnedCycle(l, c, i));
  }

  lemma {:induction false} OwnedCycleOwns(l: Loop, c: Settings, i: Input)
    ensures OwnedCycle(l, c, i).owns == l.owns
  {
    WebPartLeavesWorker(l, c, i);
    WorkerPartLeavesWeb(EnsureWeb(ReapWeb(l, c, i), c, i), c, i);
  }

  lemma {:induction false} GatedStep(l: Loop, l': Loop)
    requires GateHolds(l) && l.owns && l'.owns && Safe(l'.world) && l.world.store.log <= l'.world.store.log
    requires forall k | |l.world.store.log| <= k < |l'.world.store.log| :: !l'.world.store.log[k].Ownership?
    ensures GateHolds(l')
  {
    GatedGrows(l.world.store.log, l'.world.store.log);
  }

  lemma {:induction false} CycleGated(l: Loop, c: Settings, i: Input)
    requires GateHolds(l)
    ensures GateHolds(Cycle(l, c, i))
  {
    if !l.done {
      MoveGated(l, c, i, PreCycle);
      var l0 := Move(l, c, i, PreCycle);
      if i.stop {
        ShutdownGated(l0, c, i);
      } else if i.check.Checked? {
        AnswerGated(l0, i.check.owned);
        var l1 := l0.(owns := i.check.owned, world := Emit(l0.world, Ownership(i.check.owned)));
        if l1.owns {
          CycleKeeps(l.world.store, l, c, i);
          OwnedCycleGated(l1, c, i);
        }
      }
    }
  }

  /** Over every run, no action is taken unless the latest ownership check said yes. */
  lemma {:induction false} RunGated(l: Loop, c: Settings, inputs: seq<Input>)
    requires GateHolds(l)
    ensures GateHolds(Run(l, c, inputs))
  {
    if inputs != [] {
      RunGated(l, c, Init(inputs));
      CycleGated(Run(l, c, Init(inputs)), c, Last(inputs));
    }
  }

  /** After the deadline, the first check that says no ends the run and touches nothing. */
  lemma {:induction false} LostOwnershipEndsRun(l: Loop, c: Settings, i: Input, rest: seq<Input>)
    requires !l.done && !i.stop && i.check == Checked(false)
    requires Env(l.world, c, i.env(PreCycle)).mono >= l.deadline
    ensures var l' := Run(Cycle(l, c, i), c, rest);
            && l'.done && !l'.owns && l'.child == l.child && l'.web == l.web
            && l'.world == Emit(Env(l.world, c, i.env(PreCycle)), Ownership(false))
  {
    DoneForever(Cycle(l, c, i), c, rest);
  }

  lemma {:induction false} DoneForever(l: Loop, c: Settings, inputs: seq<Input>)
    requires l.done
    ensures Run(l, c, inputs) == l
  {
    if inputs != [] {
      DoneForever(l, c, Init(inputs));
    }
  }
}
