/** When a crash-looping web role is launched again, over whole runs. */
module WebCrashLoop {
  import opened Common
  import opened Timeline
  import opened JobTable
  import opened Runtime
  import opened SuperviseOnce
  import opened RestartBudget
  import opened SupervisorLoop
  import opened LoopSafety
  import opened LoopTimeline
  import opened WebRestarts

  /** The web launches on the timeline. */
  function Launches(l: Loop): nat {
    TallyOf(l.world.store.log).launches
  }

  function PollClock(l: Loop, c: Settings, i: Input): int {
    Move(AtWeb(l, c, i), c, i, PreWeb).world.mono
  }

  /** The first poll finds the tracked child exited, and the charge for it leaves the crash loop. */
  predicate Escapes(l: Loop, c: Settings, i: Input) {
    Supervises(l, i) && FirstPollExited(AtWeb(l, c, i), c, i) && !Record(l.webBudget, PollClock(l, c, i)).crashLoop
  }

  predicate WillSpawn(l: Loop, c: Settings, i: Input) {
    SpawnWorks(ReapWeb(AtWeb(l, c, i), c, i), c, i)
  }

  /** The web part of an iteration in crash loop. */
  lemma {:induction false} LoopingPart(l: Loop, c: Settings, i: Input)
    requires l.webBudget.crashLoop
    ensures var l' := WebPart(l, c, i);
            var leaves := FirstPollExited(l, c, i) && !Record(l.webBudget, Move(l, c, i, PreWeb).world.mono).crashLoop;
            && Launches(l') == Launches(l) + (if leaves && SpawnWorks(ReapWeb(l, c, i), c, i) then 1 else 0)
            && (!leaves ==> l'.webBudget.crashLoop)
            && (l.web.None? ==> l'.web.None?)
  {
    LoopingReap(l, c, i);
    LoopingEnsure(ReapWeb(l, c, i), c, i);
  }

  lemma {:induction false} LoopingReap(l: Loop, c: Settings, i: Input)
    requires l.webBudget.crashLoop
    ensures var l1 := ReapWeb(l, c, i);
            && Launches(l1) == Launches(l) && (l.web.None? ==> l1.web.None?)
            && (l1.webBudget.crashLoop <==>
                !(FirstPollExited(l, c, i) && !Record(l.webBudget, Move(l, c, i, PreWeb).world.mono).crashLoop))
            && (!l1.webBudget.crashLoop ==> l1.web.None?)
  {
    ReapTally(l, c, i);
  }

  /** Without a child and out of the crash loop, a launch is attempted; in the crash loop none is. */
  lemma {:induction false} LoopingEnsure(l: Loop, c: Settings, i: Input)
    requires l.webBudget.crashLoop || l.web.None?
    ensures var l' := EnsureWeb(l, c, i);
            && Launches(l') == Launches(l) + (if !l.webBudget.crashLoop && SpawnWorks(l, c, i) then 1 else 0)
            && (l.webBudget.crashLoop ==> l'.webBudget == l.webBudget && l'.web == l.web)
  {
    EnsureTally(l, c, i);
  }

  /**
   In crash loop, an iteration launches the web child if and only if it was still tracked, the first
   poll finds it exited, the charge for that exit leaves the crash loop, and the spawn works.
   */
  lemma {:induction false} LoopingCycle(l: Loop, c: Settings, i: Input)
    requires Safe(l.world) && l.webBudget.crashLoop
    ensures var l' := Cycle(l, c, i);
            && Launches(l') == Launches(l) + (if Escapes(l, c, i) && WillSpawn(l, c, i) then 1 else 0)
            && (!Escapes(l, c, i) ==> l'.webBudget.crashLoop)
            && (l.web.None? ==> l'.web.None?)
  {
    CycleOfWeb(l, c, i);
    if Supervises(l, i) {
      AtWebSame(l, c, i, true);
      LoopingPart(AtWeb(l, c, i), c, i);
    }
  }

  // ---- Launches in every state ---------------------------------------------------------------------

  /** The guards of a launch in this iteration: out of the crash loop, no running child at the second poll, a working spawn. */
  predicate LaunchesNow(l: Loop, c: Settings, i: Input) {
    var m := ReapWeb(AtWeb(l, c, i), c, i);
    Supervises(l, i) && Starts(m, c, i) && SpawnWorks(m, c, i)
  }

  lemma {:induction false} PartCounts(l: Loop, c: Settings, i: Input)
    ensures var m := ReapWeb(l, c, i);
            Launches(WebPart(l, c, i)) == Launches(l) + if Starts(m, c, i) && SpawnWorks(m, c, i) then 1 else 0
  {
    ReapCounts(l, c, i);
    EnsureCounts(ReapWeb(l, c, i), c, i);
  }

  lemma {:induction false} ReapCounts(l: Loop, c: Settings, i: Input)
    ensures Launches(ReapWeb(l, c, i)) == Launches(l)
  {
    ReapTally(l, c, i);
  }

  lemma {:induction false} EnsureCounts(l: Loop, c: Settings, i: Input)
    ensures Launches(EnsureWeb(l, c, i)) == Launches(l) + if Starts(l, c, i) && SpawnWorks(l, c, i) then 1 else 0
  {
    EnsureTally(l, c, i);
  }

  /** For every state: an iteration launches the web child once exactly under its guards. */
  lemma {:induction false} CycleCounts(l: Loop, c: Settings, i: Input)
    requires Safe(l.world)
    ensures Launches(Cycle(l, c, i)) == Launches(l) + if LaunchesNow(l, c, i) then 1 else 0
  {
    CycleOfWeb(l, c, i);
    if Supervises(l, i) {
      AtWebSame(l, c, i, true);
      PartCounts(AtWeb(l, c, i), c, i);
    }
  }

  function LaunchesIn(l: Loop, c: Settings, inputs: seq<Input>): nat {
    if inputs == [] then 0 else
      LaunchesIn(l, c, Init(inputs)) + if LaunchesNow(Run(l, c, Init(inputs)), c, Last(inputs)) then 1 else 0
  }

  /** Over every run: as many web launches as iterations whose guards were open. */
  lemma {:induction false} RunCounts(l: Loop, c: Settings, inputs: seq<Input>)
    requires Safe(l.world)
    ensures Launches(Run(l, c, inputs)) == Launches(l) + LaunchesIn(l, c, inputs)
  {
    if inputs != [] {
      RunCounts(l, c, Init(inputs));
      assert Safe(Run(l, c, Init(inputs)).world) by {
        RunKeeps(l, c, Init(inputs));
      }
      CycleCounts(Run(l, c, Init(inputs)), c, Last(inputs));
    }
  }

  // ---- Runs from a crash loop ------------------------------------------------------------------------

  /** How many iterations of the run escape. */
  function EscapesIn(l: Loop, c: Settings, inputs: seq<Input>): nat {
    if inputs == [] then 0 else
      EscapesIn(l, c, Init(inputs)) + if Escapes(Run(l, c, Init(inputs)), c, Last(inputs)) then 1 else 0
  }

  /** The spawn works in every iteration that escapes. */
  predicate AllSpawn(l: Loop, c: Settings, inputs: seq<Input>) {
    inputs == [] ||
    (AllSpawn(l, c, Init(inputs)) &&
     (Escapes(Run(l, c, Init(inputs)), c, Last(inputs)) ==> WillSpawn(Run(l, c, Init(inputs)), c, Last(inputs))))
  }

  /** A run without an escape stays in crash loop and launches nothing. */
  lemma {:induction false} LoopingRun(l: Loop, c: Settings, inputs: seq<Input>)
    requires Safe(l.world) && l.webBudget.crashLoop && EscapesIn(l, c, inputs) == 0
    ensures var l' := Run(l, c, inputs); l'.webBudget.crashLoop && Launches(l') == Launches(l)
  {
    if inputs != [] {
      LoopingRun(l, c, Init(inputs));
      assert Safe(Run(l, c, Init(inputs)).world) by {
        RunKeeps(l, c, Init(inputs));
      }
      LoopingCycle(Run(l, c, Init(inputs)), c, Last(inputs));
    }
  }

  /**
   From a crash loop, over every run: web launches are the iterations whose guards were open, the first of them
   comes with or after an escape, and an escape is enough if the spawn works where the run escapes.
   */
  lemma {:induction false} RelaunchExactly(l: Loop, c: Settings, inputs: seq<Input>)
    requires Safe(l.world) && l.webBudget.crashLoop
    ensures Launches(Run(l, c, inputs)) > Launches(l) <==> LaunchesIn(l, c, inputs) > 0
    ensures LaunchesIn(l, c, inputs) > 0 ==> EscapesIn(l, c, inputs) > 0
    ensures AllSpawn(l, c, inputs) && EscapesIn(l, c, inputs) > 0 ==> LaunchesIn(l, c, inputs) > 0
  {
    RunCounts(l, c, inputs);
    if EscapesIn(l, c, inputs) == 0 {
      LoopingRun(l, c, inputs);
    } else if AllSpawn(l, c, inputs) {
      EscapeLaunches(l, c, inputs);
    }
  }

  lemma {:induction false} EscapeLaunches(l: Loop, c: Settings, inputs: seq<Input>)
    requires Safe(l.world) && l.webBudget.crashLoop && AllSpawn(l, c, inputs) && EscapesIn(l, c, inputs) > 0
    ensures LaunchesIn(l, c, inputs) > 0
  {
    if EscapesIn(l, c, Init(inputs)) > 0 {
      EscapeLaunches(l, c, Init(inputs));
    } else {
      var l1 := Run(l, c, Init(inputs));
      LoopingRun(l, c, Init(inputs));
      assert Safe(l1.world) by {
        RunKeeps(l, c, Init(inputs));
      }
      LoopingCycle(l1, c, Last(inputs));
      CycleCounts(l1, c, Last(inputs));
    }
  }

  /** Once the crash loop has dropped its child, it is terminal: no run launches the web role again. */
  lemma {:induction false} WebCrashLoopTerminal(l: Loop, c: Settings, inputs: seq<Input>)
    requires Safe(l.world) && l.webBudget.crashLoop && l.web.None?
    ensures var l' := Run(l, c, inputs); l'.webBudget.crashLoop && l'.web.None? && Launches(l') == Launches(l)
  {
    if inputs != [] {
      WebCrashLoopTerminal(l, c, Init(inputs));
      assert Safe(Run(l, c, Init(inputs)).world) by {
        RunKeeps(l, c, Init(inputs));
      }
      NothingToReap(Run(l, c, Init(inputs)), c, Last(inputs));
      LoopingCycle(Run(l, c, Init(inputs)), c, Last(inputs));
    }
  }

  lemma {:induction false} NothingToReap(l: Loop, c: Settings, i: Input)
    requires l.web.None?
    ensures !Escapes(l, c, i)
  {
  }

  // ---- The state that escapes ------------------------------------------------------------------

  /** How a crash loop can keep its child: it exits between the two polls and the spawn for it fails. */
  lemma {:induction false} LoopingWithChild(l: Loop, c: Settings, i: Input)
    requires Safe(l.world) && Supervises(l, i) && l.web.Some? && !l.webBudget.crashLoop
    requires !FirstPollExited(AtWeb(l, c, i), c, i)
    requires var m := ReapWeb(AtWeb(l, c, i), c, i); Starts(m, c, i) && !SpawnWorks(m, c, i)
    ensures var now := Move(ReapWeb(AtWeb(l, c, i), c, i), c, i, BetweenPolls).world.mono;
            var l' := Cycle(l, c, i);
            l'.web == l.web && l'.webBudget == Record(l.webBudget, now)
  {
    CycleOfWeb(l, c, i);
    AtWebSame(l, c, i, true);
  }
}
