# Swing Lens: verified models

Dafny models of the hardest logic of the Swing Lens repository, with proofs. Check everything with
`dafny verify dfyconfig.toml`. Every lemma carries `{:induction false}`: no proof relies on automatic
induction.

**The worker supervisor.** `app/worker_supervisor.py` runs a loop over a registration row, operating
system processes, a launcher handle, two restart budgets, an ownership answer and the job table. The
model keeps the code's order of steps. At marked points between them the rest of the system may move:
jobs are claimed, settled, beaten, cancelled, blocked with a failed sibling or taken back by another
worker's recovery, workers register and exit, the clock advances, and a database transaction or a
signal may fail before or after it took effect. All of this is an *oracle*, an ordinary parameter, so
the theorems range over every sequence of these steps at every such point and every failure.
Everything that happens is appended to one timeline (`Timeline`), and whole-run properties are
statements about that timeline. The callees in `app/services/background_job_service.py`,
`worker_registry.py` and `supervisor_restart.py` are modelled from their own code.
`Supervisor.Process` is the imperative form: each method updates the fields, is proved equal to the
specification function of its step, and carries what that step promises.

- `Timeline`, `JobTable`, `JobHistory`, `Runtime`: events, the job table and its owner-fenced updates, the environment.
- `SuperviseOnce`, `CallSafety`, `RecoverySafety`, `StrandedJobs`, `Launchers`, `Recycling`, `Convergence`: one call.
- `RestartBudget`, `SupervisorLoop`, `LoopSafety`, `LoopTimeline`, `LoopDiscipline`: whole runs.
- `WebRestarts`, `WebCrashLoop`, `WebExamples`, `WorkerRestarts`, `WorkerRelaunch`, `RestartClocks`: restarts over whole runs.
- `WorldLikeness`, `CallIsolation`, `WorkerIsolation`, `WebFrame`, `WebIsolation`: what the two roles do not see of each other.
- `LoopTheorems`, `Supervisor`: the theorems together, and the process that carries them.

**The guidance-corpus certifier** (`CorpusValidation`, `CorpusMatcher`, `CorpusScoring`, `CorpusGate`): the
validation of the corpus, the greedy row matcher, the scoring loop and the gates.

**The audit analyzer** (`TopK`, `AuditIndexes`, `AuditRequests`, `AuditScan`, `Percentile`): the
one-pass scan and its bounded heaps against plain definitions over the list of records.

**Smaller protocols**: `EstimateLifecycle` (plan, migration and verification under SQL's three truth
values), `CanonicalOrder`, `CanonicalJson` and `ArtifactHash` (the canonical serializer and the hash
round trip built on it), `CertificationVerdict` (the two certification runners and the release
aggregate), `ForwardPath`, `LogSplitter`.

## What the proofs found

- The repository's `README.md` (lines 89-90) calls `CRASH_LOOP` terminal. The code recomputes the flag at
  every recorded failure, and both roles can be charged while they are crash looping. The worker is: its
  review charges a lost process, an exit before registration and a registration timeout even then
  (`WorkerRestarts.ReviewBudget`). It is launched again exactly when such a charge leaves the crash loop
  and the guards of the call are open (`WorkerRestarts.LoopingCycle`); `WorkerRelaunch.WorkerCrashLoopLeft`
  gives runs into the crash loop and out of it, whatever the waits between the iterations. The web role is, when its child exits between the two polls of
  a cycle and the respawn fails: the loop keeps the exited child and charges it again one cycle later.
  It is launched again exactly when that charge leaves the crash loop and the spawn works
  (`WebCrashLoop.LoopingCycle`, runs in `WebExamples.WebCrashLoopLeft`). Only a web crash loop that has
  dropped its child is terminal (`WebCrashLoop.WebCrashLoopTerminal`). In every state of a run a charge
  leaves the crash loop exactly when the failure `budget - 1` places before it has left the window
  (`RestartClocks`).
- Two undisturbed supervisor calls do not always leave a usable worker or a running launcher.
  `Convergence.TwoCalls` gives the exact condition and `Convergence.ThirdCallNeeded` an instance; three
  calls always do.
- A job left `STALLED` because its requeue failed or its row was locked is never requeued by any later
  cycle (`StrandedJobs.RecoveryExactly`, `StrandedJobs.RecycleExactly`, `StrandedJobs.CallStrands`,
  `LoopSafety.RunKeeps`). It can still
  be cancelled, or blocked with a failed sibling.
- `_recover_jobs` reads without a lock and writes by primary key. A write that lands on a row
  that has changed since makes the job runnable again whatever happened meanwhile: a completed job can be run a second time
  (`JobTable.ReclaimCanRepeat`). The ledger survives even this, because the second run has its own token;
  `JobTable.ReclaimExactly` says exactly when a write overtakes.
- A web process that exits between the two polls of one cycle is replaced without being recorded. Over
  every run, launches and failed spawns are recorded failures, races and the tracked child together
  (`WebRestarts.RunCounted`); launches stay within one plus the recorded failures exactly while races are
  covered by failed spawns (`WebRestarts.LaunchBoundExactly`), and `WebExamples.LaunchesUnbounded` exceeds
  the bound by any number.
- The deterministic certification runner writes its verdict (`CERTIFIED`) where the live runner looks for
  `PASS`, and `NOT_RUN` for the release regressions. No report of either runner can meet the live
  prerequisite (`CertificationVerdict.OwnReportsNeverPromote`). The release aggregate's report does, exactly
  for a clean release with a certified exact-pipeline lane under a plan that is not a core plan; the core
  profile, which is the default, leaves the full release `NOT_RUN` (`CertificationVerdict.Aggregate`).

## Model

| member | source | states |
|---|---|---|
| JobTable.ClaimKeeps | app/services/background_job_service.py:842-945 | claiming keeps the ledger: tokens are handed out once, to one job, and every execution is live or ended exactly once |
| JobTable.SettleKeeps | app/services/background_job_service.py:2286-2330 | finishing, failing, deferring or cancelling under a token keeps the ledger, whether or not the token still holds the row |
| JobTable.OwnerUpdatesKeep | app/services/background_job_service.py:2409-2439 | heartbeats and progress updates keep the ledger |
| JobTable.SubmitKeeps | app/services/background_job_service.py:202-381 | enqueueing keeps the ledger |
| JobTable.CancelKeeps | app/services/background_job_service.py:2074-2096 | a cancellation request, decided on an unlocked read and written over whatever the row is by then, keeps the ledger |
| JobTable.ResetKeeps | app/services/market_data_prewarm_service.py:639-664 | resetting the cancellation request of a preempted job keeps the ledger |
| JobTable.SetAsideKeeps | app/services/pipeline_service.py:1788-1834 | blocking or failing an unclaimed sibling keeps the ledger |
| JobTable.ReclaimKeeps | app/services/background_job_service.py:2181-2234 | the worker's own recovery, decided on an unlocked read, keeps the ledger |
| JobTable.ReclaimExactly | app/services/background_job_service.py:2181-2234 | exactly when that write overtakes another transaction, which execution it then ends, and the status it leaves |
| JobTable.ReclaimCanRepeat | app/services/background_job_service.py:2181-2234 | a job that was completed between the read and the write is run a second time |
| JobTable.ReconcileKeeps | app/services/background_job_service.py:1528-1611 | worker-loss reconciliation keeps the ledger |
| JobTable.ReconcileRows | app/services/background_job_service.py:1528-1611 | reconciliation changes exactly the lockable running rows of the named worker and instance |
| JobTable.ReconcileLists | app/services/background_job_service.py:1528-1611 | exactly which ids are reported as fenced, as cancelled and as untouched |
| JobTable.ReconcileRevokes | app/services/background_job_service.py:1528-1611 | every fenced id had its token revoked in that transaction, and nothing else was written |
| JobTable.FenceStalledKeeps | app/services/background_job_service.py:1066-1231 | the watchdog fence keeps the ledger |
| JobTable.FenceStalledExact | app/services/background_job_service.py:1066-1231 | a row is fenced if and only if under its lock it is still the execution that was sighted, without progress since |
| JobTable.FenceStalledRevokes | app/services/background_job_service.py:1066-1231 | every row the watchdog fences had its token revoked in that transaction |
| JobTable.RequeueKeeps | app/services/background_job_service.py:1394-1503 | requeueing keeps the ledger |
| JobTable.RequeueExact | app/services/background_job_service.py:1394-1503 | requeueing changes exactly the listed, lockable, stalled rows, and to which status |
| JobTable.RequeueRecovers | app/services/background_job_service.py:1394-1503 | requeueing records only recoveries of listed jobs |
| JobTable.FencedNeverCommits | app/services/background_job_service.py:2409-2439 | on any timeline with the ledger, no execution is both fenced and settled |
| JobTable.EndedTokenIsDead | app/services/background_job_service.py:2409-2439 | an ended token is on no row, so every later owner-fenced update with it changes nothing |
| JobHistory.HistoryOf | app/services/background_job_service.py:842-945 | every job table whose tokens are issued, unshared and on running or cancelled rows has a history of job transactions with the ledger |
| Runtime.DoKeepsLedger | app/services/background_worker.py:680-715 | every step of workers, clients, sibling transactions, recoveries and the clock keeps the ledger |
| Runtime.DoParks | app/services/pipeline_service.py:1788-1834 | no such step makes a job that is not queued, recovering or running one of these again, but by an overtaking write, which marks the row |
| Runtime.EnvKeeps | app/services/background_job_service.py:2181-2234 | any sequence of outside steps keeps the ledger, final exits, the clock's direction and parked jobs, and writes only job events |
| RecoverySafety.CallBacked | app/worker_supervisor.py:632-812 | after any call under any oracle every recovered job was fenced in the same call for the exact registration read there, with the retirement attempt in between, and the ledger holds |
| StrandedJobs.CallStrands | app/worker_supervisor.py:1113-1129 | whatever else moves, a job that is not queued, recovering or running when a call begins is not made so by it, unless an overtaking write marked its row |
| StrandedJobs.RecoveryExactly | app/worker_supervisor.py:763-778 | whatever else moves, what becomes of a job fenced from a lost instance: the fence leaves it cancelled or stalled; if its answer is lost nothing more happens; otherwise the job is left stalled if and only if the requeue finds it stalled and rolls back, or its row is not returned, not authorised or locked |
| StrandedJobs.RecycleExactly | app/worker_supervisor.py:736-742 | the same for a job fenced from a recycled worker |
| StrandedJobs.UndisturbedRecovery | app/worker_supervisor.py:763-778 | when nothing else moves, the row after the recovery as a function of the row before it |
| Launchers.TerminateInstanceSettles | app/worker_supervisor.py:1149-1167 | stopping an instance signals the tracked launcher or sees it exit, whether or not it is the worker itself |
| Launchers.CallDisciplined | app/worker_supervisor.py:697-704 | when inspection and signalling work, a call starts a launcher only after all earlier ones exited or were signalled |
| Launchers.OneLaunchPerCall | app/worker_supervisor.py:794-812 | at most one launch per call, as its last action, and it is the launcher returned |
| Recycling.CallJustified | app/worker_supervisor.py:646-742 | a registered process is signalled only after a condemning verdict or a fenced job; after a condemning verdict nothing is fenced, retired or requeued before the process was found dead; and every signal and death concerns the process of the registration that call read |
| Recycling.CallDeathsReal | app/worker_supervisor.py:668-681 | when every process can be inspected, whatever a call found dead has really exited |
| Convergence.TwoCalls | app/worker_supervisor.py:632-812 | from any state, two undisturbed calls reach a usable worker or a running launcher if and only if the stale loop's excuse is not cancelled away by its own fence |
| Convergence.ThreeCalls | app/worker_supervisor.py:632-812 | three undisturbed calls always do |
| Convergence.ThirdCallNeeded | app/worker_supervisor.py:656-666 | a concrete state with the ledger in which the exception of the previous condition holds |
| RestartBudget.RestartTracker.RecordFailure | app/services/supervisor_restart.py:40-58 | the in-place update equals the specification step on the budget's value |
| RestartBudget.PruningIsExact | app/services/supervisor_restart.py:48-58 | on a monotone clock the pruned list is the window over the whole history |
| RestartBudget.CrashLoopExactly | app/services/supervisor_restart.py:58-58 | crash looping if and only if the budget-th latest failure lies in the window |
| RestartBudget.LeavesCrashLoop | app/services/supervisor_restart.py:48-58 | exactly when one more failure leaves the crash loop |
| RestartBudget.PeriodicCrashLoop | app/services/supervisor_restart.py:48-58 | a role failing once per period is in crash loop if and only if the window holds the whole budget |
| RestartBudget.CrashLoopEnds | app/services/supervisor_restart.py:58-58 | for every budget of two or more, a history that enters and then leaves the crash loop |
| LoopSafety.RunKeeps | app/worker_supervisor.py:197-396 | over every run: the ledger, backed recoveries, justified recycling, and parked jobs stay parked |
| LoopSafety.RunFences | app/worker_supervisor.py:197-396 | no run lets a fenced execution commit |
| LoopDiscipline.RunInOrder | app/worker_supervisor.py:268-316 | over every run in which inspection and signalling work, each worker launcher exited or was signalled before the next was started |
| LoopDiscipline.RunGated | app/worker_supervisor.py:217-225 | over every run no launch, signal, fence, retirement or requeue happens unless the latest ownership check said yes |
| LoopDiscipline.LostOwnershipEndsRun | app/worker_supervisor.py:343-353 | after the deadline the first negative check ends the run with no child or job action, for all later inputs |
| WebRestarts.CycleOfWeb | app/worker_supervisor.py:217-249 | one iteration does to the web role what its web part does if the ownership check said yes, and nothing otherwise |
| WebRestarts.RunCounted | app/worker_supervisor.py:226-249 | over every run: web launches and failed spawns on the timeline equal recorded failures, races and the tracked child, and the budget's counter equals the recorded failures |
| WebRestarts.LaunchBoundExactly | app/worker_supervisor.py:226-249 | web launches stay within one plus the recorded failures if and only if races and the tracked child stay within one plus the failed spawns |
| WebRestarts.WebLaunchesBounded | app/worker_supervisor.py:226-249 | over every run web launches never exceed one plus the recorded failures plus the races, and runs in which no process exits between the two polls add no race |
| WebExamples.LaunchesUnbounded | app/worker_supervisor.py:843-851 | for every n and whatever the waits between iterations, runs from the start with n + 1 web launches and no recorded failure |
| WebCrashLoop.LoopingCycle | app/worker_supervisor.py:226-249 | for every crash-looping web state: launched again if and only if the tracked child is found exited at the first poll, that charge leaves the crash loop, and the spawn works |
| WebCrashLoop.RunCounts | app/worker_supervisor.py:226-249 | over every run from every state: one web launch for each iteration that is out of the crash loop after the first poll, finds no running child at the second, and whose spawn works |
| WebCrashLoop.RelaunchExactly | app/worker_supervisor.py:226-249 | from a web crash loop, over every run: the first launch comes with or after an escape, and an escape is enough if the spawn works where the run escapes |
| WebCrashLoop.WebCrashLoopTerminal | app/worker_supervisor.py:226-249 | once a web crash loop has dropped its child, no run launches the web role again |
| WebCrashLoop.LoopingWithChild | app/worker_supervisor.py:237-249 | how the crash loop keeps its child: an exit between the polls and a failed spawn charge the budget and leave the exited handle in place |
| WebExamples.WebCrashLoopLeft | app/worker_supervisor.py:226-249 | for every budget of at least two, runs from the start whose failures fit into one window, whatever the waits, enter the web crash loop, and an iteration after the window leaves it and launches |
| WebExamples.EvenTurns | app/worker_supervisor.py:371-371 | there are such runs with any given wait before every iteration, as long as the window holds the budget times that wait |
| WorkerRestarts.ReviewBudget | app/worker_supervisor.py:251-316 | for every input the reviewed budget has one more failure if the registered process is lost, the launcher exited before registration, or the registration timed out, and is unchanged otherwise |
| WorkerRestarts.LoopingPart | app/worker_supervisor.py:251-334 | in crash loop the worker part is the review alone unless the review's charge leaves the crash loop |
| WorkerRestarts.CallLaunchesExactly | app/worker_supervisor.py:632-812 | under any oracle a call launches one worker if and only if the row reads, no process is found, no young launcher waits without a registration, the recovery of an active registration succeeds, and the spawn works under a new process id |
| WorkerRestarts.RunCounts | app/worker_supervisor.py:251-334 | over every run from every state: one worker launch for each iteration whose review does not leave the role crash looping and whose call has these guards open |
| WorkerRestarts.LoopingCycle | app/worker_supervisor.py:251-334 | for every crash-looping worker state: launched again if and only if a failure is charged, the charge leaves the crash loop, and the guards of the call are open |
| WorkerRestarts.RelaunchExactly | app/worker_supervisor.py:251-334 | from a worker crash loop, over every run: launches are the iterations with open guards, and the first comes with or after an escape |
| WorkerRelaunch.QuietStarts | app/worker_supervisor.py:794-812 | with no usable worker an undisturbed call launches one if and only if a worker is still registered or no young launcher runs |
| WorkerRelaunch.QuietGuards | app/worker_supervisor.py:794-812 | the guards of such a call are open under the same condition |
| WorkerRelaunch.QuietEscape | app/worker_supervisor.py:251-334 | an iteration that leaves the crash loop, with an undisturbed call, launches one worker under that condition and none otherwise |
| WorkerRelaunch.WorkerCrashLoopLeft | app/worker_supervisor.py:251-334 | for every budget of at least two, runs from a dead registration whose failures fit into one window, whatever the waits, enter the crash loop, and an undisturbed iteration after the window leaves it and launches |
| WorkerRelaunch.EvenWaits | app/worker_supervisor.py:371-371 | there are such runs with any given waits before every iteration and before every call, as long as the window holds them once per failure of the budget |
| WorkerRelaunch.GracefulRecycle | app/worker_supervisor.py:272-334 | a graceful recycle over the whole worker part: budget unchanged, and an undisturbed call launches and tracks exactly one replacement unless the role is crash looping |
| RestartClocks.RunClocked | app/services/supervisor_restart.py:40-58 | over every run the remembered failures of both roles are in order and not later than the clock |
| RestartClocks.WebEscapesExactly | app/worker_supervisor.py:226-236 | in such states the web crash loop is left if and only if the child is found exited and the failure budget - 1 places back has left the window |
| RestartClocks.WorkerEscapesExactly | app/worker_supervisor.py:256-316 | in such states the worker crash loop is left if and only if a failure is charged and the failure budget - 1 places back has left the window |
| CallIsolation.CallLike | app/worker_supervisor.py:632-812 | in worlds that differ only in web processes a call has the same outcome and leaves worlds that differ only in web processes |
| WorkerIsolation.WorkerIgnoresWeb | app/worker_supervisor.py:251-396 | two runs that differ only in the web child, its budget, its spawns and the steps of web processes have the same launcher, worker budget, jobs, registration and other processes, and the same timeline but for web events |
| WebIsolation.RunSeen | app/worker_supervisor.py:226-249 | over every run the web child, its budget and its timeline are a fold over what its own polls, spawns and clock readings showed |
| WebIsolation.WebIgnoresWorker | app/worker_supervisor.py:226-249 | two runs whose inputs agree on the web role and the clock, and differ in jobs, registrations, workers, failures and settings, have the same web child, web budget and web timeline |
| LoopTheorems.StartedRun | app/worker_supervisor.py:187-396 | from any start on a database with the ledger, rows left running included, over any run: every theorem of the ledger, the fences, the gate, the web count, the clock and the parked jobs, and launchers one after the other when inspection and signalling work |
| LoopTheorems.AnyTableStarts | app/worker_supervisor.py:187-195 | a supervisor can start so on every job table in order |
| Supervisor.Process.constructor | app/worker_supervisor.py:187-195 | the initial state of the loop |
| Supervisor.Process.TerminateLauncher | app/worker_supervisor.py:1192-1215 | equals its specification; recovers and launches nothing, settles the launcher when signals work, and leaves it not running when they kill |
| Supervisor.Process.TerminateWorkerInstance | app/worker_supervisor.py:1149-1167 | equals its specification; recovers and launches nothing, kills no worker but the registered one, and settles the launcher |
| Supervisor.Process.FenceWorker | app/worker_supervisor.py:1058-1092 | the loop over the locked rows equals reconciliation, with its failure modes |
| Supervisor.Process.FenceNoProgress | app/worker_supervisor.py:1032-1055 | the loop over the sightings equals the watchdog fence, with its failure modes |
| Supervisor.Process.RetireRegistration | app/worker_supervisor.py:1095-1110 | equals its specification; the row is left stopping unless it is another registration's by now or the write was rolled back |
| Supervisor.Process.RequeueFenced | app/worker_supervisor.py:1113-1129 | the loop over the rows equals requeueing the listed ids, with its failure modes |
| Supervisor.Process.SuperviseWorker | app/worker_supervisor.py:632-812 | equals the specification call; keeps the ledger, fences, justifications and parked jobs, and launches at most one worker, last |
| Supervisor.Process.SuperviseWeb | app/worker_supervisor.py:226-249 | equals its specification; every launch stays accounted for, and the worker role is left alone |
| Supervisor.Process.ReviewLauncher | app/worker_supervisor.py:251-316 | equals its specification; one charge for exactly the three failures, and nothing is launched |
| Supervisor.Process.StopOwnedWorker | app/worker_supervisor.py:1218-1243 | equals its specification; keeps the ledger, fences, justifications and parked jobs, and launches nothing |
| Supervisor.Process.Iterate | app/worker_supervisor.py:198-371 | equals the specification cycle; keeps every whole-run theorem and the parked jobs |
| Supervisor.Process.Supervise | app/worker_supervisor.py:187-396 | equals the specification run; from an initial state, at its end: single endings, fenced recoveries, justified recycling, actions only under ownership, counted web launches, undisturbed parked jobs, and one launcher after the other |
| Supervisor.StartAndSupervise | app/worker_supervisor.py:187-396 | a new supervisor on any database with the ledger, rows left running included, ends with all of these, whatever its inputs |
| CorpusMatcher.NoMismatch | scripts/certify_sec_guidance_real_corpus.py:149-156 | no mismatched field if and only if the eight normalised cells are equal |
| CorpusMatcher.BestIsMinimal | scripts/certify_sec_guidance_real_corpus.py:159-178 | the chosen candidate has the fewest mismatches among the remaining rows |
| CorpusMatcher.GreedyIsExact | scripts/certify_sec_guidance_real_corpus.py:159-178 | every expected row is matched without mismatch and nothing is left if and only if the bags of rows are equal, whatever the order or tie-breaking |
| CorpusMatcher.MatcherConserves | scripts/certify_sec_guidance_real_corpus.py:159-178 | the matched rows and the rows left over are together exactly the actual rows |
| CorpusMatcher.ChooseBest | scripts/certify_sec_guidance_real_corpus.py:168-175 | the scan over the remaining indexes finds the first best candidate |
| CorpusMatcher.RunMatcher | scripts/certify_sec_guidance_real_corpus.py:159-178 | the loop with its shrinking index list computes the specified matching |
| CorpusScoring.StructuredIsExact | scripts/certify_sec_guidance_real_corpus.py:322-354 | a positive case is structured-correct if and only if the bags of rows are equal and every accepted row has verified evidence |
| CorpusScoring.CasePasses | scripts/certify_sec_guidance_real_corpus.py:355-377 | passed if and only if there is no failure type; for a positive case if and only if its rows agree; for a negative one if and only if it is a true negative |
| CorpusScoring.ScoringConserves | scripts/certify_sec_guidance_real_corpus.py:291-377 | for every corpus: classes per label, one entry per expected row in every row counter, structured correct equals passed positives, severities fill the rest |
| CorpusScoring.ResultsAt | scripts/certify_sec_guidance_real_corpus.py:378-401 | one result per scored case, in order |
| CorpusScoring.CountMatches | scripts/certify_sec_guidance_real_corpus.py:325-350 | the inner loop counts as specified and its flag says that every row is exact |
| CorpusScoring.InspectMatches | scripts/certify_sec_guidance_real_corpus.py:355-359 | the collected fields are exactly the mismatched ones, and the flag says whether evidence is missing |
| CorpusScoring.JudgeCase | scripts/certify_sec_guidance_real_corpus.py:309-377 | the class, failure type and severity computed from these flags are the specified ones |
| CorpusScoring.RunScoring | scripts/certify_sec_guidance_real_corpus.py:300-404 | the scoring loop computes the specified score and results, with the conservation laws |
| CorpusGate.F1Identity | scripts/certify_sec_guidance_real_corpus.py:411-414 | F1 is 2TP/(2TP+FP+FN) under the zero conventions |
| CorpusGate.GatesExactly | scripts/certify_sec_guidance_real_corpus.py:436-458 | the gates over fractions hold if and only if integer inequalities on the counters do |
| CorpusValidation.ValidateCase | scripts/certify_sec_guidance_real_corpus.py:181-212 | no problem if and only if every required key is there, the passage hashes to its own hash, the label is known and the review state belongs to it; each missing key is reported |
| CorpusValidation.ReadCorpus | scripts/certify_sec_guidance_real_corpus.py:281-291 | rejects if and only if some case is not well formed or some positive case has no valid expected row |
| CorpusGate.Certify | scripts/certify_sec_guidance_real_corpus.py:281-487 | rejects exactly then; otherwise reports the specified score and certifies exactly by the integer gates |
| CorpusGate.CertifiedMeans | scripts/certify_sec_guidance_real_corpus.py:35-47 | certified implies 26 true positives, 49 true negatives, at most one false positive, 49 true positives if there is one, and no accepted row on a critical negative passage |
| TopK.Push | output/full_week_audit_analyzer.py:305-307 | heap order and contents after a push; no comparison reaches the record |
| TopK.Replace | output/full_week_audit_analyzer.py:308-309 | heap order and contents after replacing the root, by sinking the new entry to a leaf and raising it; no comparison reaches the record |
| TopK.Offer | output/full_week_audit_analyzer.py:305-315 | after every record the heap keeps min(k, n) records of the stream and has dropped no larger value |
| TopK.StreamingSorts | output/full_week_audit_analyzer.py:465-465 | the values kept by the heap, sorted down, are the head of the whole stream sorted down |
| AuditIndexes.GroupsPartition | output/full_week_audit_analyzer.py:281-302 | the groups of any key add up to the whole log, in calls and in time |
| AuditIndexes.PutIndexes | output/full_week_audit_analyzer.py:288-296 | one more call keeps an index equal to the groups of the log |
| AuditIndexes.IndexTotal | output/full_week_audit_analyzer.py:281-302 | the total over any index is the total over the log |
| AuditRequests.AskedAgrees | output/full_week_audit_analyzer.py:331-343 | a query keeps the pending index equal to the queries since each request's last summary |
| AuditRequests.ClosedAgrees | output/full_week_audit_analyzer.py:359-360 | a summary removes exactly its own request from the pending index |
| AuditRequests.DigestsAddUp | output/full_week_audit_analyzer.py:331-343 | per pending request a fingerprint's calls and time are the sum over its parameter digests |
| AuditRequests.DuplicatesAreRepeated | output/full_week_audit_analyzer.py:359-366 | every exact duplicate has a repeated-query finding of the same request, route and fingerprint with at least as many calls, and as much time when durations are not negative |
| AuditRequests.ListRepeated | output/full_week_audit_analyzer.py:361-363 | exactly the fingerprints called at least twice are listed |
| AuditRequests.ListDuplicates | output/full_week_audit_analyzer.py:364-366 | exactly the digested calls made at least twice are listed |
| AuditScan.FileAgrees | output/full_week_audit_analyzer.py:281-302 | one SQL record keeps the role, hour, commit, fingerprint and day indexes exact |
| AuditScan.List | output/full_week_audit_analyzer.py:278-315 | one SQL record keeps the flat lists and both heaps exact |
| AuditScan.Close | output/full_week_audit_analyzer.py:359-366 | a request summary adds exactly the findings of the request it closes |
| AuditScan.Run | output/full_week_audit_analyzer.py:240-366 | after any lines every index, list, heap and finding agrees with its plain definition over the in-window records |
| AuditScan.IndexesAgree | output/full_week_audit_analyzer.py:261-302 | operations, roles, hours, days, fingerprints and deployments all count every in-window SQL record once and add up to the same time |
| AuditScan.ReportShowsLargest | output/full_week_audit_analyzer.py:465-474 | the reported slowest calls and largest results are the first 30 and 100 of the full lists sorted down |
| Percentile.PercentileRank | output/full_week_audit_analyzer.py:33-38 | at least ceil(f n) values are at most the percentile, fewer are below it, and it is one of the values |
| Percentile.SummaryOrdered | output/full_week_audit_analyzer.py:41-54 | median, p90, p95, p99 and maximum are in order |
| Percentile.TruncationIsCeiling | output/build_full_week_audit_digest.py:14-19 | truncating after adding 0.999999 is the ceiling if and only if the fractional part is not positive and below a millionth |
| Percentile.SamePosition | output/build_full_week_audit_digest.py:14-19 | both reports pick the same position for every length and every fraction in hundredths |
| EstimateLifecycle.ManifestRows | scripts/winner_estimate_lifecycle.py:123-178 | the loop returns the specified rows, and after the migration raises if and only if some stored lifecycle differs |
| EstimateLifecycle.QueriesAgree | scripts/winner_estimate_lifecycle.py:181-203 | the CASE form and the independent queries agree if and only if no estimate references a generation whose joined status is NULL |
| EstimateLifecycle.QueriesPartition | scripts/winner_estimate_lifecycle.py:181-203 | the independent queries never overlap, and cover all ids under the same condition |
| EstimateLifecycle.PlanExactly | scripts/winner_estimate_lifecycle.py:36-73 | a plan is made if and only if the database is stopped, at the old head, holds both audited generations and has only known statuses |
| EstimateLifecycle.MigratedOne | alembic/versions/20260906_0060_winner_estimate_lifecycle.py:41-80 | what the migration gives one estimate: the planned lifecycle unless its generation row is missing, valid timestamps unless that row's status is NULL |
| EstimateLifecycle.VerifySound | scripts/winner_estimate_lifecycle.py:76-120 | a successful verification means every stored lifecycle is the reviewed one and no estimate was added or removed |
| EstimateLifecycle.VerifyExactly | scripts/winner_estimate_lifecycle.py:76-120 | a planned artifact verifies exactly against the stopped migrated databases with the planned content and the planned lifecycles |
| EstimateLifecycle.PlannedMigratesAndVerifies | scripts/winner_estimate_lifecycle.py:36-120 | every database that plans also migrates, and then its artifact verifies |
| EstimateLifecycle.ConstrainedQueriesAgree | alembic/versions/20260819_0049_winner_jobs_reliability.py:211-221 | under the foreign key and the NOT NULL status the two formulations always agree and cover every estimate exactly once |
| EstimateLifecycle.ConstrainedProtocol | app/models/tables.py:3403-3403 | under them the migration always commits with the planned lifecycles, a plan fails only for the head, active jobs or a missing audited generation, and a planned artifact verifies |
| CanonicalOrder.OrderSorts | app/services/canonical_evidence.py:430-438 | the stable order visits the keys sorted |
| CanonicalOrder.ArrangeSorted | app/services/canonical_evidence.py:430-438 | sorting what is sorted moves nothing |
| CanonicalJson.CanonIdempotent | app/services/canonical_evidence.py:27-115 | canonicalizing a canonical form changes nothing, for every value and field |
| CanonicalJson.CanonHeight | app/services/canonical_evidence.py:27-115 | the canonical form is no deeper than the value |
| CanonicalJson.StreamIsCanonical | app/services/canonical_evidence.py:300-394 | the streamed text is the text of the canonical form, and both reject the same values |
| CanonicalJson.FastPathAgrees | app/services/canonical_evidence.py:127-152 | a value recognised as already canonical is accepted, and dumps to the text of its canonical form |
| CanonicalJson.ThreeFormsAgree | app/services/canonical_evidence.py:117-202 | fast path, canonical path and stream give the same text, or all reject |
| ArtifactHash.KeptStored | scripts/winner_estimate_lifecycle.py:278-284 | dropping the unhashed entries commutes with canonicalization |
| ArtifactHash.ReloadedHash | scripts/winner_estimate_lifecycle.py:278-295 | a payload hashes to the same bytes before writing and after reading back |
| ArtifactHash.PlannedArtifactRehashes | scripts/winner_estimate_lifecycle.py:68-70 | a planned artifact, written and read back, re-hashes to its own hash entry |
| CertificationVerdict.CertifiedExactly | scripts/production_runtime_certification.py:459-480 | CERTIFIED, and exit code zero, if and only if there are no reasons or failures, exit zero, the exact tests selected, collected and executed, and one CERTIFIED certificate each |
| CertificationVerdict.Finalize | scripts/production_runtime_certification.py:372-402 | the loop reports no reason if and only if every contract finalizes, and then lists its certificates in order |
| CertificationVerdict.RunExact | scripts/production_runtime_certification.py:287-436 | the deterministic runner certifies if and only if the whole chain is clean, and its gates never say PASS |
| CertificationVerdict.MatchingReport | scripts/production_runtime_certification.py:988-1009 | returns an acceptable stored report, and none if and only if there is none |
| CertificationVerdict.RuntimePasses | scripts/production_runtime_certification.py:717-729 | true if and only if there is evidence and every report passed with a nonempty list of failure-free samples |
| CertificationVerdict.RunLive | scripts/production_runtime_certification.py:797-896 | safe, and exit code zero, if and only if the providers are ready, an acceptable same-fingerprint report exists, and the live run is clean and nonempty |
| CertificationVerdict.OwnReportsNeverPromote | scripts/production_runtime_certification.py:423-428 | no report that either runner writes meets the live prerequisite |
| CertificationVerdict.Aggregate | scripts/qa/release_evidence.py:922-1003 | CERTIFIED if and only if every required job succeeded and every lane is certified; a core plan leaves the full release NOT_RUN; the report meets the live prerequisite if and only if the plan is not a core plan, all this is clean, and the exact-pipeline lane is among the lanes |
| CertificationVerdict.CertifyThenGoLive | scripts/production_runtime_certification.py:797-896 | a live run after a deterministic run is safe if and only if its own checks pass and an earlier report of neither runner meets the prerequisite |
| CertificationVerdict.AggregateThenGoLive | scripts/production_runtime_certification.py:185-196 | a live run after an aggregate is safe if and only if its own checks pass and the aggregate is clean with its exact-pipeline lane under a plan that is not a core plan, or an earlier report meets the prerequisite |
| ForwardPath.ShortPathOutcomes | scripts/run_technical_v5_forensic_recalibration.py:897-922 | the loop over the horizons fills every horizon with its specified outcome |
| ForwardPath.ExcursionsWiden | scripts/run_technical_v5_forensic_recalibration.py:897-922 | availability is downward closed, MFE never falls, MAE never rises, and the time to MFE changes exactly when MFE does and then exceeds the shorter horizon |
| ForwardPath.TimeIsFirstMaximum | scripts/run_technical_v5_forensic_recalibration.py:917-917 | the time to MFE is the first bar that reaches it |
| ForwardPath.ReturnsWithinExcursions | scripts/run_technical_v5_forensic_recalibration.py:897-922 | with consistent bars every shorter horizon's return lies between MAE and MFE |
| LogSplitter.RunFile | output/parse_auto_explain_logs.py:69-78 | the loop over one file computes the specified blocks |
| LogSplitter.Run | output/parse_auto_explain_logs.py:69-78 | the blocks are those of the files one after the other; none spans two files |
| LogSplitter.SplitIsLossless | output/parse_auto_explain_logs.py:69-78 | the blocks of a file concatenate to its lines; the first has no header, every later one starts with its only header |
| LogSplitter.SplitIsUnique | output/parse_auto_explain_logs.py:69-78 | that shape determines the blocks |
| LogSplitter.PlansAreKept | output/parse_auto_explain_logs.py:23-33 | every plan header within the date window starts exactly one record, and nothing else does |

## Left out

- AuditRequests.ListRepeated: the order of the findings and the caller text of each are not modelled, nor is the final truncation to 1000 entries.
- Process spawning, signals, `taskkill`, sockets, metrics, state files and logging: only the abstract actions are kept on the timeline.
- Process ids are never reused, there is one host, and an exited process counts as not alive.
- The lengths of the loop's waits and backoffs: at every place where the code waits, any time may pass.
- `main` polls a child several times in one review; the model samples it once per review.
- The per-stage progress timeouts of the watchdog: each sighting carries its own deadline.
- The effects of fencing on pipeline-step rows, and the certification session scope beyond a set of authorised ids.
- Which jobs `recover_stale_jobs` and `recover_abandoned` select: the model lets a worker's recovery take back any running row it has read. Its settling of a pending cancellation is the owner's own settlement.
- JobTable.ReclaimKeeps: of the columns `_recover_jobs` writes, only the instance is kept when it was already empty on the read; clearing the others is modelled as unconditional.
- Mutual exclusion of two supervisors: the ownership check is an input.
- Text normalisation of corpus rows (`_normalize`): rows are compared by their normalised cells.
- Floating-point rounding, single-precision storage, NaN and `round`: durations, prices and rates are exact reals.
- Regular expressions, date parsing, time zones and the JSON grammar: their verdicts are inputs; decoding is lossless and SHA-256 injective.
- JSON string escaping and lower-casing of field names in the canonical serializer, and its caches of precomputed subtrees.
- The analyzer's per-table, per-route, per-job and health indexes, which repeat the pattern of the modelled ones.
- `app/settings.py`, `app/security.py`, `app/database_safety.py`, `scripts/check_architecture_registry.py`, profilers, broker and SEC clients, report writers and web wiring.
