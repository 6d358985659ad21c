# Anchora: a verified model

Anchora runs workflows made of dependent agent calls, either in one request or as
durable jobs shared by a pool of workers. This project models its two cores and proves
what they promise.

**The workflow engine.** `Workflows` holds the definitions, their validation and the
Kahn-style cycle test; `Graphs` the facts about paths, cycles and topological orders they
rest on; `Prompts` the placeholder scanner and the rendering; `Semantics` what a run
means, independently of scheduling: a set of equations, one per step, with the wave of
each step and the exact reach of skips and references. `Executions` is the wave executor
over its mutable `remaining` and `results` maps, proved to solve those equations for any
map iteration order and any completion order inside a wave. `Resumption` says when
starting from recorded successes changes nothing.

**The job protocol.** `Stores` and `Queues` are the PostgreSQL statements and the Redis
scripts, each one atomic step; `QueueHistories` says what any sequence of scripts keeps.
`Sessions` cuts the job service into the steps a worker takes between two calls, and
`Protocol` interleaves any number of workers, submitters and reapers, with crashes between
any two steps. `Services` has the methods of the job service as they read in the source,
with an outcome for every call; `Solo` shows that each of them is the corresponding
sequence of session steps taken alone, and `WaveActs` the same of a run of the wave
executor. `Fencing` proves that every step keeps the invariant, by a guarantee each
session gives to the others; `Safety`, `Delivery`, `Timing` and `Transparency` draw the
conclusions for all runs, and `Endings` says what becomes of a job whose run does not
stand. `Scenarios` constructs runs that do happen: a takeover, a duplicate delivery that
stops a healthy worker, and an ack that loses a job. `Transparency` joins the two cores: a
job that survives crashes stores exactly the results of one uninterrupted run of its
workflow.

## Conventions

- An environment gives the reply to call number k of a step and whether the run is found
  cancelled while backing off before call k. One run makes each call at most once, so this
  covers every behaviour of the agents in that run; only the statements that compare two
  runs take the agents to be deterministic.
- Each SQL statement and each Lua script is one atomic step, and a call that returns an
  error is taken to have had no effect. The database clock never goes backwards; queue
  times are arbitrary, so worker clocks may be skewed. Leases are whole milliseconds.
- Worker ids are unique and not empty, and a worker runs one session at a time.
- Sessions may start any ready step and skip any blocked step at any time. This includes
  every schedule of the wave executor (`WaveActs.RunIsActs`), and more; the
  statements hold for all of them.
- The job history in `Sessions.Job` (who made each delivery, how often each delivery
  called each agent, how the job was finished) is bookkeeping for the statements; no step
  depends on it.

## Where the code differs from its documentation

- `WorkflowError` says that it wraps the step's error (`internal/workflow/workflow.go:328-329`),
  but it wraps a new error with the same text (`internal/workflow/workflow.go:186`). The
  model carries the text only. A refused step claim is therefore classified by the lease
  fence alone, as the model has it.
- Retrying is documented as visible through `OnStepState`
  (`internal/workflow/workflow.go:22-24`) and the callback as called for every step that
  reaches a terminal state (`internal/workflow/workflow.go:67-69`). It is called only for
  executed steps, once, with the final result; skipped and resumed steps are not reported.
- `ClaimStep` documents a refusal because the step already succeeded
  (`internal/jobs/store.go:285-287`). Inside an owning session this cannot happen
  (`Safety.RefusalMeansLeaseLost`).
- A duplicate delivery is described as a no-op (`internal/jobs/store.go:183-186`). The
  store ignores it, but in the queue it takes the lease away from the healthy owner, whose
  next heartbeat then stops the run (`Scenarios.DuplicateStopsHealthyOwner`; exactly when
  a heartbeat does so is `Scenarios.AlarmIsTheQueues`).
- Abandoning after such an alarm leaves the job alone because somebody else already owns
  it (`internal/jobs/jobs.go:553`). Here nobody does: the worker itself still owns the row
  (`Scenarios.AlarmedRunKeepsTheJob`), so no one else can take the job before its lease
  runs out (`Timing.OwnedUntilDeadline`).
- A pending job can end up known to the store only; then no reaper and no worker ever sees
  it again (`Delivery.ForgottenForEver`). It happens in exactly these ways
  (`Delivery.ForgottenExactly`, and over whole runs `Delivery.LostExactly`): the
  `job.queued` event cannot be recorded; the push of a new job fails and the attempt to
  fail the job, whose outcome is discarded, fails as well; the re-enqueue of a job that the
  store reaper freed fails while nobody else has the job, for the next sweep looks at
  running jobs only; or the last session on the job crashes or ends without requeueing it,
  while the job is neither ready nor to be pushed and either the queue has no lease of it
  or the session's ack takes that lease away. The last way needs no failed claim, push or
  requeue: an ack does not ask whose lease it removes, so the ack of an old duplicate can
  remove the only trace of a job whose next worker has crashed
  (`Scenarios.AckAfterCrashForgets`).
- The README advises a lease longer than the slowest step. Heartbeats run beside the step,
  so ownership does not depend on how long a step takes (`Timing.RenewalsKeepOwnership`).
- Prompts may refer to steps that are not dependencies. Such a reference resolves against
  the waves that happen to be finished, and it is what breaks resuming: from arbitrary
  recorded successes unless every reference is to a direct dependency
  (`Resumption.TransparentIffDirect`), from dependency-closed ones unless every reference
  is to a step upstream (`Resumption.ClosedTransparentIffUpstream`).

## Model

| member | source | states |
|---|---|---|
| `Workflows.HasCycle` | internal/workflow/workflow.go:275-303 | Returns false iff a topological order exists, and true iff some non-empty dependency path returns to its start; for any order in which the maps are walked |
| `Workflows.CountDependencies` | internal/workflow/workflow.go:276-283 | The two tables of Kahn's algorithm: each step's number of dependencies, and for every id its dependants, each once |
| `Workflows.Drain` | internal/workflow/workflow.go:290-301 | The worklist loop visits as many ids as there are steps iff the graph can be sorted topologically |
| `Graphs.MaximalLayering` | internal/workflow/workflow.go:302 | An order that cannot be extended covers the whole graph iff the graph is acyclic, and acyclic means no dependency path returns to its start |
| `Workflows.NewWorkflow` | internal/workflow/workflow.go:87-123 | Accepts exactly the well-formed DAGs with non-negative options, unchanged; a rejection names the first defect in the order of the checks |
| `Workflows.WellFormedMeans` | internal/workflow/workflow.go:94-118 | Cycles aside, a definition is accepted iff it has a step, every step has an id of its own, a prompt and an agent, and its dependencies are other declared steps, each listed once |
| `Workflows.CheckDependencies` | internal/workflow/workflow.go:104-118 | Finds a bad dependency iff there is one, and says which kind and where |
| `Prompts.MatchAtExact` | internal/workflow/workflow.go:305-307 | The scanner matches at a position iff a well-formed placeholder stands there, and then with that id and no other |
| `Prompts.UnparseParse` | internal/workflow/workflow.go:313-321 | Splitting a prompt into text and references loses nothing: printing the pieces gives the prompt back |
| `Prompts.ReferencesExact` | internal/workflow/workflow.go:305-314 | A prompt refers to exactly the ids whose placeholder occurs in it; no placeholder hides inside another |
| `Prompts.RenderPrompt` | internal/workflow/workflow.go:311-326 | One pass that substitutes outputs, or complains about the last reference without a usable output |
| `Prompts.RenderWeaves` | internal/workflow/workflow.go:311-326 | A prompt made of texts with placeholders in between renders to the same texts with the outputs in their places, trimmed, and outputs are not scanned again; if outputs are missing, the error names the reference that comes last among those without one |
| `Prompts.EveryPromptWoven` | internal/workflow/workflow.go:305-314 | Every prompt is of that form |
| `Prompts.IdChars` | internal/workflow/workflow.go:305-307 | The characters that ids in placeholders consist of, one by one |
| `Prompts.RenderSucceeds` | internal/workflow/workflow.go:315-324 | Rendering succeeds iff every referenced step has succeeded |
| `Prompts.PlainPrompt` | internal/workflow/workflow.go:311-325 | A prompt without references is passed on unchanged but for trimming |
| `Prompts.TrimMeans` | internal/workflow/workflow.go:325 | Trimming cuts exactly the white space off both ends |
| `Prompts.Spaces` | internal/workflow/workflow.go:325 | The characters that count as white space, one by one |
| `Prompts.RenderAgrees` | internal/workflow/workflow.go:313-321 | A rendered prompt depends only on the outputs of the steps it refers to |
| `Semantics.AttemptOutcome` | internal/workflow/workflow.go:230-253 | A step result says what happened: all earlier calls failed and were retried, and the last call answered, or exhausted the retries, or the back-off was interrupted |
| `Semantics.SolutionUnique` | internal/workflow/workflow.go:131-193 | The equations that define a run's results have at most one solution |
| `Resumption.SolutionExists` | internal/workflow/workflow.go:131-193 | They always have one, for any accepted workflow, resume entries and agents |
| `Semantics.ReferencesDecide` | internal/workflow/workflow.go:147-174 | A reference from s to u, declared or not, resolves iff u succeeded in an earlier wave; a ready step reaches its agent iff all its references resolve, and otherwise fails without a call |
| `Semantics.SkipCharacterised` | internal/workflow/workflow.go:212-226 | A step ends skipped iff it was not resumed and a dependency path through skipped steps reaches a failed one; and then with no output, no retries and the fixed reason |
| `Semantics.SkippedIffUpstreamFailed` | internal/workflow/workflow.go:209-226 | Without resume: skipped iff some step upstream failed |
| `Semantics.DepthIsLongestPath` | internal/workflow/workflow.go:197-207 | Without resume, the wave of a step is the length of the longest dependency path that starts at it |
| `Executions.RunStep` | internal/workflow/workflow.go:230-253 | Result, number of agent calls (retries plus one, or exactly the retries when interrupted) and total back-off (delay times a(a+1)/2) |
| `Executions.NeverStalls` | internal/workflow/workflow.go:147-151 | While steps remain between waves, some remaining step is ready |
| `Executions.ReadyIsNextWave` | internal/workflow/workflow.go:197-207 | Between waves, a remaining step is ready iff its depth is that of the next wave |
| `Executions.NoErrorMeansSuccess` | internal/workflow/workflow.go:177-192 | No failed result means that every result is a success |
| `Executions.Execution.Run` | internal/workflow/workflow.go:131-193 | The results solve the workflow's equations; nothing remains; results come back in declaration order; the error is absent iff all succeeded and otherwise names the first failure; reports come once per executed step, in the wave of its depth; agents are called for exactly the steps that were neither resumed nor skipped and whose prompt renders against the waves before their own, and each exactly as often as its result says; and it got there by turns of the wave loop from the resumed results on |
| `Executions.Execution.NextWave` | internal/workflow/workflow.go:147-176 | One turn of the wave loop: it runs exactly the ready steps against the results before the wave, then skips what is blocked; it always makes progress, so the break with steps left over is unreachable |
| `WaveActs.NextWaveIsActs` | internal/workflow/workflow.go:147-176 | Such a turn, in whatever completion order, is a sequence of acts of a session that owns the job: it reaches the same results, and the steps land in the order in which they were reported |
| `WaveActs.RunIsActs` | internal/jobs/jobs.go:492-545 | A whole run of the engine, from loading the job to its return, is a sequence of acts of a session that owns the job: it resumes the recorded successes, steps land in the order in which Run reports them, and its results go on to be recorded unless it was stopped, which without a cancelled back-off its own acts never do |
| `Executions.Execution.ReadyWave` | internal/workflow/workflow.go:197-207 | Moves exactly the steps whose dependencies all succeeded out of the remaining ones, listed in id order |
| `Basics.LessMeans` | internal/workflow/workflow.go:205 | The order of ids within a wave: the first difference decides, and a proper prefix comes first |
| `Executions.Execution.SkipBlocked` | internal/workflow/workflow.go:212-226 | Skips only steps with a finished, unsuccessful dependency, and leaves no such step behind |
| `Executions.Execution.RunWave` | internal/workflow/workflow.go:152-174 | All prompts are rendered against the results before the wave; steps complete and are reported in any order, each once |
| `Executions.ScheduleIndependence` | internal/workflow/workflow.go:159-175 | Two runs with the same agents return the same results and the same error, whatever the map and completion orders |
| `Executions.DependenciesReportFirst` | internal/workflow/workflow.go:168-175 | A step is reported after everything it depends on |
| `Executions.DependenciesSucceeded` | internal/workflow/workflow.go:255-262 | True iff every dependency has a succeeded result |
| `Executions.HasFailedDependency` | internal/workflow/workflow.go:264-271 | True iff some dependency has finished without success |
| `Executions.CollectOrdered` | internal/workflow/workflow.go:177-192 | Declaration order, and the first failed step if any |
| `Executions.SeedResults` | internal/workflow/workflow.go:136-146 | The first succeeded entry of each known step is taken over and leaves the remaining steps; all other entries are ignored |
| `Semantics.FirstEntrySeeds` | internal/workflow/workflow.go:136-146 | Of several succeeded entries of a known step the first one counts |
| `Resumption.ResumePreserves` | internal/workflow/workflow.go:136-146 | A resumed run returns the results of the fresh run for any set of recorded successes, closed under dependencies or not, if every reference of a step to be re-run lies in an earlier wave of both runs |
| `Resumption.TransparentIffDirect` | internal/workflow/workflow.go:70-73 | For workflows whose prompts a fresh run can render: resuming any recorded successes changes no result, for all agents, iff prompts refer to direct dependencies only |
| `Resumption.IndirectReferenceBreaks` | internal/workflow/workflow.go:311-326 | For any reference to a step that is not a direct dependency, recorded successes that make the resumed step fail where the fresh one succeeded |
| `Resumption.ClosedResumePreserves` | internal/workflow/workflow.go:136-146 | With a dependency-closed set of successes, references may reach anything upstream |
| `Resumption.ClosedTransparentIffUpstream` | internal/workflow/workflow.go:70-73 | For workflows whose prompts a fresh run can render: resuming any dependency-closed set of recorded successes changes no result, for all agents, iff prompts refer to steps upstream only |
| `Resumption.SidewaysReferenceBreaks` | internal/workflow/workflow.go:311-326 | For any reference to a step that is not upstream, a dependency-closed set of recorded successes, all that is upstream of the referring step, with which it fails where the fresh run succeeded |
| `Resumption.DirectIsUpstream` | internal/workflow/workflow.go:70-73 | References to direct dependencies are upstream, so they meet the weaker of the two conditions as well |
| `Resumption.SuccessesAreClosed` | internal/workflow/workflow.go:255-262 | The successes of one run are dependency-closed |
| `Resumption.ResumedRunAgrees` | internal/workflow/workflow.go:136-176 | The same for the Resume option itself: entries taken from a fresh run, in any number and order, leave the returned results as they were |
| `Resumption.PartialRunAgrees` | internal/workflow/workflow.go:147-176 | If prompts refer to direct dependencies only, from any part of the fresh results, and otherwise from any dependency-closed part: a ready step comes to its fresh result and a blocked one is skipped there too |
| `Queues.RangeByScore` | internal/jobs/queue.go:89 | The soonest entries not after the given score, by score and then id, up to the limit |
| `Queues.ExpiredUnique` | internal/jobs/queue.go:89 | That listing is determined by the lease set |
| `Queues.Queue.Push` | internal/jobs/queue.go:54-59 | Enters the id at the far end of the ready list, and changes nothing else |
| `Queues.Queue.Claim` | internal/jobs/queue.go:45-51 | Takes the id that has been ready longest, with lease and owner, or nothing |
| `Queues.Queue.Extend` | internal/jobs/queue.go:80-85 | Moves the deadline iff this worker is the recorded owner and the lease exists |
| `Queues.Queue.Ack` | internal/jobs/queue.go:62-66 | Drops lease and owner, whoever asks |
| `Queues.Queue.Requeue` | internal/jobs/queue.go:69-76 | Drops lease and owner and makes the id ready, whoever asks |
| `Queues.Queue.Reclaim` | internal/jobs/queue.go:88-100 | Returns and moves, one by one, the soonest expired ids: at most the limit, or 100 without one, and all of them if there are fewer; leases and owners go, and the soonest is the next to be claimed among them |
| `QueueHistories.LeasedMeansOwned` | internal/jobs/queue.go:43-100 | After any scripts the lease set and the owner hash have the same keys |
| `QueueHistories.ExtendableIffLatestClaim` | internal/jobs/queue.go:80-85 | A worker can extend iff it made the latest claim of the id and nobody acked, requeued or reclaimed it since |
| `QueueHistories.DeadlineIsLatest` | internal/jobs/queue.go:43-100 | An id is leased iff a claim or renewal of it still stands, and its deadline is the one that the latest of these was given, where only the latest claim's worker renews |
| `QueueHistories.RenewedIsNotReclaimed` | internal/jobs/queue.go:80-100 | A reclaim before that deadline does not return the id and leaves its lease as it is |
| `QueueHistories.OnlyAckRemoves` | internal/jobs/queue.go:61-66 | No other script makes a present id absent |
| `QueueHistories.TotalChanges` | internal/jobs/queue.go:43-100 | Ready plus leased changes exactly by pushes, requeues of unleased ids, acks of leased ids and merged duplicate claims |
| `QueueHistories.ReclaimedComeInDeadlineOrder` | internal/jobs/queue.go:88-100 | After a reclaim, claims take first what was ready before and then the reclaimed ids in deadline order |
| `QueueHistories.DuplicateDropBreaksLease` | internal/jobs/jobs.go:398-403 | In the queue alone: claiming a duplicate overwrites the owner of an earlier claim, and dropping it acks the job for everybody |
| `Stores.Store.Create` | internal/jobs/store.go:120-141 | All rows or none; fails iff the job id exists or a step id repeats |
| `Stores.Store.Get` | internal/jobs/store.go:145-181 | The job with its results in declaration order, or nothing |
| `Stores.Store.ClaimJob` | internal/jobs/store.go:187-207 | Takes an unfinished job that is free, ours or expired, counts the delivery and returns its number; refuses any other |
| `Stores.Store.ExtendLease` | internal/jobs/store.go:211-220 | Renews iff this worker owns the running job, expired or not |
| `Stores.Store.FinishJob` | internal/jobs/store.go:225-234 | Ends the job iff the owner matches; an empty owner matches an unowned job |
| `Stores.Store.ReleaseJob` | internal/jobs/store.go:237-243 | Returns the owner's running job to pending |
| `Stores.Store.ReclaimExpiredJobs` | internal/jobs/store.go:253-283 | Frees running jobs expired for the grace period, longest expired first: at most the limit, or 100 without one, and all of them if there are fewer; other jobs and everything else in a row stay as they were |
| `Stores.Store.ClaimStep` | internal/jobs/store.go:288-298 | Granted iff this worker owns the job and the step has not succeeded; then the step is running, with its id, retries, output and error as before, and every other step, the owner, the lease and the delivery count are as they were |
| `Stores.Store.UpdateStep` | internal/jobs/store.go:302-311 | Overwrites the step row iff the owner matches, whatever the row holds |
| `Services.Service.Check` | internal/jobs/jobs.go:224-230 | Unknown agents first, then exactly the definitions NewWorkflow rejects |
| `Services.Service.Submit` | internal/jobs/jobs.go:223-252 | Which error comes back, as an iff for each, given how the event append, the push and the failing of the job end; and what store and queue hold after each |
| `Services.SubmitIsEvents` | internal/jobs/jobs.go:223-252 | What a submission does to store and queue is what the submission events of the cluster do, in any state of any run |
| `Services.Service.TakeDelivery` | internal/jobs/jobs.go:389-409 | A failed claim leaves everything as it was; a duplicate, or an id without a row, is dropped and acked; a delivery past the limit is acked even if failing the job returns an error; any other is ours. Row, queue and next phase are those of the corresponding session acts taken alone |
| `Solo.DeliveryAlone` | internal/jobs/jobs.go:389-409 | The session acts of the opening of process, uninterrupted, and what they come to for every outcome of their calls |
| `Sessions.DecimalReads` | internal/jobs/jobs.go:567 | The delivery limit is printed as a decimal number without leading zeros |
| `Solo.AloneIsAnEvent` | internal/jobs/jobs.go:389-563 | Each such act is an event of the cluster and changes nothing else there |
| `Scenarios.AloneIsARun` | internal/jobs/jobs.go:389-563 | Any sequence of such acts continues any run of the cluster, changing the session, its job and the queue as it does alone, and nothing else |
| `Services.Service.Beat` | internal/jobs/jobs.go:467-485 | A store error skips the queue call, a queue error the verdict; otherwise the lease counts as lost unless both sides still hold it. The same as the session acts of a beat |
| `Solo.BeatAlone` | internal/jobs/jobs.go:467-485 | The session acts of one beat, uninterrupted: who renews what, and when the run is stopped |
| `Services.Service.RunFenced` | internal/jobs/jobs.go:606-616 | The agent is called iff the step claim takes effect; a refusal trips the fence, an error does not. The same as the session acts of the call |
| `Solo.FencedCallAlone` | internal/jobs/jobs.go:606-616 | The session acts of a fenced call, uninterrupted: the flight goes on with the reply that the fenced agent gives |
| `Services.Service.Conclude` | internal/jobs/jobs.go:428-455 | Held iff the finish goes through and this worker owns the job; then the results whose writes went through are in the rows, the job has ended and the delivery is acked; without ownership nothing changes. The same as the session acts, the ack included |
| `Solo.ConcludeAlone` | internal/jobs/jobs.go:428-455 | The session acts that record, finish, log and ack, uninterrupted: row, queue and end of the session |
| `Services.Service.AbandonJob` | internal/jobs/jobs.go:549-563 | A lost job is left alone; any other is released and requeued, unless the release returns an error. The same as the session acts |
| `Solo.AbandonAlone` | internal/jobs/jobs.go:549-563 | The session acts of abandon, uninterrupted |
| `Services.Service.Reap` | internal/jobs/jobs.go:350-379 | Both sweeps, each of which may fail, and each up to the batch size or 100; every job freed from the store ends up pending, and in the ready list unless its push failed; the order in which all of them become ready |
| `Services.ReapIsEvents` | internal/jobs/jobs.go:350-379 | What a reaper turn does to store and queue is what the sweep and push events of the cluster do, in any state of any run |
| `Services.WrittenMeans` | internal/jobs/jobs.go:433-437 | With ownership a row is the listed result where its write went through, and what it was otherwise |
| `Services.ResumeSeeds` | internal/jobs/jobs.go:618-628 | The succeeded rows, as Resume entries, seed the engine with exactly those rows |
| `Services.SucceededResults` | internal/jobs/jobs.go:620-628 | Keeps exactly the succeeded results |
| `Fencing.PerformIsFair` | internal/jobs/jobs.go:389-616 | Every act of a session keeps the job's and its own invariant and stays within the guarantee towards other workers |
| `Fencing.Undisturbed` | internal/jobs/store.go:15-23 | Nothing within that guarantee disturbs the session of another worker |
| `Fencing.NoFailureNoSkip` | internal/workflow/workflow.go:177-192 | Among justified results, no failure means no skip, whatever order the steps ran in |
| `Fencing.StepRefused` | internal/jobs/jobs.go:505-511 | In a session that owns the job a step claim is never refused |
| `Protocol.StepKeepsSound` | internal/jobs/jobs.go:307-455 | Every event of the cluster keeps the invariant |
| `Protocol.RunsAreSound` | internal/jobs/jobs.go:1-16 | Every reachable state satisfies it |
| `Safety.FencingToken` | internal/jobs/store.go:187-311 | Whenever the store lets a session's statement through, also one that leaves the row as it is, such as the step claim of a retry, the worker owns the job and its delivery count is still the number the session's own claim returned; a statement that is not let through changes nothing |
| `Safety.OwnershipIsContiguous` | internal/jobs/store.go:187-243 | Ownership lost within a delivery is not regained in it |
| `Safety.SuccessIsPermanent` | internal/jobs/store.go:300-311 | A succeeded step row never changes again, although its update has no such guard |
| `Safety.TerminalAbsorbs` | internal/jobs/store.go:187-283 | A finished job's row and step rows never change again |
| `Safety.EndingsAreExclusive` | internal/jobs/jobs.go:442-454 | Running iff owned iff leased; completed is logged at most once and never together with dead-lettered; how every finished job ended |
| `Safety.SucceededMeansEveryStep` | internal/jobs/jobs.go:428-454 | A succeeded job was finished by a run whose steps all succeeded, and its rows are that run's results unless a step write failed |
| `Safety.RefusalMeansLeaseLost` | internal/jobs/jobs.go:606-613 | When the fenced agent is refused, the worker no longer owns the job |
| `Endings.RefusedRunLeavesTheJob` | internal/jobs/jobs.go:541-555 | Over all runs: a session that was refused a step, unless it is shut down, never records, finishes, acks, releases or requeues; it returns as lost, is abandoned, and leaves row and queue as they are |
| `Endings.AlarmedRunLeavesTheJob` | internal/jobs/jobs.go:535-555 | The same from the moment when a heartbeat has cancelled the run as having lost its lease |
| `Endings.ShutDownHandsBack` | internal/jobs/jobs.go:538-563 | A run that returns after a shutdown, refused a step or not, gives the job back: the row that the worker still owns becomes pending and free, and the job ready |
| `Endings.UnrunnableFails` | internal/jobs/jobs.go:500-503 | A job whose definition its owner cannot run fails for good with that message, its step rows untouched |
| `Safety.CallsAreMarked` | internal/jobs/store.go:288-298 | In every reachable state: while a worker owns a job and calls the agent of a step, the row of that step says running |
| `Safety.ExecutionBudget` | internal/jobs/jobs.go:404-408 | Over a whole run, with a limit L, a step's agent is called at most L*(retries+1) times, by deliveries 1 to L |
| `Safety.CallsAreCounted` | internal/jobs/jobs.go:606-616 | The job's history of calls is the number of step claims in the run that went through |
| `Safety.DeliveriesAreDistinct` | internal/jobs/store.go:187-207 | At no moment do two sessions run steps under the same delivery, and none beyond the limit |
| `Safety.DeliveriesAreNumbered` | internal/jobs/jobs.go:404-408 | Over a whole run, the claims of a job after which it is run carry growing delivery numbers from 1 on, none beyond the limit |
| `Safety.DeliveryBudget` | internal/jobs/jobs.go:404-408 | Over a whole run, with a limit L at most L claims of a job lead to running it |
| `Scenarios.TakeoverHappens` | internal/jobs/backend_integration_test.go:349-408 | For every valid definition and any two workers there is a run in which one claims the job and dies, and the other takes it over as its second delivery |
| `Scenarios.DuplicateStopsHealthyOwner` | internal/jobs/jobs.go:397-402 | For every valid definition and any three workers there is a run, with one crash and no failed call, in which the store reaper pushes a job that is running again, the duplicate is refused and acked, and the owner cancels its run as having lost a lease that it holds in full |
| `Scenarios.AlarmIsTheQueues` | internal/jobs/jobs.go:475-484 | After a renewal that the store granted, a beat stops the run iff the queue no longer has the worker's lease; the worker goes on owning the job |
| `Scenarios.AlarmedRunKeepsTheJob` | internal/jobs/jobs.go:549-555 | A run that ends after such an alarm is abandoned without a release: the session ends with the row unchanged, still naming the worker |
| `Delivery.NoJobIsLost` | internal/jobs/jobs.go:242-250 | If hand-over calls neither fail nor crash, every pending job is ready, being submitted, being re-enqueued, or in the hand of a worker |
| `Delivery.RunningIsRecoverable` | internal/jobs/store.go:257-269 | A running job always carries a deadline, and is overdue exactly from one grace period after it |
| `Delivery.SubmissionForgotten` | internal/jobs/jobs.go:242-250 | A submission leaves a job that only the store knows iff its event append fails, or its push fails and failing the job fails too |
| `Delivery.DroppedOrphanForgotten` | internal/jobs/jobs.go:371-375 | A freed job whose re-enqueue fails is known to the store only iff no other push of it is due, it is neither ready nor leased in the queue, and no session has it |
| `Delivery.ForgottenExactly` | internal/jobs/jobs.go:242-563 | For every event: a job is pending and known to the store only afterwards iff it was before or the event loses it, and whether it does reads off the state before |
| `Delivery.LostExactly` | internal/jobs/jobs.go:242-563 | Over a whole run: a job is pending and known to the store only iff some event before lost it |
| `Delivery.WorkForgetsExactly` | internal/jobs/jobs.go:389-563 | A worker loses a pending job iff its act ends the only session on it without a requeue, nobody is to push it, it is not ready, and the queue has no lease of it or the act acks that lease away |
| `Delivery.LastActEnds` | internal/jobs/jobs.go:389-563 | The acts that end a session: a failed claim, an ack, a finish that fails or is not held, leaving a lost job alone, a failed release, a requeue |
| `Scenarios.AckAfterCrashForgets` | internal/jobs/jobs.go:397-402 | For every valid definition there is a run that loses the job by an ack and nothing before it: a duplicate is refused, its owner hands the job back, the next worker dies before claiming it, and the ack of the old duplicate drops the lease that was left |
| `Delivery.ForgottenStaysForgotten` | internal/jobs/jobs.go:245-250 | No event changes such a job or brings it back |
| `Delivery.ForgottenForEver` | internal/jobs/jobs.go:245-250 | In every continuation of a run such a job stays pending, untouched and unknown to queue and workers |
| `Timing.OwnedUntilDeadline` | internal/jobs/store.go:187-220 | Before the deadline seen at some moment only the owner's own ending can end its ownership |
| `Timing.RenewalsKeepOwnership` | internal/jobs/jobs.go:459-487 | Store heartbeats less than one lease apart keep ownership throughout, however long a step takes |
| `Timing.DeadlineWithinLease` | internal/jobs/store.go:211-220 | No deadline lies further ahead than one lease |
| `Timing.HeartbeatShorterThanLease` | internal/jobs/jobs.go:174-193 | A configured lease is used, and 30 seconds otherwise; a heartbeat below the lease is used as configured, and a third of the lease otherwise; it is always shorter than the lease, and positive except for leases of one or two nanoseconds without an explicit heartbeat |
| `Timing.IsolatedFailureTolerated` | internal/jobs/jobs.go:188-193 | With a heartbeat of at most a third of the lease and delays below one heartbeat, successful renewals around an isolated failed one are less than one lease apart |
| `Timing.HeartbeatKeepsOwnership` | internal/jobs/jobs.go:459-487 | Over any run: a worker that attempts a renewal on each beat of such a configured heartbeat, with isolated failures only, owns the job at every moment up to its latest successful renewal |
| `Transparency.CrashTransparency` | internal/jobs/jobs.go:492-545 | Whatever crashes, shutdowns, lost leases, failed claims under a cancelled context, takeovers and redeliveries happen, a job finished within its limit has stored exactly the results, status and error of one uninterrupted run |
| `Transparency.PerformFollows` | internal/jobs/jobs.go:492-628 | Every act of an owning session keeps to the uninterrupted run, also once the session is being interrupted and its results will be discarded |
| `Transparency.ReadyFollows` | internal/jobs/jobs.go:513-524 | A step that becomes ready in any part of any delivery has its uninterrupted result ahead of it |

## Left out

- The HTTP router, request decoding and event streaming: input and output without further logic.
- The model-provider adapter: agents are an arbitrary function of step, prompt and call number.
- Configuration files, environment variables and process wiring: only the lease, heartbeat, delivery limit and retry settings matter here.
- The worker registry, its pruning, statistics, logging, random ids and the claim loop's back-off: bookkeeping without influence on jobs.
- The notify list and blocking pop of the queue: wakeups are hints, and a claim takes an id or nothing.
- Isolation levels, row locking (`SKIP LOCKED`) and ambiguous network failures: statements and scripts are atomic, and a failed call has no effect.
- Events other than `job.queued`, whose failed append aborts a submission, and `job.completed` and `job.dead_lettered`; and timestamps of jobs and steps: they are advisory and nothing depends on them. The step row's own owner column is written but never read.
- Goroutines and channels inside a wave: an arbitrary completion order over prompts rendered before the wave starts.
- Overflow of durations, the regular-expression engine, and the escapes of quoted ids in messages: the placeholder scanner is written out, and ids are quoted as they are.
- Workers with different settings: all sessions of the protocol share one lease, delivery limit and retry setting, while a worker that cannot run a definition is modelled (`Unrunnable`).
- `Services.Service`: runJob is not a method there, because other workers act between its store calls; its parts are `RunFenced`, `ResumeSeeds` and the wave executor, and the whole is what `Sessions` and `Fencing` are about.
- Safety.SucceededMeansEveryStep: does not say that the rows are all succeeded when a step write returned an error, because the code ignores such errors and the rows may then lag behind the finishing run.
- Transparency.CrashTransparency: assumes deterministic agents, steps that resolve on every worker, and no error from the final write of a result or from a step claim while the run is not being interrupted: such a claim error counts as a failed call in the code and can change what a step comes to. A call that begins under a cancelled context is assumed to fail: an agent that answered it all the same could succeed on a later retry than in the uninterrupted run, because the claims of earlier ones may have failed. The write that records a step on completion may fail if prompts refer to direct dependencies only; if they refer further upstream it is assumed to go through, because a later delivery then resumes from a set that is not dependency-closed, which can make such a step fail (`Resumption.IndirectReferenceBreaks`).
- Delivery.NoJobIsLost: assumes that no hand-over call fails and no crash falls between taking a job from one place and putting it in the next; what does lose a job without these assumptions is stated exactly by `Delivery.LostExactly`.
