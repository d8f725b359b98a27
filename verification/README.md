# Quarry, modelled and verified

Quarry is a CI control plane: a pipeline of jobs with dependencies is submitted, runners claim jobs under
leases, report results and ship their output, and one scheduler over one transactional store decides
everything else. This project models that core in Dafny and proves what it is built to guarantee.

The pieces, bottom up:

- `Model`, `Ops`, `Invariants`: the store as a value, the guarded updates every transaction is built from
  (each with the event recorded beside it), and the invariant they all keep.
- `Graphs`, `Walk`, `Pipeline`, `Render`: dependency graphs, Kahn's walk with its declaration-order
  tie-break, the validator, and the client's second implementation of the same order.
- `Transactions`, `System`: Submit, Claim, Heartbeat, Complete, CancelRun, Tick and AppendLogs as atomic
  functions of the store, and the whole control plane as a transition system with a clock and restarts.
- `Store`, `Scheduler`, `Submission`: the same operations in their imperative form, as classes and loops,
  each proved to have exactly the effect and reply of its transaction.
- `Lifecycle`, `Progress`, `Audit`, `Lease`, `Dispatch`, `Fencing`: what holds over whole runs - termination,
  finality of completion and cancellation, deadlock freedom, the run verdict, replay of the event log,
  lease safety across restarts, claim order, and fencing over an unreliable network of honest runners.
- `Effects`, `Promises`: what each request does to every column of every row, and what the requests promise
  together over whole runs - declared needs, the order of the queue, and timeouts.
- `Ingest`, `Logs`: log ingest under a byte cap in closed form, for one table and over whole runs.
- `Shipper`, `Delivery`: the runner's log shipper, and end-to-end delivery through a channel that loses,
  repeats and reorders.
- `Agent`, `Follower`, `Following`: what a runner reports about an attempt, and the client that follows a log, against
  any answers and against the running system.

The design is the source's own argument: one writer, one transaction per transition, every runner write
fenced on (running, attempt). An elementary update is proved once against the invariants; every
transaction is shown to be a sequence of such updates; whole-run theorems follow by induction over steps.

Conventions: identifiers are row numbers, so a job's id is its index in the table. Times are natural
numbers and 0 is both "no time" and SQL NULL, as in the store; the clock is positive and never goes back.
A transaction reads the clock once. An error reply means no change.

Where the code and its own comments differ, the code is modelled:

- The label test reads a missing label as empty (`Dispatch.LabelsAgreeIff`, `Dispatch.BlankLabelMatchesAnyone`).
- A late report for an attempt that was requeued and whose job was then cancelled in the queue is answered
  as a duplicate, not as fenced (`Dispatch.DuplicateAnswerIff`, `Dispatch.RequeuedThenCancelled`).
- A report of a cancel nobody requested still cancels the job (`Dispatch.CancelReportNeedsNoRequest`).
- A shipper's write reports fewer bytes than it was given exactly when it truncates (`Shippers.WriteReports`,
  `Shippers.WriteMayReportLess`).
- A retried batch extends the earlier one (`Delivery.RetriesExtend`) and is the identical one, as the comments promise,
  exactly when nothing more is pending by then or the next chunk would not have fitted into it
  (`Delivery.RetriesSameIff`, `Shippers.RetrySameIff`, `Shippers.RetryMayDiffer`).
- A follower that saw the job over before its last read has still missed the rows stored after a greater number was
  printed, and only those (`Following.FollowPrintsFinalLog`, `Follower.CompleteIffNoneLate`, `Following.LateRowArises`);
  one shipper never stores a row that late (`Delivery.FollowerShowsStream`).
- The cycle message names every job that reaches a cycle, not only those on one (`Graphs.StuckIffReachesCycle`,
  `Graphs.StuckOffCycle`).

## Model

| member | source | states |
|---|---|---|
| `Pipelines.NamePass` | internal/pipeline/pipeline.go:78-119 | One pass over the declarations reports exactly the problems there are: no jobs, a missing or repeated name, and, of each job that owns its name, a missing image or steps, a blank step, a negative timeout or CPU; with none of these every job is indexed by name and defaulted |
| `Pipelines.CheckDetails` | internal/pipeline/pipeline.go:100-118 | The problems with one job's own settings, each reported iff it is there |
| `Pipelines.Pipeline.CheckEdges` | internal/pipeline/pipeline.go:121-143 | Whatever the names, reports exactly the needs, of jobs that own their name, that name the job itself, repeat or name no job; on settled names without such problems the reverse edges list every job as often as it needs each other job |
| `Pipelines.Pipeline.Topo` | internal/pipeline/pipeline.go:158-198 | Succeeds exactly on acyclic needs with the declaration-order walk; otherwise names, in declaration order, exactly the jobs from which needs lead into a cycle |
| `Pipelines.Pipeline.Finalize` | internal/pipeline/pipeline.go:78-153 | A specification is accepted iff it is well formed and its needs are acyclic; an ill-formed one gets exactly the problems of its declarations and edges, a well-formed cyclic one exactly the cycle problem |
| `Graphs.KahnCompleteIffAcyclic` | internal/pipeline/pipeline.go:144-198 | The walk takes every job iff the needs are acyclic (every nonempty set has a member needing nothing in it) |
| `Graphs.KahnIsLeast` | internal/pipeline/pipeline.go:158-186 | The walk's order is the lexicographically least of all topological orders by declaration index |
| `Graphs.OrderMeansAcyclic` | internal/pipeline/pipeline.go:144-153 | Any topological order at all proves the needs acyclic |
| `Graphs.StuckIffReachesCycle` | internal/pipeline/pipeline.go:188-195 | A job is left over by the walk iff its needs lead into a cycle, which is wider than lying on one |
| `Graphs.StuckOffCycle` | internal/pipeline/pipeline.go:155-157 | A job can be named by the cycle message without lying on a cycle |
| `Walk.Release` | internal/pipeline/pipeline.go:176-183 | Decrementing the dependents of a taken job leaves exactly the right in-degrees and exactly the newly ready jobs listed |
| `Walk.TakeAll` | internal/pipeline/pipeline.go:168-187 | The in-degree loop computes the declaration-order walk of the needs graph |
| `Walk.Leftover` | internal/pipeline/pipeline.go:188-195 | The jobs with a positive in-degree left are exactly those that reach a cycle, in declaration order |
| `Render.DagOrder` | internal/cli/render.go:18-67 | The index-based walk lists positions in the order of the reference walk followed by whatever it could not take |
| `Render.DagOrderIsPermutation` | internal/cli/render.go:18-67 | On any input, cyclic or with unknown needs, every job is listed exactly once |
| `Render.DagOrderAgrees` | internal/cli/render.go:14-67 | On every accepted pipeline the client's order is the validator's topological order |
| `Submission.Submit` | internal/api/submit.go:25-71 | The submission transaction: rejected specs change nothing; accepted ones create exactly the rows, edges and event of the initial state, roots queued and the rest pending |
| `Submission.BuildRows` | internal/api/submit.go:32-50 | The id map, the rows with their defaults and the set of roots of a submission |
| `Submission.BuildDeps` | internal/api/submit.go:50-58 | The dependency rows are the resolved needs moved to row ids |
| `Stores.Store.ClaimJob` | internal/store/jobs.go:36-52 | Claims iff queued: attempt up by one, runner, lease and start set; otherwise no change |
| `Stores.Store.ExtendLease` | internal/store/jobs.go:56-65 | Extends iff running at that attempt under that runner; otherwise no change |
| `Stores.Store.FinishJob` | internal/store/jobs.go:70-80 | Finishes iff running at that attempt; otherwise no change |
| `Stores.Store.RequeueJob` | internal/store/jobs.go:86-96 | Requeues iff running at that attempt, clearing runner, lease and start |
| `Stores.Store.TransitionPendingJob` | internal/store/jobs.go:100-119 | Moves a pending job, and only a pending one, to queued or skipped; any other target is refused and changes nothing |
| `Stores.Store.SetRunState` | internal/store/jobs.go:124-142 | Compare-and-set of a run's state with its timestamps |
| `Stores.Store.CancelJob` | internal/store/jobs.go:182-192 | Cancels a pending or queued job, and only such a one |
| `Stores.Store.RequestJobCancel` | internal/store/jobs.go:198-208 | Records a cancel request on a running job that has none |
| `Stores.Store.AppendEvent` | internal/store/events.go:13-36 | Events are appended, never changed |
| `Stores.Store.InsertLogChunk` | internal/store/logs.go:20-32 | Insert-or-ignore on the chunk number |
| `Model.SelectMembers` | internal/store/jobs.go:16-31 | A listing returns exactly the rows its condition selects |
| `Model.SelectOrdered` | internal/store/jobs.go:160-177 | A listing is ordered by its key and then by row id |
| `Model.ListingOrders` | internal/store/jobs.go:16-34 | On the columns: the queue is listed by queued_at, expired leases by lease_expires_at, running jobs by started_at, ties by row id |
| `Model.ListingSelects` | internal/store/jobs.go:160-177 | On the columns: queued jobs; running ones whose lease is past; running ones without a cancel request |
| `Schedulers.Scheduler.constructor` | internal/scheduler/scheduler.go:103-133 | Zero settings take their defaults and the lease grace ends one TTL after boot |
| `Schedulers.Scheduler.Claim` | internal/scheduler/scheduler.go:226-286 | Refines the claim transaction: the whole new store and the reply; the update of the chosen row always takes effect |
| `Schedulers.Scheduler.Heartbeat` | internal/scheduler/scheduler.go:307-341 | Refines the heartbeat transaction reference by reference: renewals and directives |
| `Schedulers.Scheduler.Decide` | internal/scheduler/scheduler.go:547-583 | One job of the fixpoint loop: skipped if a need is dead, queued if all succeeded, with the cached states kept equal to the rows; neither of its error branches can occur |
| `Schedulers.Scheduler.SettleRun` | internal/scheduler/scheduler.go:532-585 | The fixpoint loop terminates in the state no further pass changes |
| `Schedulers.Scheduler.Advance` | internal/scheduler/scheduler.go:523-612 | Refines the whole of advance: the fixpoint and the run's verdict |
| `Schedulers.Tally` | internal/scheduler/scheduler.go:587-604 | The verdict computed from the state map in any order, ignoring skipped jobs, is the run verdict of the rows |
| `Schedulers.Scheduler.Complete` | internal/scheduler/scheduler.go:355-440 | Refines the completion transaction: every error case, the duplicate no-op, and retry, failure, cancel or success with the run advanced; the discarded row counts are always one |
| `Schedulers.Scheduler.CancelRun` | internal/scheduler/scheduler.go:451-517 | Refines the cancel transaction: not found, already over, already asked, or every job of the run cancelled or asked |
| `Schedulers.Scheduler.Tick` | internal/scheduler/monitor.go:28-110 | Refines the monitor transaction; its report lists exactly the jobs requeued, failed and asked to cancel |
| `Schedulers.Scheduler.ExpireJob` | internal/scheduler/monitor.go:45-76 | One expired lease: requeued below the attempt cap with no cancel pending, else failed and the run advanced; exactly one row changes |
| `Schedulers.Scheduler.BackstopJob` | internal/scheduler/monitor.go:81-101 | One running job past timeout plus grace is asked to cancel, any other is left alone |
| `Schedulers.Scheduler.AppendLogs` | internal/scheduler/logs.go:25-81 | Refines the ingest transaction: fence, dedup, cap and one truncation event |
| `Dispatch.ClaimTakesOldestFit` | internal/scheduler/scheduler.go:240-275 | A claim grants, of the queued jobs whose labels the runner fits, the one with the earliest queued_at, ties by row id, as its next attempt; nothing only if none fits |
| `Dispatch.LabelsAgreeIff` | internal/scheduler/scheduler.go:648-657 | The description holds iff the test accepts and no label required to be empty is missing from the runner |
| `Dispatch.BlankLabelMatchesAnyone` | internal/scheduler/scheduler.go:648-657 | A label required to be empty matches a runner without it |
| `Dispatch.DuplicateAnswerIff` | internal/scheduler/scheduler.go:350-382 | A report at a granted attempt that is not live changes nothing and is answered as a duplicate iff the attempt ended while running, or was requeued and its job then cancelled in the queue |
| `Dispatch.RequeuedThenCancelled` | internal/scheduler/scheduler.go:375-380 | From any state with a retryable live attempt, giving it back and cancelling the run makes a late report be answered as a duplicate although the attempt never finished |
| `Dispatch.CancelReportNeedsNoRequest` | internal/scheduler/scheduler.go:392-407 | A cancelled report at a live attempt ends the job as cancelled whether or not a cancel was requested, and as timed out iff the backstop asked |
| `Dispatch.RetryableAttemptExists` | internal/scheduler/scheduler.go:241-269 | In every deployment that allows retries, submitting any valid job without needs and polling with its labels reaches a state with a live attempt that may be retried |
| `System.InitialOk` | internal/scheduler/scheduler.go:103-133 | A booted scheduler over an empty store meets the invariant |
| `System.StepLeads` | internal/scheduler/scheduler.go:226-517 | Every transaction other than ingest is a sequence of guarded elementary updates with their events |
| `System.StepOk` | internal/scheduler/scheduler.go:226-612 | Every step keeps the store's invariant: row consistency, needs of every job past pending succeeded, acyclic edges, run state against its jobs, event log order |
| `Invariants.InvDo` | internal/store/jobs.go:36-208 | Every elementary update keeps that invariant |
| `Lifecycle.StepLater` | internal/store/jobs.go:36-119 | Every step takes every row to a later version of itself: attempts never fall, terminal rows never change, a cancel request pins the attempt, the rank never rises |
| `Lifecycle.JobsTerminate` | internal/scheduler/scheduler.go:383-427 | From any state on a job makes at most 2*max_attempts+1 further transitions, counted one by one in the event log, and never exceeds max_attempts |
| `Lifecycle.TransitionsCostRank` | internal/scheduler/scheduler.go:383-427 | Over any run, the transitions of a job recorded cost at least as much of its rank |
| `Lifecycle.MovedIffRecorded` | internal/store/jobs.go:36-119 | An elementary update changes a job's state or attempt iff it records a transition of that job |
| `Lifecycle.DeadAttemptsStayDead` | internal/scheduler/scheduler.go:369-381 | A granted attempt that is not the running one never is again |
| `Lifecycle.CompletionIsFinal` | internal/scheduler/scheduler.go:369-440 | After an accepted completion at (job, n) any later completion there, with any result and after any steps, changes nothing |
| `Lifecycle.CancelledNeverRetried` | internal/scheduler/scheduler.go:408-427 | A job with a cancel request stays at its attempt until it ends |
| `Lifecycle.CancelRunWindsDown` | internal/scheduler/scheduler.go:451-517 | When a cancel commits, every job of the run is over or running with a cancel pending |
| `Lifecycle.CancelIsFinal` | internal/scheduler/scheduler.go:451-517 | That stays so in every later state of every run, so nothing of the run is ever claimed again |
| `Progress.AdvanceClosedForm` | internal/scheduler/scheduler.go:532-585 | advance in closed form: a pending job is skipped iff a chain of pending needs leads to a dead job, queued iff all needs succeeded, else untouched; nothing else changes |
| `Progress.AnyOrderDecides` | internal/scheduler/scheduler.go:532-585 | Any visits in any order with any repeats that leave nothing to decide give every job the row advance gives it |
| `Progress.AnyOrderSettlesAlike` | internal/scheduler/scheduler.go:532-585 | Sweeping in any order that covers the run ends, and with the rows of advance |
| `Progress.CompleteSettles` | internal/scheduler/scheduler.go:383-440 | A valid report of the live attempt leaves its row as the settlement does, whatever else advances |
| `Effects.CompleteReply` | internal/scheduler/scheduler.go:355-382 | Which reports are invalid, unknown, fenced or accepted; nothing but a report of the running attempt changes anything |
| `Effects.CompleteSettlesRow` | internal/scheduler/scheduler.go:383-432 | Succeeded iff success was reported; cancelled iff a cancel the backstop did not ask for; queued iff infra with attempts left and no cancel pending; else failed with the reported kind (a backstop cancel: timeout); every column of the row and the first event recorded |
| `Effects.ClaimStarts` | internal/scheduler/scheduler.go:226-295 | A grant starts the next attempt under its runner for one TTL, starts a pending run, records both, and changes nothing else; no grant changes nothing |
| `Effects.HeartbeatRenews` | internal/scheduler/scheduler.go:307-347 | Renews for one TTL exactly the running attempts named that the runner holds; answers abort iff it does not hold it, cancel iff a cancel is pending, else continue |
| `Effects.CancelStops` | internal/scheduler/scheduler.go:451-513 | Unknown, finished, repeated and first cancels; the first one cancels the run's pending and queued rows, asks its running ones to stop, and leaves every other row |
| `Effects.TickTakesOrAsks` | internal/scheduler/monitor.go:31-102 | A running row whose lease and the boot grace are past is requeued below the attempt cap with no cancel pending, else failed as lost_runner; otherwise it is asked to stop iff past started_at + timeout + grace with no cancel pending; every other settled row stays |
| `Effects.BackstopAsksIff` | internal/scheduler/monitor.go:79-102 | On an attempt the tick leaves running: a cancel request iff the timeout is set and started_at + timeout + grace is past, with reason timeout; else the row is unchanged |
| `Effects.TickRecordsLost` | internal/scheduler/monitor.go:45-76 | An attempt the tick takes is recorded as requeued or failed with kind lost_runner |
| `Effects.SubmitStores` | internal/api/submit.go:30-69 | Accepted iff acceptable; then one pending run, a row per job with its labels, its timeout or the default and the configured attempts, roots queued, and an edge per declared need and no other; else nothing changes |
| `Effects.AppendTakes` | internal/scheduler/logs.go:25-45 | Accepted iff every number is at least 1 and the attempt is the running one; otherwise invalid, unknown or fenced, without a change; no row ever changes |
| `Effects.RestartKeepsSettings` | internal/scheduler/scheduler.go:103-133 | Zero settings take the defaults, given ones are kept, and the lease grace ends one TTL after the boot |
| `Effects.PendingMoves` | internal/scheduler/scheduler.go:523-593 | In one step a pending row is left alone, queued or skipped as of now, or cancelled by cancelling its run |
| `Effects.RunMoves` | internal/store/jobs.go:124-144 | Every step moves a run's state and times together: it starts once and ends once, each stamped with the clock, and an ended run never changes |
| `Promises.JobsFollowDeclaredNeeds` | internal/api/submit.go:53-57 | After any submission and any steps: a job not cancelled is pending while its declared needs are undecided, skipped exactly when one of them failed or was cancelled or skipped, and past pending exactly when all succeeded |
| `Promises.NoOvertaking` | internal/store/jobs.go:16-34 | A job that joins the queue later, by submission, release or requeue, is never granted to a runner that fits a job still waiting from before |
| `Promises.ExecLinesUp` | internal/store/jobs.go:82-107 | Over any run, whatever is queued anew is stamped with the clock of that moment, and what stays queued keeps its place |
| `Promises.TimeoutIsEnforced` | internal/scheduler/monitor.go:79-102 | Once a tick finds an attempt past its timeout and grace, whatever happens while it runs: every heartbeat naming it is answered with cancel, and any valid report ends the job, as timed out if it reports the cancel |
| `Progress.AdvanceQuiets` | internal/scheduler/scheduler.go:523-612 | advance leaves its run at the fixpoint and finalized, and touches no other run |
| `Progress.ReachableQuiet` | internal/scheduler/scheduler.go:523-612 | In every reachable state every run is at the fixpoint and finalized |
| `Progress.NoDeadlock` | internal/scheduler/scheduler.go:523-612 | In every reachable state a run that is not over has a queued or a running job |
| `Progress.RunVerdict` | internal/scheduler/scheduler.go:587-611 | In every reachable state: over iff all jobs are; failed iff also some job failed; cancelled iff none failed and some was cancelled; succeeded iff all succeeded |
| `Progress.SkipHasCause` | internal/scheduler/scheduler.go:595-604 | A run with a skipped job has a failed or a cancelled one, which is why the verdict may ignore skips |
| `Audit.ReplayReproducesStore` | internal/scheduler/scheduler.go:614-622 | Replaying the event log from nothing reproduces every run's state and every job's state, attempt, runner, failure kind and cancel reason; nothing of a run follows its run.finished |
| `Audit.ClaimsAreConserved` | internal/scheduler/scheduler.go:254-275 | In every reachable state a job's claims carry attempts 1..attempt once each, and claims = requeues + one iff the current attempt was not given back |
| `Audit.EventsNameTheirRun` | internal/scheduler/scheduler.go:614-623 | In every reachable state every event of a job names the job's own run, and only infra and lost_runner failures are requeued |
| `Lease.TickTakesExactlyTheLost` | internal/scheduler/monitor.go:34-76 | A tick takes a live attempt iff its lease is past and the boot grace is over, requeueing it iff attempts remain and no cancel is pending, else failing it as lost |
| `Lease.TickIsIdempotent` | internal/scheduler/monitor.go:28-110 | A second tick at the same clock changes no row and no event |
| `Lease.GrantStartsWatch` | internal/scheduler/scheduler.go:254-275 | A claim starts the lease clock of its attempt |
| `Lease.DiligentKeepsLease` | internal/scheduler/monitor.go:34-76 | An attempt renewed at most TTL apart, or within the grace of each boot, is never taken by any tick, across restarts and outages of any length |
| `Fencing.InitialNetOk` | internal/scheduler/scheduler.go:103-133 | An empty store with nothing in flight starts the network model |
| `Fencing.ReachableNetOk` | internal/scheduler/scheduler.go:226-440 | With honest runners and a network that loses, delays, duplicates and reorders, every reachable state keeps the claim record consistent and every message in flight honest |
| `Fencing.GrantedOnce` | internal/scheduler/scheduler.go:254-275 | Each attempt is granted to at most one runner by exactly one claim |
| `Fencing.AcceptedFromHolder` | internal/scheduler/scheduler.go:369-440 | Every accepted log batch, and every report that is no duplicate, came from the runner holding the attempt, although neither check looks at the runner |
| `Fencing.AbortIffNotLive` | internal/scheduler/scheduler.go:307-341 | An honest heartbeat is answered abort iff the attempt is not live |
| `Fencing.RefusalIsFinal` | internal/scheduler/scheduler.go:307-381 | Once an attempt was answered abort or fenced it is not live in any later state of any history |
| `Ingest.AbsorbClosedForm` | internal/scheduler/logs.go:25-81 | For any batches in any order with any repeats, the table is the first delivery of each number, cut cumulatively at the cap |
| `Ingest.CappedConcat` | internal/scheduler/logs.go:46-66 | The stored bytes are exactly the first cap bytes of those deliveries |
| `Ingest.CappedIsPrefix` | internal/scheduler/logs.go:46-66 | Every stored chunk is a prefix of its first delivery |
| `Ingest.LosesClosedForm` | internal/scheduler/logs.go:46-79 | Bytes are lost iff the first deliveries together exceed the cap |
| `Ingest.RedeliveryIsIdentity` | internal/store/logs.go:20-32 | Redelivering anything already stored changes nothing and loses nothing |
| `Logs.LogIsFirstDeliveriesCapped` | internal/scheduler/logs.go:25-81 | Over any run under one cap, an attempt's table holds its first deliveries cut at the cap, its bytes are their first bytes up to the cap, and exactly one truncation event exists iff bytes were lost |
| `Logs.ReachableLogsBelong` | internal/scheduler/logs.go:25-45 | In every reachable state only granted attempts have output stored, under distinct positive numbers |
| `Logs.LogIsFrozen` | internal/scheduler/logs.go:36-45 | A granted attempt's log never changes once it is not the running one |
| `Logs.StepExtendsLog` | internal/scheduler/logs.go:25-81 | Nothing but a delivery to the live attempt changes a log, and that only appends rows |
| `Shippers.WithShipDefaults` | internal/logship/logship.go:102-118 | The settings always leave room for one chunk in a post and for something in the buffer |
| `Shippers.ShipSettingsKept` | internal/logship/logship.go:102-119 | Usable settings are kept; each default is used exactly when its setting is unusable |
| `Shippers.Shipper.constructor` | internal/logship/logship.go:102-126 | A new shipper is empty, open and numbers from 1 |
| `Shippers.Shipper.Write` | internal/logship/logship.go:132-155 | Refines the write specification: marker, room, drop count and reported length |
| `Shippers.Shipper.AppendBytes` | internal/logship/logship.go:159-173 | The sealing loop leaves less than one chunk unsealed |
| `Shippers.Shipper.SealFirst` | internal/logship/logship.go:177-183 | The first bytes become the next numbered chunk |
| `Shippers.Shipper.Take` | internal/logship/logship.go:187-199 | Seals the rest and returns the longest batch within the post bound, at least one chunk |
| `Shippers.Shipper.Acknowledge` | internal/logship/logship.go:202-209 | Forgets the first chunks and their bytes |
| `Shippers.Shipper.MarkStale` | internal/logship/logship.go:288-299 | Discards everything, stays stale and calls OnStale, if there is one, exactly once however often it happens |
| `Shippers.Shipper.Drain` | internal/logship/logship.go:242-285 | Refines the drain specification against any sequence of sink answers: what is sent, acknowledged, given up and left |
| `Shippers.Shipper.Close` | internal/logship/logship.go:315-344 | Closes once, flushes once and reports stale, rejected, unsent, dropped or nothing, in that order |
| `Shippers.WriteBooks` | internal/logship/logship.go:132-173 | A write keeps the books: acknowledged + pending + unsealed bytes are the accepted stream, numbers are gapless, the byte count is exact; every offered byte is retained or counted; the cap is passed by at most one marker |
| `Shippers.WriteReports` | internal/logship/logship.go:128-155 | A write reports the whole of its input except exactly when the shipper is open and the buffer has some room but too little; then it reports the room |
| `Shippers.WriteAdds` | internal/logship/logship.go:132-155 | An open shipper with room adds a line naming the bytes dropped before, if any, then the first bytes that fit, and counts the rest; without room it counts all |
| `Shippers.DigitsRead` | internal/logship/logship.go:140-144 | The number in that line is the decimal of the bytes dropped |
| `Shippers.WriteSealsFull` | internal/logship/logship.go:157-174 | A write seals only chunks of exactly the flush size |
| `Shippers.WriteMayReportLess` | internal/logship/logship.go:149-154 | A concrete write that reports less than its input |
| `Shippers.AckBooks` | internal/logship/logship.go:202-209 | An acknowledgement keeps the books |
| `Shippers.SealedBooks` | internal/logship/logship.go:187-190 | Sealing the rest keeps the books and leaves nothing unsealed |
| `Shippers.BatchFits` | internal/logship/logship.go:187-199 | A post never exceeds its bound and is empty only when nothing is pending |
| `Shippers.RetryExtends` | internal/logship/logship.go:187-199 | The batch of a pending list that has grown begins with the batch of the shorter one |
| `Shippers.RetrySameIff` | internal/logship/logship.go:187-199 | A retried batch is the identical one exactly when nothing more is pending by then or the chunk after it would not fit into the post |
| `Shippers.RetryMayDiffer` | internal/logship/logship.go:187-199 | A retried batch need not be the same: output written meanwhile joins it |
| `Shippers.DrainBooks` | internal/logship/logship.go:242-285 | Draining against any sink forgets exactly the batches answered with acceptance or rejection and keeps the books, unless the attempt went stale, and every post fits the bound |
| `Shippers.HealthyDrainEmpties` | internal/logship/logship.go:242-285 | A sink that settles as many batches as there are chunks, with any transient failures in between, empties the buffer |
| `Shippers.DrainRemembers` | internal/logship/logship.go:242-285 | A drain ends rejected or stale iff it was before or one of its posts was so answered |
| `Shippers.CleanCloseMeansDelivered` | internal/logship/logship.go:331-343 | A clean close means the whole accepted stream was acknowledged and no drop is outstanding |
| `Shippers.CloseTells` | internal/logship/logship.go:331-343 | Each verdict as an equivalence: stale, rejected, how many accepted bytes are unacknowledged, how many were dropped unnoted, or clean |
| `Delivery.MoveOk` | internal/logship/logship.go:132-285 | Every step of shipper, channel and server keeps the delivery invariant |
| `Delivery.FreshOk` | internal/logship/logship.go:102-126 | A new shipper beside an empty table meets the delivery invariant |
| `Delivery.GrantStartsFresh` | internal/scheduler/scheduler.go:254-275 | What a claim grants in any reachable state has no output stored yet |
| `Delivery.ArriveStored` | internal/scheduler/logs.go:25-81 | Any post, delivered at any time and any number of times, leaves the server with a prefix of the stream |
| `Delivery.StoredIsPrefix` | internal/scheduler/logs.go:25-81 | In every run with no rejected batch and a fixed cap, the stored numbers are always 1..k and the data is exactly the first bytes of the accepted stream: those of the first k chunks, cut at the cap |
| `Delivery.BytesAreConserved` | internal/logship/logship.go:132-155 | In every run, offered bytes = retained + noted in markers + still counted as dropped, while not stale; the buffer exceeds its cap by at most one marker |
| `Delivery.ShippedInOrder` | internal/scheduler/logs.go:25-81 | The table one shipper fills is in ascending order |
| `Delivery.FollowerShowsStream` | internal/cli/cli.go:288-328 | With one shipper for the attempt and no batch rejected, a follower that has stopped at the attempt printed of it the first bytes of what the shipper accepted, numbered 1..k; all of it up to the cap once the shipper closed cleanly |
| `Delivery.RetriesExtend` | internal/logship/logship.go:187-199 | As long as no answer reaches the shipper, whatever is written or delivered meanwhile, every later post begins with the chunks of an earlier one |
| `Delivery.RetriesSameIff` | internal/logship/logship.go:187-199 | As long as no answer reaches the shipper, whatever else happens, a later post repeats an earlier one exactly when by then nothing more is pending or the chunk after the earlier post would not have fitted into it |
| `Delivery.DrainIsRun` | internal/logship/logship.go:242-285 | The final drain against the live system is a run of it, and leaves of the shipper and on the wire what the drain loop computes from the answers the system gave |
| `Delivery.CloseDelivers` | internal/logship/logship.go:315-344 | Shutting and draining the shipper against the live system leaves it as Close computes, and when Close reports nothing wrong the server holds the whole accepted stream up to its cap |
| `Delivery.CleanCloseStored` | internal/logship/logship.go:331-343 | In any state in which Close would report nothing wrong, the server stores the first min(cap, length) bytes of the whole accepted stream, and every lost byte is noted in it |
| `Delivery.OutputIsStored` | internal/logship/logship.go:132-155 | If everything written before the close fits the buffer, or no loss was ever noted, then after a clean close the server holds exactly what the job wrote, up to the cap, whatever the network did |
| `Delivery.FreshIsUnused` | internal/logship/logship.go:102-126 | A new shipper has written, lost and closed nothing |
| `Delivery.CleanCloseIsFinal` | internal/agent/agent.go:398-439 | Nothing that happens after a clean close, completion and redelivery included, changes the log |
| `Agents.RunAttempt` | internal/agent/agent.go:366-440 | The verdict is fixed before the flush, the shipper is closed before the report, and an aborted attempt sends nothing |
| `Agents.VerdictByCause` | internal/agent/agent.go:386-439 | Silent iff an abort came first and the work failed; success iff exit 0, uploads done and neither timeout nor cancel came first; timeout iff the timer came first; cancelled iff a cancel did; exit_code with the code iff the process ended non-zero by itself; infra iff the runner failed it with no cause but shutdown |
| `Agents.ErrsIff` | internal/agent/agent.go:366-391 | The runner's side failed iff the execution broke, or an upload after a clean exit was fenced or failed; an attempt that never started reports infra |
| `Agents.FirstAbortSilences` | internal/agent/agent.go:427-429 | An abort directive that reaches the attempt first and cuts it short silences it |
| `Agents.FlushUnlessSilent` | internal/agent/agent.go:398-407 | A silent attempt posts nothing more when its shipper closes; any other flushes what is left |
| `Agents.ReportIsRecorded` | internal/agent/agent.go:410-439 | From the attempt's end to the job's row: timeout, cancel, exit code, success and runner failure are stored as what they are |
| `Agents.ReportsAreValid` | internal/agent/agent.go:410-439 | Every report is one the server takes and none claims a lost runner |
| `Agents.RetriedIff` | internal/agent/agent.go:410-439 | A report of the live attempt queues the job again iff it is an infra failure, attempts remain and no cancel is pending; otherwise the job is over |
| `Agents.FirstCancelIsReported` | internal/agent/agent.go:498-514 | A cancel directive that reaches the attempt first is what it reports |
| `Agents.CancelIsHonoured` | internal/agent/agent.go:460-514 | A cancel directive is given only for a requested cancel; the attempt it reaches reports it if it came first; and whatever the attempt reports, at any later time, the job is then over without retry - cancelled on a report of the cancel, or timed out if the backstop asked |
| `Agents.OutputBeforeReport` | internal/agent/agent.go:395-439 | When the close before the report found nothing wrong, the server holds the whole accepted stream up to its cap before the report is made, and neither the report nor anything later changes it |
| `Agents.ReportIsAMove` | internal/agent/agent.go:440-458 | The report is one of the later moves that leave the log alone |
| `Agents.SilenceIsHarmless` | internal/agent/agent.go:427-429 | After an abort or a fenced batch, a report at any later time would change nothing |
| `Follower.GetLogs` | internal/api/logs.go:98-106 | The page and the cursor: the last number returned, or the old cursor |
| `Follower.PageIsExact` | internal/store/logs.go:46-66 | A page is exactly the rows above the cursor, each once, in ascending order |
| `Follower.Follow` | internal/cli/cli.go:288-328 | Refines the follow loop over any sequence of server answers |
| `Following.FollowPrintsFinalLog` | internal/cli/cli.go:288-328 | Following a log of the running system, with anything going on between any two reads: only stored rows are printed, none twice or out of order; once it has stopped, in every later state the job is over and the lines of the attempt asked for are exactly the rows of its log that did not come late, which is the whole log iff none did and always so for a log filled in ascending order |
| `Following.FollowEnds` | internal/cli/cli.go:288-328 | It stops at most two rounds after one that found the job over |
| `Following.ViewsAreTrace` | internal/cli/cli.go:293-307 | The answers the system gives to any sequence of rounds form a trace the follower can rely on |
| `Follower.FollowIsExact` | internal/cli/cli.go:288-328 | On any trace nothing is printed twice or out of order, and on exit the lines of the last attempt are exactly the rows of the table last read that did not come late |
| `Follower.CompleteIffNoneLate` | internal/cli/cli.go:308-322 | The whole table is printed iff no row of it was stored after a round without it had printed a greater number |
| `Following.LateRowArises` | internal/cli/cli.go:308-322 | From any live attempt without output: chunk 2 is stored and printed, then chunk 1 is stored and the attempt finishes, and the follower stops without having printed chunk 1 |
| `Follower.FollowStops` | internal/cli/cli.go:320-322 | It stops within two rounds after the first one that saw the job over |
| `Following.ReadsFlow` | internal/cli/cli.go:293-307 | Any two rounds of reads, with anything going on in the system between any two of them, satisfy what the follower relies on: attempts only rise, logs only grow, and both are final once the job was seen over |

## Left out

- SQLite, migrations, HTTP routing, authentication, JSON and YAML: a transaction is an atomic function of the store and a specification is already decoded.
- The order of the reported problems and their texts: which problems are reported is stated exactly.
- Error texts, exit codes in the event replay, event payloads and event timestamps: kept only as far as states depend on them.
- Random ids and their collisions: ids are row numbers.
- The runners table, registration, online and offline marking, and the agent's capacity slots: they only frame the steps modelled here, and claiming does not look at capacity.
- Artifacts on the server, blob stores, the executor, tar handling and the reaper: foreign calls; the executor and an upload are outcomes given to the verdict.
- Backoff delays, tickers, wake-ups and goroutine joins: a retry or flush may happen at any point; `Shippers.Shipper.Drain` runs against a given sequence of sink answers, which `Delivery.DrainIsRun` takes from the live system, and its context ends with them.
- Concurrency inside the shipper: each method under the mutex is atomic, and `Delivery` interleaves writes, flushes, answers and deliveries arbitrarily.
- Sub-millisecond settings and 64-bit overflow of times and byte counts: numbers are unbounded.
- Metrics, logging, table rendering and every client command except following a log.
- Delivery.StoredIsPrefix: says nothing after a batch the server rejected for good, because the shipper then gives that batch up and its numbers stay missing.
- Stores.Store.AppendEvent: does not model the refusal of an event without a run or a type, because every event here has both, nor timestamps and payloads.
- Schedulers.Scheduler.Tick: does not model marking runners offline, because the runners table is left out.
- Logs.LogIsFirstDeliveriesCapped: assumes that no restart changes the cap; the general form is `Logs.LogIsFirstDeliveriesCut`.
