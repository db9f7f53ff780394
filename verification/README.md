# Spool, verified

Spool is a serial job queue in front of one `claude` process. Jobs wait in
configured queues; one executor picks a queue by smooth weighted round-robin,
claims its head, runs it and writes the result together with its notifications;
a sender delivers the notifications with retries; a lock keeps every other use
of the CLI out of the way; an auth manager blocks and unblocks the executor. The
promises are about what survives a crash: no job runs its side effects twice, no
result is lost, none is announced twice, no queue starves.

This project models that core in Dafny 4.11 and proves those promises for all
inputs, all interleavings and all runs. Where the code does not keep one (a
removed queue can have a result announced twice, as said below), the exact
condition is proved instead. `dafny verify dfyconfig.toml` checks it.

## How it is organised

Each component appears twice where the program is imperative: as classes and
methods in the program's own form, and as a specification on values about which
the theorems are proved. The methods' contracts are the connection.

| Dafny file | what it holds |
|---|---|
| `Order`, `Sets`, `Credits`, `Sched` | the scheduling kernel: `Pick` over an array, against the relation `Round` |
| `Fairness` | runs of rounds over any candidate sets: bounded credit, no starvation, exact shares |
| `Jobs`, `Claims`, `Runtime`, `Events` | rows, statuses, routing; `Position` against `Claim` |
| `Classify`, `Streams` | the stream collector and the classification cascade; what the readings of a stream mean |
| `Store` | class `Store`: the SQL statements, each atomic and each able to fail |
| `Executor`, `Reload`, `Api` | the classes that use it: the scheduling loop, crash recovery, hot reload, the handlers |
| `Lifecycle` | the whole durable lifecycle as one step system, with a crash possible between any two steps |
| `LifecycleSafety`, `LifecycleOutbox`, `LifecycleLineage` | its invariants, one family per file |
| `LifecycleRuns`, `LifecycleBudget` | what follows for whole runs from an empty database |
| `Refinement` | the executor's step is a run of that system; the stored credits, over picks, pauses and restarts, are a run of the fairness model; positions in such runs |
| `Recovery` | recovery after a crash, and the handlers, are runs of that system too |
| `RetryWindow`, `Outbox`, `Sender` | backoff arithmetic, runs of deliveries, and the sender class |
| `ClaudeLock`, `Login` | the lock and the login attempts as concurrent protocols, and the lock class |
| `Gates`, `Auth` | credential state against the persisted gate, and the manager class |
| `Wake` | the wake protocol of the scheduling loop |
| `Homes` | the removal of queues against submissions, requeues and overlapping reloads |

## Where the code and its promises part

These are properties of the code, kept as they are and stated as lemmas.

- A queue removal selects the jobs it will fail and then fails whatever is
  queued, in two statements, and announces those it selected. If a selected job
  has been announced otherwise when its turn comes, and its queue is configured
  again by then, its receivers get the event twice. That takes two reloads that
  overlap, which the poll and SIGHUP do on goroutines of their own
  (`backend/cmd/spool/main.go:152-176`): the second brings the queue back between
  the two statements of the first. It happens to a cancelled job in
  `LifecycleRuns.DisturbedRemovalAnnouncesTwice`, one that the executor finished
  in `LifecycleRuns.FinishedJobAnnouncedTwice`. `LifecycleRuns.AtMostOneRowPerReceiver`
  and `LifecycleRuns.FinishedJobIsPosted` give the exact conditions, job by job;
  in every run at least the rows of the finish itself are there.
- The design document (section 3.3) says that a webhook fires for the jobs of a
  removed queue. Unless another reload has brought the queue back meanwhile, none
  does: routing looks the queue up in the definitions it has just been dropped
  from (`Events.RemovedQueueIsSilent`, `Reload.Reloader.ReloadIfChanged`).
- A removed queue must not leave work queued for ever (section 3.3), and the
  scheduling loop counts on a reload to fail such jobs
  (`backend/internal/executor/executor.go:314-317`). But a reload fails only what
  is queued when it drops the queue. A job submitted by a handler that had found
  the queue configured, or put back after a run that began before the removal,
  arrives too late; no later reload fails it, and it waits for a restart, for the
  queue's return or for an operator (`Homes.LateSubmissionIsStranded`,
  `Homes.LateRequeueIsStranded`). And a reload that another one overtakes does not
  know what it drops (`Homes.OverlapStrands`). `Homes.StrandsExactly` and
  `Homes.RescuesExactly` give the exact steps.
- `StartLogin` stores its attempt without looking whether the expiry timer has
  finished it meanwhile. Then the manager believes for ever that a login is in
  progress, and the keep-alive stops (`Login.LateRegistrationIsStale`); exactly
  that registration causes it (`Login.StaleArises`), and only another one cures
  it (`Login.StaleStays`).
- Pausing the executor, or a usage limit, writes over `blocked_auth`, and a
  resume in flight does too; then jobs are claimed with a credential known to
  have expired (`Gates.PauseAndResumeOpenTheGate`). `Gates.GuardBreaks` gives
  the exact list.
- A probe that finds the credential good does not unblock the executor, so
  `auth.required` can repeat with no `auth.restored` in between
  (`Gates.RequiredTwiceWithoutRestored`). `Gates.HiddenArises` says exactly when
  an incident is hidden so, and `Gates.EventsAlternate` that an expiry observed
  then is what keeps the two from alternating. And a login can complete without
  announcing `auth.restored` (`Auth.SilentLogin`; `Auth.LoginRestores` says
  exactly when).
- That a submitter's `Wake` has returned is not enough for its job to be seen: a
  queue or an executor resumed afterwards counts on its own `Wake`
  (`Wake.SubmittersWakeIsNotEnough`; `Wake.MissedArises` gives the exact steps).

## Model

| member | source | states |
|---|---|---|
| Sched.Pick | backend/internal/sched/sched.go:26-50 | No candidate, no winner. Otherwise the winner is the candidate that is richest once all have gained their weight, the smaller name on a tie; it alone pays the total weight; exactly the candidates get a new credit. |
| Sched.PickMeans | backend/internal/sched/sched.go:18-50 | The same, candidate by candidate, of the list as given: no other has more credit once both have gained their weight, or as much and a smaller name; each gets its credit and weight back, the winner less the sum of all weights. |
| Sched.RaiseAll | backend/internal/sched/sched.go:38-44 | In place, every candidate gains its weight; the result is the total weight and the first index of the largest credit. |
| Sched.SortSorts | backend/internal/sched/sched.go:30-33 | Sorting yields the same candidates in strictly ascending name order, so the pick cannot depend on map order. |
| Fairness.CreditsStayBounded | backend/internal/executor/executor.go:294-333 | Over any run of rounds on arbitrary candidate sets, weights positive and at most M in total, every set of k of the n queues has credit at most M·k·(n-k), and the total stays as it began. |
| Fairness.RoundKeepsBound | backend/internal/sched/sched.go:35-49 | One round keeps that bound for every set of queues at once. |
| Fairness.QueueBound | backend/internal/store/runtime.go:132-147 | Hence each persisted credit stays within plus or minus M(n-1): a quiet queue banks no more. |
| Fairness.NoStarvation | backend/internal/executor/executor.go:292-333 | In any such run what a queue was entitled to while a candidate exceeds M times its wins by at most 2M(n-1). |
| Fairness.LosingStreak | backend/internal/executor/executor.go:292-333 | A queue of weight at least w that is a candidate in N picks and wins none satisfies N·w <= 2M(n-1), however other queues come and go. |
| Fairness.NoMonopoly | backend/internal/executor/executor.go:292-333 | Nor does a queue win more than its entitlement plus 2M(n-1), if rounds weigh at least `low` each: wins·low is bounded so. |
| Fairness.FromANewDatabase | backend/internal/store/runtime.go:83-89 | From zero credit the credits are bounded so in every run, and what a queue was entitled to exceeds M times its wins by at most M(n-1). |
| Fairness.FirstLosingStreak | backend/internal/executor/executor.go:292-333 | There N·w <= M(n-1) for N picks that a candidate of weight w all loses. |
| Fairness.ExactCredit | backend/internal/sched/sched.go:35-49 | On a fixed candidate set from zero credit, a queue's credit is N times its weight less W times its wins, and above -W, after every N picks. |
| Fairness.ExactShare | backend/internal/sched/sched.go:18-25 | With natural weights totalling W, after every whole number r of cycles of W picks each queue has won exactly r times its weight and all credits are zero. |
| Claims.PositionRefinesClaim | backend/internal/store/jobs.go:368-377 | Whatever else happens in the table (finishes, other queues), as long as the queue itself sees only claims, its job at position p is claimed by exactly its claim number p and by no other. |
| Claims.ElsewhereCovers | backend/internal/store/jobs.go:222-269 | The end of a running job, and claims and arrivals in other queues, are such other happenings. |
| Refinement.PositionInRuns | backend/internal/api/jobs.go:79-101 | The same for any run of the lifecycle system in which the queue sees only claims. |
| Claims.ClaimAdvances | backend/internal/store/jobs.go:222-235 | The head is exactly the job at position zero, and claiming it moves every other queued job up by one. |
| Claims.DrainIsSortedPermutation | backend/internal/store/jobs.go:224-229 | Claiming a queue until it is empty, with anything else going on outside it, yields exactly its queued jobs; each has a higher priority than any taken after it, or the same and the smaller id. |
| Claims.HeadExists | backend/internal/store/jobs.go:226-228 | A queue that has a queued job has a head. |
| Claims.HeadIsUnique | backend/internal/store/jobs.go:226-228 | And only one. |
| Claims.HeadIsMostUrgent | backend/internal/store/jobs.go:224-229 | The head is exactly the queued job of the queue that every other one has less priority than, or the same and a greater id. |
| Claims.PositionCounts | backend/internal/store/jobs.go:368-377 | The position is the number of jobs queued in the same queue with a higher priority, or the same and a smaller id. |
| Order.LessIsLexicographic | backend/internal/store/jobs.go:226-228 | One id or name comes before another exactly if, after a common start, it has ended or has the smaller character. |
| Events.Deliveries | backend/internal/event/notifier.go:53-78 | The loop over receivers yields the routed URLs: none for a job event of a queue that is missing or does not subscribe, else each receiver that wants the event, in order. |
| Events.RouteSelects | backend/internal/event/notifier.go:56-76 | An event is routed to exactly the receivers whose filter is empty or names it, if it is one of the five service events or the queue is configured and subscribes to it, and to no configured receiver twice. |
| Events.RouteInOrder | backend/internal/event/notifier.go:62-76 | In the order of the receivers, each as often as it is configured. |
| Events.EveryEndHasItsOwnEvent | backend/internal/event/event.go:53-67 | Exactly the five terminal statuses emit an event: job.succeeded, job.failed, job.needs_input, job.interrupted or job.cancelled, each the one of its name, and none of them is a service event. |
| Events.RemovedQueueIsSilent | backend/internal/event/notifier.go:56-60 | A job event of a queue that is no longer configured reaches nobody. |
| Classify.Collector.Observe | backend/internal/claudecli/classify.go:81-137 | After any stream the collector holds its number of tool_use blocks, whether any usage limit was reported, the last result line, the last session id, the name last given to each tool use, and the set of denied tools, each listed once. |
| Classify.Collector.ObserveBlocks | backend/internal/claudecli/classify.go:110-136 | The same for the blocks of one event. |
| Classify.Collector.Report | backend/internal/claudecli/classify.go:285-296 | What classification starts from is what the whole stream says. |
| Streams.ToolUsesCount | backend/internal/claudecli/classify.go:110-115 | What the stream says: its tool calls are the tool_use blocks of all events, each counted once. |
| Streams.RateLimitedMeans | backend/internal/claudecli/classify.go:100-124 | It is rate limited exactly if some retry line, or the text of some failed tool result, says so. |
| Streams.LastResultCounts | backend/internal/claudecli/classify.go:85-90 | Its result is the last result line. |
| Streams.LastSessionCounts | backend/internal/claudecli/classify.go:82-84 | Its session is the last one named. |
| Streams.LastNameCounts | backend/internal/claudecli/classify.go:112-116 | A tool use goes by the name last given to its id. |
| Streams.DeniedMeans | backend/internal/claudecli/classify.go:91-136 | A tool is denied exactly if a result line lists it, or a failed tool result says so of a use that goes by that name at that point of the stream. |
| Classify.SuccessMeansNothingFailed | backend/internal/claudecli/classify.go:305-373 | A job succeeds exactly when nothing at any level went wrong and the outcome says so. |
| Classify.EveryEndingHasItsCause | backend/internal/claudecli/classify.go:303-373 | For every status and every error kind, exactly which runs end with it; session and tool calls are those of the run. |
| Classify.RequeueIsSafe | backend/internal/claudecli/classify.go:305-340 | Cancelled is exactly an operator's cancellation; a blocking failure is exactly an auth or usage sign not outranked by cancellation, a capability problem or a timeout; and a run may be requeued exactly if it made no tool call and ended so, or its connectors were still connecting and it was tried fewer than three times. |
| Store.Store.Insert | backend/internal/store/jobs.go:86-115 | A row is created exactly if the id is free, no row of the queue has the (non-empty) key, and the parent exists; a taken key answers with a row that has it; anything else is an error and changes nothing. |
| Store.Store.Claim | backend/internal/store/jobs.go:222-235 | The queued job of the queue with the highest priority and, of those, the smallest id goes to running with one more attempt; not found exactly when nothing is queued there. |
| Store.Store.Requeue | backend/internal/store/jobs.go:274-284 | Only a running row goes back to queued. |
| Store.Store.Cancel | backend/internal/store/jobs.go:288-299 | Only a queued row is cancelled. |
| Store.Store.RecoverRunning | backend/internal/store/jobs.go:304-333 | All running rows, and no others, become interrupted, and their ids are returned. |
| Store.Store.FailQueued | backend/internal/store/jobs.go:337-366 | The ids queued at the first statement are returned; the rows queued at the second, whatever others did in between, fail, and no others change. |
| Store.Store.Position | backend/internal/store/jobs.go:369-377 | The count is the job's position in its queue. |
| Store.Store.Depths | backend/internal/store/runtime.go:157-174 | Exactly the queues with queued jobs, each with their number. |
| Store.Store.FinishWithDeliveries | backend/internal/store/outbox.go:81-114 | The result and its outbox rows together, or neither; a result that is not terminal is refused. |
| Store.Store.EnqueueDeliveries | backend/internal/store/outbox.go:44-71 | One pending row per receiver, due at once, or nothing. |
| Store.Store.ClaimDueDeliveries | backend/internal/store/outbox.go:117-148 | The first due pending rows in id order, at most the limit (20 if none is given). |
| Store.FirstDue | backend/internal/store/outbox.go:122-128 | These are pending and due, oldest first, and a due row is left out only if the limit is reached by older ones. |
| Store.Store.NextDeliveryDue | backend/internal/store/outbox.go:194-205 | The earliest due time of a pending row, or none if no row is pending. |
| Store.Store.SetRRCredits | backend/internal/store/runtime.go:133-147 | Exactly the named queues get these credits; nothing else of any queue changes. |
| Store.Store.SetQueuePaused | backend/internal/store/runtime.go:121-130 | Only the paused flag of one queue changes; its credit stays. |
| Runtime.ChargedColumn | backend/internal/store/runtime.go:132-147 | Saving credits overwrites the credit column for the named queues only and pauses nothing. |
| Executor.Executor.Pick | backend/internal/executor/executor.go:294-333 | The queue picked is configured and unpaused and holds a queued job; with its weight added its credit is the greatest, or as great and its name smaller, and the others keep theirs with their weight added; none is picked exactly if every queued job of a configured queue waits in a paused one, or the write fails, and then nothing changes. |
| Executor.WinnerPays | backend/internal/executor/executor.go:306-332 | The queue picked pays the weights of exactly the configured, unpaused queues that hold a queued job; no other row changes. |
| Executor.NobodyToPick | backend/internal/executor/executor.go:308-328 | There is nothing to pick from exactly if every queued job of a configured queue waits in a paused one. |
| Executor.Executor.CandidatesOf | backend/internal/executor/executor.go:308-324 | In whatever order the depths are walked, the candidate list names exactly the configured, unpaused queues that hold a queued job, with their configured weights and persisted credits. |
| Executor.Executor.Step | backend/internal/executor/executor.go:249-290 | Paused, blocked on auth, or blocked on usage up to the reset time, a step changes no job, no outbox row and no queue, and lifts nothing but a block whose time is up. Otherwise, if an unpaused configured queue holds a job and the writes succeed, it claims exactly one job, of the queue picked, with no more urgent one waiting there, and leaves exactly that row, the outbox, the gate, the pauses and the credential as the classified run calls for; if the claim fails the charge remains. |
| Executor.Executor.WaitAtGate | backend/internal/executor/executor.go:256-269 | A usage block sleeps no longer than to its reset time and is lifted then; every other shut gate is left alone. |
| Executor.Executor.Conclude | backend/internal/executor/run.go:51-149 | After a run: a blocking failure shuts the gate; the row goes back to queued exactly if it made no tool call and failed on auth, on usage, or while connectors were connecting with fewer than three attempts, and the write succeeds; anything else is finished with its notifications, and a missing capability pauses the queue; the whole new state of table, outbox, gate, pauses and credential. |
| Executor.DealtMeans | backend/internal/executor/run.go:51-149 | That new state, field by field: the job's row, the gate with its reset time, the credential and the pauses. |
| Executor.DealtTells | backend/internal/executor/run.go:118-213 | And the rows it adds to the outbox: at most one service event, once per incident, and for a finished job the event of its status to those it is routed to. |
| Executor.Executor.RequeueIfSafe | backend/internal/executor/run.go:67-90 | The job goes back to its queue exactly if it made no tool call, failed on auth, on usage, or while connectors were connecting with fewer than three attempts, and the write succeeds. |
| Executor.Executor.FinishJob | backend/internal/executor/run.go:118-149 | The result with one row per routed receiver, or nothing at all. |
| Executor.Executor.Block | backend/internal/executor/run.go:151-182 | A usage limit blocks until the reset time, or for an hour, and is announced once per incident. |
| Executor.Executor.RunJob | backend/internal/executor/run.go:25-116 | A job of a removed queue, or one that cannot start, fails; any other ends as its run is classified, and is queued again exactly if the run as observed calls for it; no job stays current. |
| Executor.Executor.Cancel | backend/internal/executor/executor.go:141-150 | Only the running job can be cancelled. |
| Executor.Executor.Recover | backend/internal/executor/executor.go:162-193 | After a crash no job is running, every queued job has a configured queue, all other rows are as they were, and each interrupted job is announced once per routed receiver; the jobs of removed queues are announced to nobody. |
| Recovery.RecoverIsARun | backend/internal/executor/executor.go:162-193 | What recovery does to the table and the outbox, a run of the lifecycle system does that begins with a start and ends with nobody left to notify. |
| Executor.Executor.NotifyJob | backend/internal/executor/executor.go:203-218 | Exactly the rows of the event that belongs to the job's status, if it has ended, to those it is routed to. |
| Reload.Reloader.ReloadIfChanged | backend/internal/executor/reload.go:67-111 | An unreadable, unchanged or invalid file changes nothing but the remembered hash; a valid one is adopted and fails exactly the queued jobs of the queues it drops, and adds no outbox row. |
| Reload.ReloadKeepsHoused | backend/internal/executor/reload.go:92-109 | If every queued job had a configured queue it still has one, exactly if each queue whose statement failed was empty; jobs of the queues that stay are untouched. |
| Homes.ReloadIsARun | backend/internal/executor/reload.go:84-109 | What that contract says of one call is a run of the protocol of reads, swaps and statements, whichever statements fail. |
| Homes.StrandsExactly | backend/internal/executor/reload.go:84-109 | A job comes to wait in a queue that is not configured, with no reload to fail it, exactly if it is inserted or put back there too late, if a reload that read the old definitions without its queue takes over new ones without it, or if the statement that should fail it fails; in every interleaving. |
| Homes.RescuesExactly | backend/internal/executor/reload.go:92-109 | Such a job stays queued through every step but a restart, its own cancellation, the return of its queue, or a claim by an executor that had picked the queue before; no later reload fails it. |
| Homes.StrandedExactly | backend/internal/executor/executor.go:308-317 | So in every run from a start a job is stranded at the end if and only if the last of these steps was one of the former. |
| Homes.EveryJobHasAHome | backend/internal/executor/reload.go:92-96 | At the end of every run that no reload is in the middle of, every queued job has a configured queue if and only if none is left stranded. |
| Homes.AloneStrands | backend/internal/executor/reload.go:54-62 | If reloads do not overlap, taking over new definitions strands nobody: exactly a late arrival or a failed statement does. |
| Homes.OnlyArrivalsAreStranded | backend/internal/executor/reload.go:54-109 | In every run without overlaps, late arrivals and failed statements nobody is stranded. |
| Homes.LateSubmissionIsStranded | backend/internal/api/jobs.go:40-83 | A run in which a submission is: its queue is dropped between the handler's check and its insert. |
| Homes.LateRequeueIsStranded | backend/internal/executor/run.go:76-82 | A run in which a requeued job is: its queue is dropped while it runs. |
| Homes.OverlapStrands | backend/cmd/spool/main.go:152-176 | A run in which a queued job is, because one reload overtakes another. |
| Api.Server.SubmitJob | backend/internal/api/jobs.go:40-102 | Accepted exactly if the queue is known, the body valid and the insert possible; a replayed key answers with the job that has it and wakes nobody; the reported position is the number of claims ahead. |
| Api.Server.CancelJob | backend/internal/api/jobs.go:187-235 | A running job is only flagged, through the executor; a queued one is cancelled and announced; anything else is a conflict. |
| Api.Server.RetryJob | backend/internal/api/jobs.go:268-293 | A child exactly of a failed, cancelled, interrupted or asking parent of a configured queue; a succeeded parent is refused. |
| Api.Server.ReplyJob | backend/internal/api/jobs.go:297-338 | A child that resumes the session exactly of a parent that asked for input and has one. |
| Recovery.SubmitIsAStep | backend/internal/api/jobs.go:62-83 | What these handlers do to table and outbox, runs of the lifecycle system do: a submission one step, accepted or not, |
| Recovery.RetryIsARun | backend/internal/api/jobs.go:268-293 | a retry two, reading the parent and inserting the child, |
| Recovery.ReplyIsARun | backend/internal/api/jobs.go:297-338 | a reply likewise, |
| Recovery.CancelIsARun | backend/internal/api/jobs.go:213-235 | and a cancellation two, the update and the notification. |
| Api.Server.SetPaused | backend/internal/api/queues.go:84-109 | One queue's flag, and a wake only when resuming. |
| Api.Server.PauseExecutor | backend/internal/api/queues.go:141-147 | The gate after the handler is the gate after its step of the protocol. |
| Api.Server.ResumeExecutor | backend/internal/api/queues.go:154-170 | Likewise; a gate blocked on auth is left alone. |
| LifecycleRuns.EndedForEver | backend/internal/store/outbox.go:100-108 | In every run, crashes included, a job that has ended never changes again, although the finishing update has no status guard. |
| LifecycleRuns.EveryChangeIsAnEdge | backend/internal/store/job.go:7-28 | Every status change in every run is an edge of the lifecycle graph, and no row disappears. |
| LifecycleRuns.AtMostOneRunning | backend/internal/executor/run.go:142-145 | At most one row is running in any run in which no finish write fails. |
| LifecycleRuns.AtMostOnceEffects | backend/internal/executor/run.go:57-90 | In every run a job is never claimed again after a tool call has been seen for it, so at most one of its executions has any. |
| LifecycleRuns.ToolCallsAreConserved | backend/internal/claudecli/classify.go:285-290 | The recorded tool_calls of an ended job, unless interrupted, is the number of tool calls of its whole life. |
| LifecycleSafety.StepKeepsHeld | backend/internal/executor/executor.go:249-290 | In every state the executor's job is running and in the table: the reason the unguarded finish is safe. |
| LifecycleRuns.FinishedJobIsPosted | backend/internal/store/outbox.go:73-114 | In every run a job finished by the executor has, from then on, at least one outbox row per receiver its routing selected; and exactly those rows if and only if no notification outside the executor ever announces it to anybody. |
| LifecycleRuns.AtMostOneRowPerReceiver | backend/internal/executor/executor.go:199-218 | In every run the rows of any job, however it ended, go to no receiver twice if and only if no step announces it to anybody when it has been announced already. |
| LifecycleOutbox.StepKeepsListed | backend/internal/executor/executor.go:195-218 | Every job still to be notified has ended unannounced and is listed once; exactly a removal breaks that for a job it selected, if it finds it, when it updates, claimed, announced or about to be announced. |
| LifecycleRuns.OnlyRemovalsRepeat | backend/internal/store/jobs.go:335-366 | A job is announced again only if a removal that selected it finds it, when it updates, claimed, announced or about to be announced. |
| LifecycleOutbox.StepOutbox | backend/internal/store/outbox.go:59-71 | Every step adds exactly the rows of the announcement it makes, and no step takes a job's row away. |
| LifecycleOutbox.OnceUnlessRepeated | backend/internal/executor/executor.go:199-218 | While a job's rows go to nobody twice, a step changes that exactly if it announces to somebody a job already announced. |
| LifecycleRuns.JobEventsAreTrue | backend/internal/event/notifier.go:42-48 | In every run a row about a job says job.succeeded exactly if the job has succeeded, and so on for failed, needs_input, interrupted and cancelled; a job that has not ended has none. |
| LifecycleRuns.DisturbedRemovalAnnouncesTwice | backend/internal/store/jobs.go:337-366 | A run in which another reload brings the queue back between the two statements and a selected job is cancelled, and one receiver is sent the same event twice. |
| LifecycleRuns.FinishedJobAnnouncedTwice | backend/internal/store/jobs.go:337-366 | A run in which it is then claimed and finished by the executor, and one receiver is sent the same event twice. |
| LifecycleRuns.ReplaysNameOneJob | backend/internal/store/jobs.go:83-115 | In every run all answers to the same queue and non-empty key name one job, which is in the table under that key. |
| LifecycleLineage.StepKeepsKeyed | backend/internal/store/jobs.go:83-115 | Every step keeps at most one row per queue and non-empty key, and every answer ever given true of its row. |
| LifecycleLineage.StepKeepsRooted | backend/internal/api/jobs.go:266-338 | Every step keeps each child younger than its parent, in its queue, with its priority and, unless a reply, its input, and each parent ended without success; a reply's parent asked for input and lends its session. |
| LifecycleRuns.ParentsStayEnded | backend/internal/api/jobs.go:266-338 | In every run a job's parent has ended without success and never changes from then on; the job has its queue and priority, and its input too, unless it is a reply, which resumes its session. |
| LifecycleRuns.LineageIsAForest | backend/internal/store/jobs.go:392-411 | In every run climbing parent links never comes back to a job already passed. |
| LifecycleLineage.NoCycle | backend/internal/store/jobs.go:392-411 | Climbing parent links always leads to an earlier creation, so the links form a forest. |
| LifecycleLineage.StepKeepsStamps | backend/internal/store/jobs.go:271-333 | Exactly the ended jobs carry a finish time; a queued job carries no start time. |
| LifecycleBudget.AtMostThreeClaims | backend/internal/executor/run.go:79-90 | With no submissions and no auth or usage failures no job is claimed more than three times, from any reachable state. |
| LifecycleBudget.ClaimsTerminate | backend/internal/executor/executor.go:36-38 | In such a run the claims made and the budgets left never exceed the budgets at the start: scheduling terminates. |
| Refinement.TurnIsARun | backend/internal/executor/run.go:25-149 | Exactly what the executor's step does to the table and the outbox is done by a run of the lifecycle system, however the job goes and whichever writes fail. |
| Refinement.PickIsLegal | backend/internal/executor/executor.go:306-332 | Every pick, whatever the jobs, pauses and configuration, is a round that the fairness theorems cover. |
| Refinement.PauseTouches | backend/internal/store/runtime.go:121-130 | Pausing or resuming a queue leaves every stored credit as it is. |
| Refinement.SchedulesFairly | backend/internal/store/runtime.go:121-147 | Over any run of picks, pauses, resumptions and restarts on the stored rows, the picks are a run of the fairness model and end with its credits. |
| Refinement.SchedulingIsFair | backend/internal/executor/executor.go:292-333 | So from a new database every stored credit stays within M(n-1) and no queue starves, through all of these. |
| RetryWindow.BackoffDoubles | backend/internal/webhook/sender.go:214-225 | Ten seconds, doubled per attempt up to the ninth; an hour from the tenth on. |
| RetryWindow.BackoffGrows | backend/internal/webhook/sender.go:212-225 | Backoff never shrinks. |
| RetryWindow.ScheduledAdds | backend/internal/webhook/sender.go:228-236 | What n attempts wait in all, in closed form: 10 s · (2^n - 1) up to the ninth, and an hour for each further one. |
| RetryWindow.MaxAttempts | backend/internal/webhook/sender.go:228-237 | The result is the least number of attempts below 1000 whose backoffs reach the window, else 1000. |
| RetryWindow.WaitingFitsTheWindow | backend/internal/webhook/sender.go:144-147 | The waiting before the last attempt is below the window exactly if the window is positive. |
| Outbox.RunTells | backend/internal/webhook/sender.go:131-160 | In every run of deliveries and enqueues each row counts its written attempts, is delivered exactly if one was accepted, and is otherwise pending until they exhaust the window and dead from then on. |
| Outbox.DeadAtTheLimit | backend/internal/webhook/sender.go:144-154 | A row is never tried more often than the limit, and is dead exactly if it was tried that often without success. |
| Outbox.RetriesKeepTheirDistance | backend/internal/webhook/sender.go:146-158 | A retry is never made before the backoff of the last attempt is over. |
| Outbox.SettledForEver | backend/internal/store/outbox.go:14-19 | In every run a delivered or dead row is never posted again and never changes. |
| Outbox.Drained | backend/internal/webhook/sender.go:103-129 | At a fixed clock with successful writes, c steps post exactly the first 20c due rows, in order, and leave exactly the rest due. |
| Outbox.DrainedEmpty | backend/internal/webhook/sender.go:103-129 | So as many steps as twenties of due rows leave none, each posted exactly once. |
| Sender.Sender.Step | backend/internal/webhook/sender.go:103-129 | One batch of the delivery model, cut short by shutdown; with nothing due, a sleep that never passes a pending row's due time and never exceeds the poll. |
| Sender.Sender.Deliver | backend/internal/webhook/sender.go:131-160 | The row becomes what the delivery model says of this attempt. |
| Sender.Sender.SleepFor | backend/internal/webhook/sender.go:108-121 | The sleep ends exactly at the earliest due time if that is nearer than the poll, and is zero only if a row is due. |
| ClaudeLock.MutualExclusion | backend/internal/claudecli/lock.go:29-87 | In every interleaving at most one call owns the mutex, it is locked exactly if one does, and a recorded name is the owner's. |
| ClaudeLock.OthersCannotFree | backend/internal/claudecli/lock.go:39-57 | No step of any other call, stale releases and abandoned winners included, takes the lock from its owner or alters the record. |
| ClaudeLock.NothingLeaks | backend/internal/claudecli/lock.go:39-46 | When every call is over the lock is free. |
| ClaudeLock.NoDeadlock | backend/internal/claudecli/lock.go:29-57 | Unless every call is over, one can move on; only a release by a holder is ever awaited. |
| ClaudeLock.RunsAreFinite | backend/internal/claudecli/lock.go:29-72 | Once no call begins, every interleaving is over within the steps the calls have left. |
| ClaudeLock.Lock.TryAcquire | backend/internal/claudecli/lock.go:60-72 | Succeeds exactly if the lock is free, by these steps of the protocol. |
| ClaudeLock.Lock.Acquire | backend/internal/claudecli/lock.go:29-57 | Recorded and held once the lock is free, at once or when a holder lets go; if the context is done first, nothing is taken, and the goroutine left behind hands the lock back when it gets it. |
| ClaudeLock.ReleaseFunc.Invoke | backend/internal/claudecli/lock.go:50-56 | The first call frees the lock; any later call changes nothing, whoever holds it. |
| Login.AtMostOneUnfinished | backend/internal/auth/login.go:64-134 | However StartLogin races itself, requests and timers, at most one attempt is unfinished or not yet releasing, and it alone owns the lock. |
| Login.ReleasedAtMostOnce | backend/internal/auth/login.go:299-321 | In every run the release of an attempt's lock is called at most once. |
| Login.FinishedForEver | backend/internal/auth/login.go:301-308 | A finished attempt stays finished, and finishing it again does nothing. |
| Login.TeardownProceeds | backend/internal/auth/login.go:300-328 | An attempt that is not torn down has a next step that brings it nearer to that. |
| Login.NothingSetsBack | backend/internal/auth/login.go:300-328 | No step of anybody takes an attempt further from its end. |
| Login.TeardownEnds | backend/internal/auth/login.go:300-328 | So within the steps left, at most five, its own steps bring any attempt to its end. |
| Login.StaleArises | backend/internal/auth/login.go:118-127 | The manager comes to point at a torn-down attempt exactly when StartLogin stores one. |
| Login.StaleStays | backend/internal/auth/login.go:300-339 | Nothing but storing another attempt clears it. |
| Login.NeverStale | backend/internal/auth/login.go:109-127 | In every run from idle in which each attempt is stored before its teardown is over, the manager never points at a torn-down attempt. |
| Login.LateRegistrationIsStale | backend/internal/auth/login.go:109-127 | A run in which it happens, with the lock free. |
| Gates.GuardBreaks | backend/internal/auth/manager.go:364-388 | That an expired credential implies a gate blocked on auth survives every operation except exactly: a pause, a usage block or a late resume while expired, and a failed block. |
| Gates.NoClaimWhileExpired | backend/internal/executor/executor.go:249-290 | In runs without those, nothing is claimed while the credential is known to have expired. |
| Gates.PauseAndResumeOpenTheGate | backend/internal/api/queues.go:141-170 | Otherwise something is: expiry, pause and resume, then a claim. |
| Gates.BlockEnds | backend/internal/auth/manager.go:337-360 | Exactly these operations end an auth block: a successful transition to OK, a pause, a usage block, a late resume. |
| Gates.BlockedStretch | backend/internal/store/runtime.go:31-39 | Until one of them nothing is claimed, through any number of restarts. (Submissions are accepted meanwhile by the definition of that step; that the handler never looks at the gate is the contract of Api.Server.SubmitJob.) |
| Gates.ClaimsExactly | backend/internal/store/runtime.go:31-39 | A look at the gate lets a job be claimed exactly if it is ready, or blocked on usage past the reset time; it lifts a block exactly at the reset time. |
| Gates.ShutStretch | backend/internal/executor/executor.go:249-269 | While the gate is not ready and no operation writes it, nor a usage block's time comes, nothing is claimed in any run, restarts included. |
| Gates.NothingWhilePaused | backend/internal/api/queues.go:141-147 | So from a successful pause until an operation writes the gate, |
| Gates.NothingBeforeTheReset | backend/internal/executor/run.go:151-167 | and from a usage limit until its reset time, or for an hour if none is known. |
| Gates.RestoredClosesAnIncident | backend/internal/auth/manager.go:335-360 | In every run, restarts included, each auth.restored has an auth.required of its own before it. |
| Gates.RequiredOncePerIncident | backend/internal/auth/manager.go:362-388 | Between two auth.required the credential was seen to work or the process restarted. |
| Gates.IncidentCloses | backend/internal/auth/manager.go:337-360 | An open incident is closed exactly by a transition to OK that finds something to restore and can. |
| Gates.HiddenArises | backend/internal/auth/manager.go:335-360 | An open incident becomes hidden (the credential not known to have expired any more) exactly when, the credential being known to have expired, a probe sees it work, the process restarts, or a transition to OK restores nothing. |
| Gates.HiddenEnds | backend/internal/auth/manager.go:335-388 | And it stays so until exactly another observed expiry, or a transition to OK that lifts the block. |
| Gates.EventsAlternate | backend/internal/auth/manager.go:335-388 | In every run auth.required and auth.restored alternate if and only if no expiry is observed while an incident is hidden, told from the credential and the gate alone. |
| Gates.RequiredTwiceWithoutRestored | backend/internal/auth/manager.go:248-249 | A run in which one is: a probe sees the credential work and restores nothing. |
| Auth.Manager.ObserveExpired | backend/internal/auth/manager.go:364-388 | The manager, the gate and the outbox after it are those of the protocol's step; one event per incident. |
| Auth.Manager.TransitionToOK | backend/internal/auth/manager.go:337-360 | Likewise; it reports exactly whether it announced and woke. |
| Auth.Manager.KeepaliveDue | backend/internal/auth/manager.go:182-220 | Never during a login or while expired; else exactly if no job and no check is recent. |
| Auth.Manager.FinishAttempt | backend/internal/auth/login.go:300-328 | The first call frees the lock and makes the manager forget the attempt; any other changes nothing. |
| Auth.Manager.StartLogin | backend/internal/auth/login.go:64-134 | A live attempt is returned as it is; busy exactly if the lock is not won in time, whoever has it; a new attempt holds the lock, unless its timer fired before it was stored; a failure after the lock was won leaves it free. |
| Auth.Manager.SubmitCode | backend/internal/auth/login.go:182-232 | Which of the five answers, and that after any verdict the attempt is gone and the lock free; only success touches credential, gate and outbox, and exactly how. |
| Auth.LoginRestores | backend/internal/auth/login.go:213-231 | A completed login leaves the credential good and the gate unblocked, and says exactly when it announces auth.restored. |
| Auth.SilentLogin | backend/internal/auth/login.go:226-229 | A login that does not: the executor was paused over the block, and its probe hid the expiry. |
| Wake.NoLostWakeup | backend/internal/executor/executor.go:220-290 | In every interleaving, the loop is parked with an empty slot while a job could be claimed only if a handler that made it so has still to call Wake. |
| Wake.MissedArises | backend/internal/executor/executor.go:220-290 | The loop comes to sleep on a claimable job whose submitter's Wake has returned exactly by a step that resumes the job's queue, or the executor, while it is asleep. |
| Wake.SubmittersWakeSuffices | backend/internal/api/jobs.go:92-97 | In every run without such a step the submitter's own Wake is enough. |
| Wake.SubmittersWakeIsNotEnough | backend/internal/api/queues.go:84-103 | A run from the start in which it is not. |
| Wake.LookClaims | backend/internal/executor/executor.go:249-290 | An undisturbed look at the store while a job is available ends in a claim. |
| Wake.WakesArePaidFor | backend/internal/executor/executor.go:220-245 | In every run the loop is woken no more often than handlers have called Wake; calls made while one is pending count once. |
| Wake.LooksOnlyWhenOpen | backend/internal/executor/executor.go:249-269 | The loop goes on to the queues exactly if the gate is ready or past a usage block, and sleeps exactly at any other gate but one to be lifted. |
| Wake.PauseTakesEffect | backend/internal/api/queues.go:84-103 | From the pause of a queue until it is resumed at most one of its jobs is claimed, in every interleaving, and that one only if the loop had picked the queue when it was paused. |

## Left out

- Sched.Pick: promises nothing of a list that names a queue twice, which the executor never builds.
- Sched.Pick: weights and credits are reals; floating-point rounding is not modelled.
- LifecycleRuns.OnlyRemovalsRepeat: one way only; a disturbed removal is harmless if the queue is still gone, or the job still runs, when its notification is attempted. The two-way conditions are in the lemmas above it.
- Gates.RestoredClosesAnIncident: each manager operation is one step; a crash or another manager operation between its two writes is not modelled, nor is an event that could not be enqueued.
- Wake.NoLostWakeup: store errors and reloads are not part of this protocol; a queue added by a reload is found by the idle poll.
- Outbox.Drained: rows added during the drain are not part of the statement.
- Login.TeardownEnds: that threads are eventually scheduled is not modelled.
- Gates.BlockedStretch: that a submission succeeds is part of the model's Submit step.
- ClaudeLock.Lock.Acquire: how a wait ends (a holder lets go, or the context is done) is an input; other waiters are covered by the protocol only.
- Executor.Executor.RunJob: preparing directories, waiting for the lock and starting the subprocess are one input, which may fail.
- Executor.Executor.Recover: the order of the announcements is not stated.
- Auth.Manager.KeepaliveDue: the last recorded check is an input; the table of auth events is not part of this model.
- Reload.Reloader.ReloadIfChanged: one call that nothing interrupts; how reloads, handlers and the executor interleave is in module Homes.
- Reload.ReloadKeepsHoused: likewise; Homes.StrandsExactly says what arrivals and other reloads do meanwhile.
- Homes.EveryJobHasAHome: a start that fails half way through its recovery is not a step, nor are edits of the file between the start's two readings of it.
- The executor without an auth manager (its own auth branch of `block`): the program always installs one.
- Receivers are fixed over a run; the program reads them once at startup.
- Notification outside the executor reads the job and enqueues its rows in one step; a crash in between loses it either way.
- Times are whole milliseconds, as stored.
- What texts mean: the regular expressions that recognise auth failures, usage limits and denials are flags of the input, and so are capability checks.
- Signal escalation, PTY handling, files, transcripts and their pruning: input and output.
- HTTP, JSON, YAML, tokens, HMAC signatures, SSE and metrics: thin or library code.
- Job columns that no decision reads: model, labels, cost, summary, rendered prompt, configuration hash.
- SQLite itself: a statement or transaction is atomic, and one that fails changes nothing.
