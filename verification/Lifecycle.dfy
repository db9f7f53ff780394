// The durable job lifecycle as one step system. Every SQL statement or
// transaction, every change to in-memory executor state and every goroutine
// hand-over is one atomic step; a crash may fall between any two of them.
module Lifecycle {
  import opened Jobs
  import opened Events
  import C = Classify

  // Where the single executor goroutine is with the job it claimed.
  datatype Phase =
    | Idle
    | Claimed(id: string)
    | Live(id: string, tools: nat, cancelled: bool)
    | Ended(id: string, result: Result)
    | Finishing(id: string, result: Result, route: seq<string>)
  {
    function InFlight(): set<string> { if Idle? then {} else {id} }
  }

  // History, for stating what happens over a whole run.
  datatype Entry =
    | ClaimedJob(id: string)
    | UsedTool(id: string)
    | FinishedJob(id: string, status: Status, route: seq<string>)
    | Answered(queue: string, key: string, id: string)

  // FailQueued between its SELECT and its UPDATE.
  datatype Removal = Removal(queue: string, selected: set<string>)

  // Durable: jobs, outbox. In memory, lost by a crash: queues, exec, notices
  // (jobs ended outside the executor and not yet notified), removals, parents
  // and replies (handlers that have read a parent and not yet inserted the
  // child). History: orphans (rows left running with no executor behind them),
  // born, log.
  datatype Sys = Sys(
    up: bool, jobs: Table, outbox: seq<Row>, queues: QueueSet, hooks: seq<Webhook>,
    exec: Phase, notices: multiset<string>, removals: multiset<Removal>,
    parents: set<string>, replies: set<string>,
    orphans: set<string>, born: map<string, nat>, log: seq<Entry>)

  // HTTP handlers. ReadParent and Retry (ReadAsked and Reply) are the two ends
  // of one handler: it reads the parent, and inserts the child later.
  datatype ApiAction =
    | Submit(id: string, queue: string, priority: int, input: string, key: string)
    | ReadParent(parent: string)
    | ReadAsked(parent: string)
    | Retry(parent: string, id: string)
    | Reply(parent: string, id: string, input: string)
    | CancelQueued(id: string, now: int)
    | CancelRunning(id: string)

  // The executor goroutine.
  datatype ExecAction =
    | Claim(queue: string, id: string, now: int)
    | SetupFails(kind: ErrorKind)
    | Start
    | Tool
    | Exit(run: C.Run)
    | Requeue
    | Decide
    | Finish(now: int)
    | FinishFails

  // Queue removal, notification outside the executor, and the sender's writes.
  datatype NoticeAction =
    | SelectQueued(queue: string)
    | FailSelected(removal: Removal, now: int)
    | AbandonSelected(removal: Removal)
    | Notify(id: string, now: int)
    | DropNotice(id: string)
    | ServiceEvent(event: EventType, queue: string, now: int)
    | Deliver(row: nat, attempts: nat, nextAt: int, state: RowState)

  datatype Action =
    | Api(api: ApiAction)
    | Exec(exec: ExecAction)
    | Notice(notice: NoticeAction)
    | Reload(queues: QueueSet)
    | Crash
    | Boot(queues: QueueSet, now: int)

  ghost predicate ApiEnabled(s: Sys, a: ApiAction)
  {
    match a
    case Submit(id, _, _, _, _) => id != ""
    case ReadParent(p) => p in s.jobs && s.jobs[p].status.Retryable()
    case ReadAsked(p) => p in s.jobs && s.jobs[p].status == NeedsInput && s.jobs[p].sessionId != ""
    case Retry(p, id) => p in s.parents && p in s.jobs && id != ""
    case Reply(p, id, _) => p in s.replies && p in s.jobs && id != ""
    case CancelQueued(id, _) => id in s.jobs && s.jobs[id].status == Queued
    case CancelRunning(id) => s.exec.Live? && s.exec.id == id
  }

  ghost predicate ExecEnabled(s: Sys, a: ExecAction)
  {
    match a
    case Claim(q, id, _) => s.exec.Idle? && IsHead(s.jobs, q, id)
    case SetupFails(kind) => s.exec.Claimed? && (kind == QueueRemoved || kind == CliError) && s.exec.id in s.jobs
    case Start => s.exec.Claimed?
    case Tool => s.exec.Live?
    case Exit(run) => s.exec.Live? && run.toolCalls == s.exec.tools && run.cancelled == s.exec.cancelled
    case Requeue => s.exec.Ended? && s.exec.id in s.jobs && s.jobs[s.exec.id].status == Running
                    && C.MayRequeue(s.jobs[s.exec.id].attempts, s.exec.result)
    case Decide => s.exec.Ended? && s.exec.id in s.jobs
    case Finish(_) => s.exec.Finishing? && s.exec.id in s.jobs
    case FinishFails => s.exec.Finishing?
  }

  ghost predicate NoticeEnabled(s: Sys, a: NoticeAction)
  {
    match a
    case SelectQueued(q) => Waiting(s.jobs, q) != {}
    case FailSelected(r, _) => r in s.removals
    case AbandonSelected(r) => r in s.removals
    case Notify(id, _) => id in s.notices
    case DropNotice(id) => id in s.notices
    case ServiceEvent(t, _, _) => t.IsService()
    case Deliver(k, _, _, _) => k < |s.outbox|
  }

  // A file without queues is refused, at the start and by a reload.
  ghost predicate Enabled(s: Sys, a: Action)
  {
    match a
    case Api(x) => s.up && ApiEnabled(s, x)
    case Exec(x) => s.up && ExecEnabled(s, x)
    case Notice(x) => s.up && NoticeEnabled(s, x)
    case Reload(queues) => s.up && queues != map[]
    case Crash => s.up
    case Boot(queues, _) => !s.up && queues != map[]
  }

  // A crash loses everything in memory; a job in flight stays marked running.
  ghost function Crashed(s: Sys): Sys
  {
    s.(up := false, exec := Idle, notices := multiset{}, removals := multiset{}, parents := {}, replies := {},
       orphans := s.orphans + s.exec.InFlight())
  }

  // The row that already has an idempotency key.
  ghost function KeyHolder(jobs: Table, queue: string, key: string): (id: string)
    requires KeyTaken(jobs, queue, key)
    ensures id in jobs && jobs[id].queue == queue && jobs[id].key == key
  {
    var id :| id in jobs && jobs[id].queue == queue && jobs[id].key == key; id
  }

  // Insert: a replayed key answers with the row that has it; any other refused
  // insert is an error and changes nothing.
  ghost function Created(s: Sys, id: string, j: Job): Sys
  {
    if Insertable(s.jobs, id, j) then
      s.(jobs := s.jobs[id := j], born := s.born[id := |s.born|],
         log := s.log + [Answered(j.queue, j.key, id)])
    else if KeyTaken(s.jobs, j.queue, j.key) then
      s.(log := s.log + [Answered(j.queue, j.key, KeyHolder(s.jobs, j.queue, j.key))])
    else s
  }

  ghost function JobRows(id: string, j: Job, route: seq<string>, now: int): seq<Row>
  {
    match ForStatus(j.status)
    case None => []
    case Some(t) => Rows(route, t, j.queue, id, now)
  }

  // Finish and notification in one transaction; WHERE id = ? and nothing more.
  ghost function FinishCommitted(s: Sys, now: int): Sys
    requires s.exec.Finishing? && s.exec.id in s.jobs
  {
    var id, r, route := s.exec.id, s.exec.result, s.exec.route;
    var jobs := Jobs.Finished(s.jobs, id, r, now);
    s.(jobs := jobs, outbox := s.outbox + JobRows(id, jobs[id], route, now), exec := Idle,
       log := s.log + [FinishedJob(id, r.status, route)])
  }

  // notifyJob: load the job, and enqueue its event if it has one.
  ghost function Notified(s: Sys, id: string, now: int): Sys
  {
    var t := s.(notices := s.notices - multiset{id});
    if id in s.jobs && s.jobs[id].status.Terminal() then
      var j := s.jobs[id];
      t.(outbox := s.outbox + JobRows(id, j, EndRoute(s.queues, s.hooks, j.queue, j.status), now))
    else t
  }

  ghost function ApiStep(s: Sys, a: ApiAction): Sys
  {
    if !ApiEnabled(s, a) then s else
    match a
    case Submit(id, q, priority, input, key) => Created(s, id, NewJob(q, priority, input, key))
    case ReadParent(p) => s.(parents := s.parents + {p})
    case ReadAsked(p) => s.(replies := s.replies + {p})
    case Retry(p, id) => Created(s.(parents := s.parents - {p}), id, Jobs.NewChild(s.jobs[p], p))
    case Reply(p, id, input) => Created(s.(replies := s.replies - {p}), id, Jobs.ReplyChild(s.jobs[p], p, input))
    case CancelQueued(id, now) =>
      s.(jobs := s.jobs[id := CancelRow(s.jobs[id], now)], notices := s.notices + multiset{id})
    case CancelRunning(id) => s.(exec := s.exec.(cancelled := true))
  }

  ghost function ExecStep(s: Sys, a: ExecAction): Sys
  {
    if !ExecEnabled(s, a) then s else
    match a
    case Claim(q, id, now) =>
      s.(jobs := s.jobs[id := ClaimRow(s.jobs[id], now)], exec := Phase.Claimed(id), log := s.log + [ClaimedJob(id)])
    case SetupFails(kind) =>
      s.(exec := Finishing(s.exec.id, Result(Failed, kind, "", 0),
                           EndRoute(s.queues, s.hooks, s.jobs[s.exec.id].queue, Failed)))
    case Start => s.(exec := Live(s.exec.id, 0, false))
    case Tool => s.(exec := s.exec.(tools := s.exec.tools + 1), log := s.log + [UsedTool(s.exec.id)])
    case Exit(run) => s.(exec := Ended(s.exec.id, C.Classify(run)))
    case Requeue => s.(jobs := s.jobs[s.exec.id := RequeueRow(s.jobs[s.exec.id])], exec := Idle)
    case Decide =>
      s.(exec := Finishing(s.exec.id, s.exec.result,
                           EndRoute(s.queues, s.hooks, s.jobs[s.exec.id].queue, s.exec.result.status)))
    case Finish(now) => FinishCommitted(s, now)
    case FinishFails => s.(exec := Idle, orphans := s.orphans + {s.exec.id})
  }

  ghost function NoticeStep(s: Sys, a: NoticeAction): Sys
  {
    if !NoticeEnabled(s, a) then s else
    match a
    case SelectQueued(q) => s.(removals := s.removals + multiset{Removal(q, Waiting(s.jobs, q))})
    case FailSelected(r, now) =>
      s.(jobs := QueueFailed(s.jobs, r.queue, QueueRemoved, now), removals := s.removals - multiset{r},
         notices := s.notices + multiset(r.selected))
    case AbandonSelected(r) => s.(removals := s.removals - multiset{r})
    case Notify(id, now) => Notified(s, id, now)
    case DropNotice(id) => s.(notices := s.notices - multiset{id})
    case ServiceEvent(t, q, now) => s.(outbox := s.outbox + Rows(Route(s.queues, s.hooks, q, t), t, q, "", now))
    case Deliver(k, attempts, nextAt, state) =>
      s.(outbox := s.outbox[k := s.outbox[k].(attempts := attempts, nextAt := nextAt, state := state)])
  }

  ghost function Booted(s: Sys, queues: QueueSet, now: int): Sys
  {
    s.(up := true, queues := queues, jobs := Jobs.Recovered(s.jobs, now),
       notices := multiset(RunningRows(s.jobs)), orphans := {})
  }

  ghost function Step(s: Sys, a: Action): Sys
  {
    match a
    case Api(x) => ApiStep(s, x)
    case Exec(x) => ExecStep(s, x)
    case Notice(x) => NoticeStep(s, x)
    case Reload(queues) => s.(queues := queues)
    case Crash => Crashed(s)
    case Boot(queues, now) => Booted(s, queues, now)
  }

  // A new database, not yet booted.
  ghost function Fresh(hooks: seq<Webhook>): Sys
  {
    Sys(false, map[], [], map[], hooks, Idle, multiset{}, multiset{}, {}, {}, {}, map[], [])
  }

  ghost predicate Run(s: Sys, run: seq<Action>)
    decreases |run|
  {
    run == [] || (Enabled(s, run[0]) && Run(Step(s, run[0]), run[1..]))
  }

  ghost function After(s: Sys, run: seq<Action>): Sys
    decreases |run|
  {
    if run == [] then s else After(Step(s, run[0]), run[1..])
  }
}
