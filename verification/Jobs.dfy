// backend/internal/store: the jobs table, one statement at a time.
module Jobs {
  import opened Order

  datatype Option<T> = None | Some(value: T)

  datatype Status = Queued | Running | Succeeded | Failed | NeedsInput | Cancelled | Interrupted
  {
    predicate Terminal() { this != Queued && this != Running }

    // A succeeded job is excluded: retrying it would repeat its side effects.
    predicate Retryable() { this == Failed || this == NeedsInput || this == Cancelled || this == Interrupted }
  }

  datatype ErrorKind =
    | NoError | Auth | UsageLimit | CapabilityMissing | CapabilityPending | MaxTurns
    | Timeout | CliError | QueueRemoved | InvalidOutcome | Restarted
  {
    predicate Blocking() { this == Auth || this == UsageLimit }
  }

  // Timestamps are milliseconds; an empty key, parent or session is NULL.
  datatype Job = Job(queue: string, status: Status, priority: int, input: string, key: string,
                     parent: string, resume: string, attempts: nat,
                     startedAt: Option<int>, finishedAt: Option<int>,
                     errorKind: ErrorKind, sessionId: string, toolCalls: nat)

  // What the executor learned from one run.
  datatype Result = Result(status: Status, errorKind: ErrorKind, sessionId: string, toolCalls: nat)

  // Rows by id.
  type Table = map<string, Job>

  // ----- the head of a queue -----

  predicate InQueue(jobs: Table, queue: string, id: string)
  {
    id in jobs && jobs[id].queue == queue && jobs[id].status == Queued
  }

  function Waiting(jobs: Table, queue: string): set<string>
  {
    set id | id in jobs && InQueue(jobs, queue, id)
  }

  // ORDER BY priority DESC, id ASC
  predicate Before(jobs: Table, a: string, b: string)
    requires a in jobs && b in jobs
  {
    || jobs[a].priority > jobs[b].priority
    || (jobs[a].priority == jobs[b].priority && Less(a, b))
  }

  predicate IsHead(jobs: Table, queue: string, id: string)
  {
    && InQueue(jobs, queue, id)
    && forall other | other in Waiting(jobs, queue) && other != id :: Before(jobs, id, other)
  }

  // ----- effects of the statements -----

  // UNIQUE (queue, idempotency_key); NULL keys never collide.
  predicate KeyTaken(jobs: Table, queue: string, key: string)
  {
    key != "" && exists id :: id in jobs && jobs[id].queue == queue && jobs[id].key == key
  }

  // The primary key is free, the idempotency key is free, and the parent exists.
  predicate Insertable(jobs: Table, id: string, j: Job)
  {
    id !in jobs && !KeyTaken(jobs, j.queue, j.key) && (j.parent == "" || j.parent in jobs)
  }

  function ClaimRow(j: Job, now: int): Job
  {
    j.(status := Running, startedAt := Some(now), attempts := j.attempts + 1)
  }

  function RequeueRow(j: Job): Job { j.(status := Queued, startedAt := None) }

  function CancelRow(j: Job, now: int): Job { j.(status := Cancelled, finishedAt := Some(now)) }

  function FinishRow(j: Job, r: Result, now: int): Job
  {
    j.(status := r.status, finishedAt := Some(now), errorKind := r.errorKind,
       sessionId := r.sessionId, toolCalls := r.toolCalls)
  }

  function InterruptRow(j: Job, now: int): Job
  {
    j.(status := Interrupted, finishedAt := Some(now), errorKind := Restarted)
  }

  function FailRow(j: Job, kind: ErrorKind, now: int): Job
  {
    j.(status := Failed, finishedAt := Some(now), errorKind := kind)
  }

  // UPDATE ... WHERE status = 'running', at startup.
  function Recovered(jobs: Table, now: int): Table
  {
    map id | id in jobs :: if jobs[id].status == Running then InterruptRow(jobs[id], now) else jobs[id]
  }

  // UPDATE ... WHERE queue = ? AND status = 'queued'.
  function QueueFailed(jobs: Table, queue: string, kind: ErrorKind, now: int): Table
  {
    map id | id in jobs :: if InQueue(jobs, queue, id) then FailRow(jobs[id], kind, now) else jobs[id]
  }

  // UPDATE ... WHERE id = ?, with no guard on the status.
  function Finished(jobs: Table, id: string, r: Result, now: int): Table
  {
    if id in jobs then jobs[id := FinishRow(jobs[id], r, now)] else jobs
  }

  function RunningRows(jobs: Table): set<string>
  {
    set id | id in jobs && jobs[id].status == Running
  }

  // A submission, as submitJob builds it.
  function NewJob(queue: string, priority: int, input: string, key: string): Job
  {
    Job(queue, Queued, priority, input, key, "", "", 0, None, None, NoError, "", 0)
  }

  // The follow-up a retry or a reply creates.
  function NewChild(parent: Job, parentId: string): Job
  {
    Job(parent.queue, Queued, parent.priority, parent.input, "", parentId, "", 0, None, None, NoError, "", 0)
  }

  // A reply's text is the prompt, and it resumes the parent's session.
  function ReplyChild(parent: Job, parentId: string, input: string): Job
  {
    NewChild(parent, parentId).(input := input, resume := parent.sessionId)
  }

  // ----- the lifecycle graph of the design -----

  predicate Edge(from: Status, to: Status)
  {
    || from == to
    || (from == Queued && (to == Running || to == Cancelled || to == Failed))
    || (from == Running && (to == Queued || to.Terminal()))
  }
}
