// backend/internal/executor: the one goroutine that runs jobs, its scheduling
// decision, what it does with a finished run, and what it does at startup. The
// subprocess, the clock and the success of each write are inputs.
module Executor {
  import opened Jobs
  import opened Events
  import C = Classify
  import R = Runtime
  import S = Store
  import G = Gates
  import A = Auth
  import Claims
  import Credits
  import Sched
  import opened Order
  import Fairness
  import Lifecycle
  import LifecycleOutbox

  const IDLE_POLL := 30_000

  // The live queue definitions, swapped atomically.
  class Definitions {
    var queues: QueueSet

    constructor (queues: QueueSet)
      ensures this.queues == queues
    {
      this.queues := queues;
    }
  }

  // The weights of the queues that are configured, unpaused and hold work.
  ghost function Eligible(jobs: Jobs.Table, runtime: R.Table, queues: QueueSet): Credits.Table
  {
    map q | q in queues && Waiting(jobs, q) != {} && !R.Of(runtime, q).paused :: queues[q].weight
  }

  // What runJob does to the row of the job it was given.
  ghost function Concluded(j: Job, res: Result, now: int, requeue: bool, finish: bool): Job
  {
    if C.MayRequeue(j.attempts, res) && requeue then RequeueRow(j)
    else if finish then FinishRow(j, res, now)
    else j
  }

  // Whether each of runJob's writes succeeds, and whether the events it emits
  // are enqueued.
  datatype Writes = Writes(gate: bool, requeue: bool, pause: bool, finish: bool, enqueue: bool)

  // How the run went: it could not be started, or the subprocess ended.
  datatype Execution = SetupFailed | Ran(run: C.Run, resetAt: Option<int>)

  // How a claimed job ends up classified.
  function ResultOf(queues: QueueSet, job: Job, ex: Execution): (r: Result)
    ensures r.status.Terminal()
  {
    if job.queue !in queues then Result(Failed, QueueRemoved, "", 0)
    else if ex.SetupFailed? then Result(Failed, CliError, "", 0)
    else C.Classify(ex.run)
  }

  // What the executor adds to the outbox for the job.
  ghost function Announced(queues: QueueSet, hooks: seq<Webhook>, id: string, job: Job, res: Result, now: int,
                           w: Writes): seq<Row>
  {
    if (C.MayRequeue(job.attempts, res) && w.requeue) || !w.finish then []
    else Lifecycle.JobRows(id, FinishRow(job, res, now), EndRoute(queues, hooks, job.queue, res.status), now)
  }

  // ----- what a finished run does to everything else -----

  ghost function UsageRows(hooks: seq<Webhook>, was: R.Gate, now: int, w: Writes): seq<Row>
  {
    if w.gate && w.enqueue && was.state != R.BlockedUsage
    then Rows(Route(map[], hooks, "", BlockedUsage), BlockedUsage, "", "", now) else []
  }

  ghost function PauseRows(hooks: seq<Webhook>, queue: string, now: int, w: Writes): seq<Row>
  {
    if w.pause && w.enqueue
    then Rows(Route(map[], hooks, queue, QueueAutoPaused), QueueAutoPaused, queue, "", now) else []
  }

  ghost function AuthRows(hooks: seq<Webhook>, was: G.Credential, now: int, w: Writes): seq<Row>
  {
    if was != G.Expired && w.enqueue then A.EventRows(hooks, AuthRequired, now) else []
  }

  ghost function ServiceRows(hooks: seq<Webhook>, gate: R.Gate, cred: G.Credential, queue: string, kind: ErrorKind,
                             now: int, w: Writes): seq<Row>
  {
    match kind
    case Auth => AuthRows(hooks, cred, now, w)
    case UsageLimit => UsageRows(hooks, gate, now, w)
    case CapabilityMissing => PauseRows(hooks, queue, now, w)
    case _ => []
  }

  ghost function GateAfter(gate: R.Gate, cred: G.Credential, kind: ErrorKind, resetAt: Option<int>, now: int,
                           w: Writes): R.Gate
  {
    match kind
    case Auth => G.Observed(G.State(cred, gate, 0, []), w.gate).gate
    case UsageLimit => if w.gate then G.UsageGate(resetAt, now) else gate
    case _ => gate
  }

  ghost function RuntimeAfter(runtime: R.Table, queue: string, kind: ErrorKind, w: Writes): R.Table
  {
    if kind == CapabilityMissing && w.pause then runtime[queue := R.Of(runtime, queue).(paused := true)] else runtime
  }

  // The database and the credential state.
  datatype World = World(jobs: Jobs.Table, outbox: seq<Row>, gate: R.Gate, runtime: R.Table, cred: G.Credential)

  // The world after runJob has dealt with a job (its row as claimed).
  ghost function Dealt(s: World, queues: QueueSet, hooks: seq<Webhook>, id: string, job: Job, res: Result,
                       resetAt: Option<int>, now: int, w: Writes): World
  {
    World(s.jobs[id := Concluded(job, res, now, w.requeue, w.finish)],
          s.outbox + ServiceRows(hooks, s.gate, s.cred, job.queue, res.errorKind, now, w)
            + Announced(queues, hooks, id, job, res, now, w),
          GateAfter(s.gate, s.cred, res.errorKind, resetAt, now, w),
          RuntimeAfter(s.runtime, job.queue, res.errorKind, w),
          if res.errorKind == Auth then G.Expired else s.cred)
  }

  // The world after a step that claims this job.
  ghost function Turn(s: World, queues: QueueSet, hooks: seq<Webhook>, id: string, now: int, ex: Execution,
                      w: Writes): World
    requires id in s.jobs
  {
    var job := ClaimRow(s.jobs[id], now);
    Dealt(s, queues, hooks, id, job, ResultOf(queues, job, ex), ResetOf(ex), now, w)
  }

  function ResetOf(ex: Execution): Option<int> { if ex.Ran? then ex.resetAt else None }

  datatype RunningJob = RunningJob(id: string, cancelled: bool)

  class Executor {
    const st: S.Store
    const live: Definitions
    const auth: A.Manager
    const hooks: seq<Webhook>
    var wake: bool
    var current: Option<RunningJob>

    constructor (st: S.Store, live: Definitions, auth: A.Manager, hooks: seq<Webhook>)
      ensures this.st == st && this.live == live && this.auth == auth && this.hooks == hooks
      ensures !wake && current == None
    {
      this.st, this.live, this.auth, this.hooks, wake, current := st, live, auth, hooks, false, None;
    }

    ghost predicate Valid()
      reads this
    {
      auth.st == st && auth.hooks == hooks
    }

    ghost function View(): World
      reads this, st, auth
    {
      World(st.jobs, st.outbox, st.gate, st.runtime, auth.state)
    }

    // Wake never blocks: the channel has one slot.
    method Wake()
      modifies this`wake
      ensures wake
    {
      if !wake {
        wake := true;
      }
    }

    // Cancel has an effect only on the running job.
    method Cancel(id: string) returns (ok: bool)
      modifies this`current
      ensures ok <==> old(current).Some? && old(current).value.id == id
      ensures current == if ok then Some(RunningJob(id, true)) else old(current)
    {
      if current.None? || current.value.id != id {
        return false;
      }
      current := Some(current.value.(cancelled := true));
      return true;
    }

    // ----- pick -----

    method CandidatesOf(depths: map<string, nat>) returns (candidates: seq<Sched.Candidate>)
      requires forall q :: q in depths <==> Waiting(st.jobs, q) != {}
      requires forall q | q in depths :: depths[q] == |Waiting(st.jobs, q)|
      ensures Sched.Lists(candidates, Eligible(st.jobs, st.runtime, live.queues), R.CreditColumn(st.runtime))
      ensures candidates == [] <==> Eligible(st.jobs, st.runtime, live.queues) == map[]
      ensures forall k | 0 <= k < |candidates| ::
                var q := candidates[k].name;
                && q in live.queues && candidates[k].weight == live.queues[q].weight
                && candidates[k].credit == (if q in st.runtime then st.runtime[q].credit else 0.0)
                && (q in st.runtime ==> !st.runtime[q].paused)
                && exists id :: id in st.jobs && st.jobs[id].status == Queued && st.jobs[id].queue == q
      ensures forall id | id in st.jobs && st.jobs[id].status == Queued && st.jobs[id].queue in live.queues ::
                var q := st.jobs[id].queue;
                (q in st.runtime ==> !st.runtime[q].paused) ==> Sched.Named(candidates, q)
    {
      ghost var e, c := Eligible(st.jobs, st.runtime, live.queues), R.CreditColumn(st.runtime);
      candidates := [];
      var rest := depths.Keys;
      while rest != {}
        invariant rest <= depths.Keys && ListsSoFar(candidates, rest, e, c)
        decreases rest
      {
        var name :| name in rest;
        if depths[name] != 0 && name in live.queues && !R.Of(st.runtime, name).paused {
          var k := Sched.Candidate(name, live.queues[name].weight, R.Of(st.runtime, name).credit);
          R.ColumnAt(st.runtime, name);
          ListOne(candidates, rest, k, e, c);
          candidates := candidates + [k];
        } else {
          ListNone(candidates, rest, name, e, c);
        }
        rest := rest - {name};
      }
      ListedAll(candidates, e, c);
      CandidatesMean(candidates, st.jobs, st.runtime, live.queues);
    }

    // pick chooses a queue and charges it; the charge is persisted before
    // anything is claimed. The queue it chooses is configured and unpaused and
    // holds a queued job; with its weight added its credit is the greatest, and
    // the others keep theirs with their weight added. There is none exactly if
    // every queued job of a configured queue waits in a paused one. (No
    // configured queue has an empty name.)
    method Pick(db: bool) returns (queue: string, ok: bool)
      modifies st`runtime
      ensures queue != "" ==>
                && ok && queue in live.queues && (queue in old(st.runtime) ==> !old(st.runtime)[queue].paused)
                && exists id :: id in st.jobs && st.jobs[id].status == Queued && st.jobs[id].queue == queue
      ensures queue != "" ==>
                forall id | && id in st.jobs && st.jobs[id].status == Queued && st.jobs[id].queue in live.queues
                            && st.jobs[id].queue != queue
                            && (st.jobs[id].queue in old(st.runtime) ==> !old(st.runtime)[st.jobs[id].queue].paused) ::
                  var q, rows := st.jobs[id].queue, old(st.runtime);
                  var mine := (if q in rows then rows[q].credit else 0.0) + live.queues[q].weight;
                  var best := (if queue in rows then rows[queue].credit else 0.0) + live.queues[queue].weight;
                  && (mine < best || (mine == best && Less(queue, q)))
                  && q in st.runtime && st.runtime[q].credit == mine && !st.runtime[q].paused
      ensures "" !in live.queues ==>
                (ok && queue == "" <==>
                  forall id | id in st.jobs && st.jobs[id].status == Queued && st.jobs[id].queue in live.queues ::
                    st.jobs[id].queue in old(st.runtime) && old(st.runtime)[st.jobs[id].queue].paused)
      ensures Picks(st.jobs, old(st.runtime), live.queues, queue, ok, st.runtime, db)
    {
      ghost var before := st.runtime;
      queue, ok := PickCandidate(db);
      NobodyToPick(st.jobs, before, live.queues);
      if queue != "" {
        PickMeans(st.jobs, before, live.queues, queue, st.runtime);
      }
    }

    method PickCandidate(db: bool) returns (queue: string, ok: bool)
      modifies st`runtime
      ensures Picks(st.jobs, old(st.runtime), live.queues, queue, ok, st.runtime, db)
    {
      var depths := st.Depths();
      var candidates := CandidatesOf(depths);
      if |candidates| == 0 {
        return "", true;
      }
      queue, ok := ChargeWinner(candidates, Eligible(st.jobs, st.runtime, live.queues), db);
    }

    method ChargeWinner(candidates: seq<Sched.Candidate>, ghost e: Credits.Table, db: bool)
      returns (queue: string, ok: bool)
      requires candidates != [] && e != map[] && Sched.Lists(candidates, e, R.CreditColumn(st.runtime))
      modifies st`runtime
      ensures ok == db && (!db ==> queue == "") && Charges(e, old(st.runtime), queue, st.runtime, db)
    {
      ghost var before := st.runtime;
      var winner, credits := Sched.Pick(candidates);
      RoundCharges(e, before, winner, credits);
      ok := st.SetRRCredits(credits, db);
      queue := if ok then winner else "";
    }

    // ----- run -----

    // The envelope of a job that has ended, with its receivers.
    method JobNote(id: string, j: Job) returns (note: S.Note)
      requires j.status.Terminal()
      ensures note == S.Note(ForStatus(j.status).value, j.queue, id, EndRoute(live.queues, hooks, j.queue, j.status))
    {
      var t := ForStatus(j.status).value;
      var urls := Deliveries(live.queues, hooks, j.queue, t);
      note := S.Note(t, j.queue, id, urls);
    }

    // finish records the result and its notifications together, or neither.
    method FinishJob(id: string, job: Job, res: Result, now: int, db: bool)
      requires res.status.Terminal() && id in st.jobs && st.jobs[id].queue == job.queue
      modifies st`jobs, st`outbox
      ensures db ==> st.jobs == Finished(old(st.jobs), id, res, now)
      ensures db ==>
                var route := EndRoute(live.queues, hooks, job.queue, res.status);
                st.outbox == old(st.outbox) + Lifecycle.JobRows(id, FinishRow(job, res, now), route, now)
      ensures !db ==> st.jobs == old(st.jobs) && st.outbox == old(st.outbox)
      ensures db ==>
                exists e: EventType ::
                  && (e == JobSucceeded <==> res.status == Succeeded) && (e == JobFailed <==> res.status == Failed)
                  && (e == JobNeedsInput <==> res.status == NeedsInput) && !e.IsService()
                  && (e == JobInterrupted <==> res.status == Interrupted)
                  && (e == JobCancelled <==> res.status == Cancelled)
                  && st.outbox == old(st.outbox) + Rows(Route(live.queues, hooks, job.queue, e), e, job.queue, id, now)
    {
      var note := JobNote(id, FinishRow(job, res, now));
      var _ := st.FinishWithDeliveries(id, res, note, now, db);
      ghost var e := JobRowsMean(id, FinishRow(job, res, now), live.queues, hooks, now);
    }

    // block, for a usage limit (auth failures go to the manager). The event
    // fires once per incident.
    method Block(resetAt: Option<int>, now: int, w: Writes)
      modifies st`gate, st`outbox
      ensures st.gate == if w.gate then G.UsageGate(resetAt, now) else old(st.gate)
      ensures w.gate ==>
                st.gate == R.Gate(R.BlockedUsage, Some(if resetAt.Some? then resetAt.value else now + 3_600_000))
      ensures st.outbox == old(st.outbox) + UsageRows(hooks, old(st.gate), now, w)
      ensures st.outbox == old(st.outbox) + if w.gate && w.enqueue && old(st.gate).state != R.BlockedUsage
                then Rows(Route(map[], hooks, "", BlockedUsage), BlockedUsage, "", "", now) else []
    {
      var until := if resetAt.Some? then resetAt else Some(now + G.HOUR);
      var prev := st.gate;
      var ok := st.SetExecutorState(R.BlockedUsage, until, w.gate);
      if !ok || prev.state == R.BlockedUsage {
        return;
      }
      var urls := Deliveries(map[], hooks, "", BlockedUsage);
      var _ := st.EnqueueDeliveries(S.Note(BlockedUsage, "", "", urls), now, w.enqueue);
      assert urls == [] ==> UsageRows(hooks, prev, now, w) == [];
    }

    // A missing capability is a configuration problem: pause the queue.
    method AutoPause(queue: string, now: int, w: Writes)
      modifies st`runtime, st`outbox
      ensures st.runtime == RuntimeAfter(old(st.runtime), queue, CapabilityMissing, w)
      ensures w.pause ==> queue in st.runtime && st.runtime[queue].paused
      ensures st.outbox == old(st.outbox) + PauseRows(hooks, queue, now, w)
      ensures st.outbox == old(st.outbox) + if w.pause && w.enqueue
                then Rows(Route(map[], hooks, queue, QueueAutoPaused), QueueAutoPaused, queue, "", now) else []
    {
      var ok := st.SetQueuePaused(queue, true, w.pause);
      if !ok {
        return;
      }
      var urls := Deliveries(map[], hooks, queue, QueueAutoPaused);
      var _ := st.EnqueueDeliveries(S.Note(QueueAutoPaused, queue, "", urls), now, w.enqueue);
      assert urls == [] ==> PauseRows(hooks, queue, now, w) == [];
    }

    // An auth or usage failure blocks every queue.
    method BlockEverything(queue: string, kind: ErrorKind, resetAt: Option<int>, now: int, w: Writes)
      requires Valid() && kind.Blocking()
      modifies st`gate, st`outbox, auth`state, auth`log
      ensures st.gate == GateAfter(old(st.gate), old(auth.state), kind, resetAt, now, w)
      ensures auth.state == if kind == Auth then G.Expired else old(auth.state)
      ensures st.outbox == old(st.outbox) + ServiceRows(hooks, old(st.gate), old(auth.state), queue, kind, now, w)
    {
      if kind == Auth {
        auth.ObserveExpired(now, w.gate, w.enqueue);
      } else {
        Block(resetAt, now, w);
      }
    }

    // The second half of runJob: what becomes of a job whose subprocess ended.
    method Conclude(id: string, job: Job, res: Result, resetAt: Option<int>, now: int, w: Writes)
      requires Valid() && res.status.Terminal()
      requires id in st.jobs && st.jobs[id] == job && job.status == Running
      modifies st, auth`state, auth`log
      ensures View() == Dealt(old(View()), live.queues, hooks, id, job, res, resetAt, now, w)
      ensures var again := || res.errorKind == Auth || res.errorKind == UsageLimit
                           || (res.errorKind == CapabilityPending && job.attempts < 3);
              st.jobs[id] ==
                if again && res.toolCalls == 0 && w.requeue then job.(status := Queued, startedAt := None)
                else if w.finish then
                  job.(status := res.status, finishedAt := Some(now), errorKind := res.errorKind,
                       sessionId := res.sessionId, toolCalls := res.toolCalls)
                else job
    {
      ghost var before := st.outbox;
      assert before + [] == before;
      DealtRow(View(), live.queues, hooks, id, job, res, resetAt, now, w);
      if res.errorKind.Blocking() {
        BlockEverything(job.queue, res.errorKind, resetAt, now, w);
      }
      ghost var blocked := st.outbox;
      assert blocked + [] == blocked;
      var requeued := RequeueIfSafe(id, job, res, w);
      if !requeued {
        PauseAndFinish(id, job, res, now, w);
      }
    }

    method PauseAndFinish(id: string, job: Job, res: Result, now: int, w: Writes)
      requires res.status.Terminal() && id in st.jobs && st.jobs[id] == job
      requires !(C.MayRequeue(job.attempts, res) && w.requeue)
      modifies st`jobs, st`outbox, st`runtime
      ensures st.jobs == old(st.jobs)[id := Concluded(job, res, now, w.requeue, w.finish)]
      ensures st.outbox == old(st.outbox)
                             + (if res.errorKind == CapabilityMissing then PauseRows(hooks, job.queue, now, w) else [])
                             + Announced(live.queues, hooks, id, job, res, now, w)
      ensures st.runtime == RuntimeAfter(old(st.runtime), job.queue, res.errorKind, w)
    {
      ghost var before := st.outbox;
      assert before + [] == before;
      if res.errorKind == CapabilityMissing {
        AutoPause(job.queue, now, w);
      }
      ghost var paused := st.outbox;
      assert paused + [] == paused;
      FinishJob(id, job, res, now, w.finish);
    }

    // Only a run that made no tool call goes back to its queue.
    method RequeueIfSafe(id: string, job: Job, res: Result, w: Writes) returns (requeued: bool)
      requires id in st.jobs && st.jobs[id] == job && job.status == Running
      modifies st`jobs
      ensures requeued <==> C.MayRequeue(job.attempts, res) && w.requeue
      ensures requeued <==>
                && w.requeue && res.toolCalls == 0
                && (|| res.errorKind == Auth || res.errorKind == UsageLimit
                    || (res.errorKind == CapabilityPending && job.attempts < 3))
      ensures st.jobs == if requeued then old(st.jobs)[id := RequeueRow(job)] else old(st.jobs)
      ensures requeued ==> st.jobs[id] == job.(status := Queued, startedAt := None)
    {
      if res.errorKind.Blocking() && res.toolCalls == 0 {
        var r := st.Requeue(id, w.requeue);
        return r.Ok?;
      }
      if res.errorKind == CapabilityPending && res.toolCalls == 0 && job.attempts < C.MAX_CAPABILITY_RETRIES {
        var r := st.Requeue(id, w.requeue);
        return r.Ok?;
      }
      return false;
    }

    // The job never reached the subprocess, so it simply fails.
    method FailToRun(id: string, job: Job, kind: ErrorKind, now: int, w: Writes)
      requires Valid() && id in st.jobs && st.jobs[id] == job && (kind == QueueRemoved || kind == CliError)
      modifies st`jobs, st`outbox
      ensures View() == Dealt(old(View()), live.queues, hooks, id, job, Result(Failed, kind, "", 0), None, now, w)
    {
      ghost var before := st.outbox;
      assert before + [] == before;
      FinishJob(id, job, Result(Failed, kind, "", 0), now, w.finish);
    }

    method RunJob(id: string, job: Job, now: int, ex: Execution, w: Writes)
      requires Valid() && id in st.jobs && st.jobs[id] == job && job.status == Running && current == None
      modifies st, auth`state, auth`log, auth`lastJobRunAt, this`current
      ensures current == None
      ensures View() == Dealt(old(View()), live.queues, hooks, id, job, ResultOf(live.queues, job, ex), ResetOf(ex),
                              now, w)
      ensures w.requeue && w.finish ==>
                (st.jobs[id].status == Queued <==>
                  && job.queue in live.queues && ex.Ran?
                  && var r := ex.run;
                  && r.toolCalls == 0 && !r.cancelled && r.missing == 0
                  && if r.pending > 0 then job.attempts < 3
                     else !r.timedOut && (r.saysAuth || r.rateLimited || r.saysUsage))
      ensures (job.queue !in live.queues || ex.SetupFailed?) && w.finish ==>
                st.jobs[id] == job.(status := Failed, finishedAt := Some(now), sessionId := "", toolCalls := 0,
                                    errorKind := if job.queue !in live.queues then QueueRemoved else CliError)
    {
      RunRow(View(), live.queues, hooks, id, job, ex, now, w);
      if job.queue !in live.queues {
        FailToRun(id, job, QueueRemoved, now, w);
        return;
      }
      if ex.SetupFailed? {
        FailToRun(id, job, CliError, now, w);
        return;
      }
      var run := Execute(id, ex.run, now);
      Conclude(id, job, C.Classify(run), ex.resetAt, now, w);
    }

    // The subprocess runs, and an operator may cancel the job meanwhile.
    method Execute(id: string, run: C.Run, now: int) returns (r: C.Run)
      requires current == None
      modifies auth`lastJobRunAt, this`current
      ensures current == None && r == run
      ensures auth.lastJobRunAt == Some(now)
    {
      current := Some(RunningJob(id, false));
      if run.cancelled {
        // A handler.
        var _ := Cancel(id);
      }
      auth.lastJobRunAt := Some(now);
      r := run.(cancelled := current.value.cancelled);
      current := None;
    }

    // ----- the loop -----

    // The gate is shut: how long to wait, lifting a usage block that is over.
    method WaitAtGate(now: int, db: bool) returns (wait: int)
      requires st.gate.state != R.Ready
      requires st.gate.state == R.BlockedUsage && st.gate.until.Some? ==> now <= st.gate.until.value
      modifies st`gate
      ensures Waits(old(st.gate), now, db, st.gate, wait)
      ensures wait == if st.gate.state == R.BlockedUsage && st.gate.until.Some? && st.gate.until.value > now then
                        if st.gate.until.value - now <= 30_000 then st.gate.until.value - now else 30_000
                      else if st.gate != old(st.gate) then 0 else 30_000
      ensures st.gate == if old(st.gate) == R.Gate(R.BlockedUsage, Some(now)) && db then R.Gate(R.Ready, None)
                         else old(st.gate)
    {
      if st.gate.state == R.BlockedUsage && st.gate.until.Some? {
        var d := st.gate.until.value - now;
        if d > 0 {
          return Min(d, IDLE_POLL);
        }
        var ok := st.SetExecutorState(R.Ready, None, db);
        return if ok then 0 else IDLE_POLL;
      }
      return IDLE_POLL;
    }

    // Claim the head of a queue and run it; it may have been cancelled since the
    // depths were read.
    method ClaimAndRun(queue: string, now: int, db: bool, ex: Execution, w: Writes)
      returns (wait: int, ghost id: string)
      requires Valid() && current == None
      modifies st, auth`state, auth`log, auth`lastJobRunAt, this`current
      ensures current == None
      ensures !db || Waiting(old(st.jobs), queue) == {} ==>
                View() == old(View()) && wait == if db then 0 else IDLE_POLL
      ensures db && Waiting(old(st.jobs), queue) != {} ==>
                wait == 0 && IsHead(old(st.jobs), queue, id)
                && View() == Turn(old(View()), live.queues, hooks, id, now, ex, w)
    {
      var claimed := st.Claim(queue, now, db);
      match claimed {
        case NotFound => return 0, "";
        case Error => return IDLE_POLL, "";
        case Ok(head) =>
          RunJob(head, st.jobs[head], now, ex, w);
          return 0, head;
      }
    }

    // The gate is open: pick a queue, charge it, claim its head and run it.
    // charged: the runtime rows in between.
    method RunNext(now: int, pickDb: bool, claimDb: bool, ex: Execution, w: Writes)
      returns (wait: int, ghost queue: string, ghost id: string, ghost charged: R.Table)
      requires Valid() && current == None && "" !in live.queues
      modifies st, auth`state, auth`log, auth`lastJobRunAt, this`current
      ensures current == None
      ensures Charges(Eligible(old(st.jobs), old(st.runtime), live.queues), old(st.runtime), queue, charged, pickDb)
      ensures var work := Eligible(old(st.jobs), old(st.runtime), live.queues) != map[] && pickDb;
              if work && claimDb then
                wait == 0 && IsHead(old(st.jobs), queue, id)
                && View() == Turn(old(View()).(runtime := charged), live.queues, hooks, id, now, ex, w)
              else wait == IDLE_POLL && View() == old(View()).(runtime := charged)
    {
      var picked, ok := Pick(pickDb);
      queue, id, charged := picked, "", st.runtime;
      if !ok || picked == "" {
        wait := IDLE_POLL;
        return;
      }
      wait, id := ClaimAndRun(picked, now, claimDb, ex, w);
    }

    // One turn of the loop: the head of the queue that pick chose is run, if any.
    // A queue is charged even if its claim then fails.
    method Step(now: int, pickDb: bool, claimDb: bool, ex: Execution, w: Writes)
      returns (wait: int, ghost queue: string, ghost id: string, ghost charged: R.Table)
      requires Valid() && current == None && "" !in live.queues
      modifies st, auth`state, auth`log, auth`lastJobRunAt, this`current
      ensures current == None
      ensures !old(st.gate).Runnable(now) ==>
                View() == old(View()).(gate := st.gate) && Waits(old(st.gate), now, w.gate, st.gate, wait)
      ensures old(st.gate).Runnable(now) ==>
                Charges(Eligible(old(st.jobs), old(st.runtime), live.queues), old(st.runtime), queue, charged, pickDb)
      ensures var work := Eligible(old(st.jobs), old(st.runtime), live.queues) != map[] && pickDb;
              old(st.gate).Runnable(now) ==>
                if work && claimDb then
                  wait == 0 && IsHead(old(st.jobs), queue, id)
                  && View() == Turn(old(View()).(runtime := charged), live.queues, hooks, id, now, ex, w)
                else wait == IDLE_POLL && View() == old(View()).(runtime := charged)
      ensures var g := old(st.gate);
              && (|| g.state == R.Paused || g.state == R.BlockedAuth
                  || (g.state == R.BlockedUsage && (g.until.None? || now <= g.until.value)) ==>
                    && st.jobs == old(st.jobs) && st.outbox == old(st.outbox) && st.runtime == old(st.runtime)
                    && st.gate == if g == R.Gate(R.BlockedUsage, Some(now)) && w.gate then R.Gate(R.Ready, None) else g)
      ensures var g, was, rows := old(st.gate), old(st.jobs), old(st.runtime);
              && (g.state == R.Ready || (g.state == R.BlockedUsage && g.until.Some? && now > g.until.value))
              && pickDb && claimDb
              && (exists x :: x in was && was[x].status == Queued && was[x].queue in live.queues
                              && (was[x].queue in rows ==> !rows[was[x].queue].paused)) ==>
                && wait == 0 && id in was && was[id].status == Queued && was[id].queue == queue
                && queue in live.queues && (queue in rows ==> !rows[queue].paused)
                && (forall x | x in was && was[x].status == Queued && was[x].queue == queue && x != id ::
                      || was[x].priority < was[id].priority
                      || (was[x].priority == was[id].priority && Less(id, x)))
                && st.jobs.Keys == was.Keys && st.jobs[id].attempts == was[id].attempts + 1
                && forall x | x in was && x != id :: st.jobs[x] == was[x]
    {
      ghost var s := View();
      if !st.gate.Runnable(now) {
        wait := WaitAtGate(now, w.gate);
        queue, id, charged := "", "", st.runtime;
        return;
      }
      wait, queue, id, charged := RunNext(now, pickDb, claimDb, ex, w);
      NobodyToPick(s.jobs, s.runtime, live.queues);
      if Eligible(s.jobs, s.runtime, live.queues) != map[] && pickDb && claimDb {
        PickMeans(s.jobs, s.runtime, live.queues, queue, charged);
        Claims.HeadIsMostUrgent(s.jobs, queue, id);
        TurnClaims(s.(runtime := charged), live.queues, hooks, id, now, ex, w);
      }
    }

    // ----- jobs ended outside the executor -----

    method NotifyJob(id: string, now: int, enqueue: bool)
      modifies st`outbox
      ensures st.outbox == old(st.outbox) + NotifiedRows(st.jobs, live.queues, hooks, id, now, enqueue)
      ensures !enqueue || id !in st.jobs || st.jobs[id].status == Queued || st.jobs[id].status == Running ==>
                st.outbox == old(st.outbox)
      ensures enqueue && id in st.jobs && st.jobs[id].status != Queued && st.jobs[id].status != Running ==>
                exists e: EventType ::
                  var j := st.jobs[id];
                  && (e == JobSucceeded <==> j.status == Succeeded) && (e == JobFailed <==> j.status == Failed)
                  && (e == JobNeedsInput <==> j.status == NeedsInput) && !e.IsService()
                  && (e == JobInterrupted <==> j.status == Interrupted)
                  && (e == JobCancelled <==> j.status == Cancelled)
                  && st.outbox == old(st.outbox) + Rows(Route(live.queues, hooks, j.queue, e), e, j.queue, id, now)
    {
      if id !in st.jobs || !st.jobs[id].status.Terminal() {
        return;
      }
      ghost var e := JobRowsMean(id, st.jobs[id], live.queues, hooks, now);
      var note := JobNote(id, st.jobs[id]);
      var _ := st.EnqueueDeliveries(note, now, enqueue);
      assert note.urls == [] ==> note.AsRows(now) == [];
    }

    // Each job is announced once to each receiver routing selects.
    method NotifyAll(ids: set<string>, now: int, enqueue: bool)
      modifies st`outbox
      ensures Grew(old(st.outbox), st.outbox, ReachedAll(st.jobs, live.queues, hooks, ids, enqueue))
    {
      var rest := ids;
      ghost var start, jobs, queues := st.outbox, st.jobs, live.queues;
      while rest != {}
        invariant rest <= ids && Grew(start, st.outbox, ReachedAll(jobs, queues, hooks, ids - rest, enqueue))
        decreases rest
      {
        var id :| id in rest;
        OneMore(start, st.outbox, jobs, queues, hooks, ids - rest, id, now, enqueue);
        assert ids - rest + {id} == ids - (rest - {id});
        NotifyJob(id, now, enqueue);
        rest := rest - {id};
      }
      assert ids - rest == ids;
    }

    // Announcing jobs of queues that are no longer configured reaches nobody.
    method NotifyRemoved(ids: set<string>, now: int, enqueue: bool)
      requires forall id | id in ids :: id in st.jobs && st.jobs[id].queue !in live.queues
      modifies st`outbox
      ensures st.outbox == old(st.outbox)
    {
      var rest := ids;
      while rest != {}
        invariant rest <= ids && st.outbox == old(st.outbox)
        decreases rest
      {
        var id :| id in rest;
        rest := rest - {id};
        if st.jobs[id].status.Terminal() {
          RemovedQueueIsSilent(live.queues, hooks, st.jobs[id].queue, st.jobs[id].status);
        }
        NotifyJob(id, now, enqueue);
      }
    }

    // FailQueued for one removed queue, undisturbed, and its notifications.
    method FailRemoved(queue: string, now: int, db: bool, enqueue: bool)
      requires queue !in live.queues
      modifies st`jobs, st`outbox
      ensures st.outbox == old(st.outbox)
      ensures st.jobs == if db then Swept(old(st.jobs), {queue}, now) else old(st.jobs)
    {
      ghost var jobs := st.jobs;
      var failed := st.FailQueued(queue, QueueRemoved, now, db, st.jobs);
      SweptOne(jobs, queue, now);
      if failed.Ok? {
        NotifyRemoved(failed.value, now, enqueue);
      }
    }

    // Work left in queues that are no longer configured fails loudly. done: the
    // removed queues dealt with before a statement failed (broken).
    method SweepRemoved(now: int, broken: set<string>, enqueue: bool) returns (ok: bool, ghost done: set<string>)
      modifies st`jobs, st`outbox
      ensures done !! live.queues.Keys
      ensures st.jobs == Swept(old(st.jobs), done, now) && st.outbox == old(st.outbox)
      ensures ok ==> forall id | id in st.jobs && st.jobs[id].status == Queued :: st.jobs[id].queue in live.queues
      ensures broken == {} ==> ok
    {
      var depths := st.Depths();
      SweptNothing(st.jobs, now);
      ghost var jobs := st.jobs;
      var rest := depths.Keys - live.queues.Keys;
      done := {};
      while rest != {}
        invariant rest !! live.queues.Keys && done !! live.queues.Keys && rest + done == depths.Keys - live.queues.Keys
        invariant st.jobs == Swept(jobs, done, now) && st.outbox == old(st.outbox)
        decreases rest
      {
        var queue :| queue in rest;
        if queue in broken {
          return false, done;
        }
        FailRemoved(queue, now, true, enqueue);
        SweptTwice(jobs, done, {queue}, now);
        rest, done := rest - {queue}, done + {queue};
      }
      forall id | id in st.jobs && st.jobs[id].status == Queued ensures st.jobs[id].queue in live.queues {
        assert id in Waiting(jobs, jobs[id].queue);
      }
      return true, done;
    }

    // Recover reconciles the state a crash left behind: interrupted jobs wait
    // for a human, and each is announced.
    method Recover(now: int, db: bool, broken: set<string>, enqueue: bool) returns (ok: bool, ghost done: set<string>)
      modifies st`jobs, st`outbox
      ensures done !! live.queues.Keys
      ensures st.jobs == if db then Swept(Recovered(old(st.jobs), now), done, now) else old(st.jobs)
      ensures ok ==>
                && st.jobs.Keys == old(st.jobs).Keys
                && forall id | id in st.jobs ::
                     var was := old(st.jobs)[id];
                     st.jobs[id] ==
                       if was.status == Running then
                         was.(status := Interrupted, finishedAt := Some(now), errorKind := Restarted)
                       else if was.status == Queued && was.queue !in live.queues then
                         was.(status := Failed, finishedAt := Some(now), errorKind := QueueRemoved)
                       else was
      ensures ok ==> db && RunningRows(st.jobs) == {}
                     && forall id | id in st.jobs && st.jobs[id].status == Queued :: st.jobs[id].queue in live.queues
      ensures db && broken == {} ==> ok
      ensures db ==> Grew(old(st.outbox), st.outbox, Interruptions(old(st.jobs), live.queues, hooks, enqueue))
      ensures db ==>
                forall id | id in old(st.jobs) ::
                  var was := old(st.jobs)[id];
                  LifecycleOutbox.RowUrls(st.outbox, id) == LifecycleOutbox.RowUrls(old(st.outbox), id) +
                    if enqueue && was.status == Running
                    then multiset(Route(live.queues, hooks, was.queue, JobInterrupted)) else multiset{}
      ensures !db ==> st.outbox == old(st.outbox)
    {
      ghost var jobs := st.jobs;
      var interrupted := st.RecoverRunning(now, db);
      if !interrupted.Ok? {
        return false, {};
      }
      NotifyAll(interrupted.value, now, enqueue);
      InterruptionsReach(jobs, live.queues, hooks, now, enqueue);
      ok, done := SweepRemoved(now, broken, enqueue);
    }
  }

  // A turn claims one job, once, and touches no other.
  lemma TurnClaims(s: World, queues: QueueSet, hooks: seq<Webhook>, id: string, now: int, ex: Execution, w: Writes)
    requires id in s.jobs
    ensures var t := Turn(s, queues, hooks, id, now, ex, w);
            && t.jobs.Keys == s.jobs.Keys && t.jobs[id].attempts == s.jobs[id].attempts + 1
            && forall x | x in s.jobs && x != id :: t.jobs[x] == s.jobs[x]
  {
  }

  // The rows that announce the end of a job carry the event of its status, to
  // those whom that event is routed to.
  lemma JobRowsMean(id: string, j: Job, queues: QueueSet, hooks: seq<Webhook>, now: int) returns (e: EventType)
    requires j.status != Queued && j.status != Running
    ensures (e == JobSucceeded <==> j.status == Succeeded) && (e == JobFailed <==> j.status == Failed)
    ensures (e == JobNeedsInput <==> j.status == NeedsInput) && (e == JobInterrupted <==> j.status == Interrupted)
    ensures (e == JobCancelled <==> j.status == Cancelled) && !e.IsService()
    ensures Lifecycle.JobRows(id, j, EndRoute(queues, hooks, j.queue, j.status), now)
              == Rows(Route(queues, hooks, j.queue, e), e, j.queue, id, now)
  {
    EveryEndHasItsOwnEvent(j.status, j.status);
    e := ForStatus(j.status).value;
  }

  // What runJob leaves, in full, of the world it found.
  lemma DealtMeans(s: World, queues: QueueSet, hooks: seq<Webhook>, id: string, job: Job, res: Result,
                   resetAt: Option<int>, now: int, w: Writes)
    ensures var t := Dealt(s, queues, hooks, id, job, res, resetAt, now, w);
            var again := || res.errorKind == Auth || res.errorKind == UsageLimit
                         || (res.errorKind == CapabilityPending && job.attempts < 3);
            && t.jobs == s.jobs[id :=
                 if again && res.toolCalls == 0 && w.requeue then job.(status := Queued, startedAt := None)
                 else if w.finish then
                   job.(status := res.status, finishedAt := Some(now), errorKind := res.errorKind,
                        sessionId := res.sessionId, toolCalls := res.toolCalls)
                 else job]
            && t.gate == (
                 if res.errorKind == UsageLimit && w.gate then
                   R.Gate(R.BlockedUsage, Some(if resetAt.Some? then resetAt.value else now + 3_600_000))
                 else if res.errorKind == Auth && w.gate && s.cred != G.Expired && s.gate.state != R.BlockedAuth then
                   R.Gate(R.BlockedAuth, None)
                 else s.gate)
            && t.cred == (if res.errorKind == Auth then G.Expired else s.cred)
            && t.runtime == (
                 if res.errorKind == CapabilityMissing && w.pause then
                   s.runtime[job.queue := R.QueueRuntime(true,
                               if job.queue in s.runtime then s.runtime[job.queue].credit else 0.0)]
                 else s.runtime)
  {
  }

  // Of the job's own row.
  lemma DealtRow(s: World, queues: QueueSet, hooks: seq<Webhook>, id: string, job: Job, res: Result,
                 resetAt: Option<int>, now: int, w: Writes)
    ensures var again := || res.errorKind == Auth || res.errorKind == UsageLimit
                         || (res.errorKind == CapabilityPending && job.attempts < 3);
            Dealt(s, queues, hooks, id, job, res, resetAt, now, w).jobs[id] ==
              if again && res.toolCalls == 0 && w.requeue then job.(status := Queued, startedAt := None)
              else if w.finish then
                job.(status := res.status, finishedAt := Some(now), errorKind := res.errorKind,
                     sessionId := res.sessionId, toolCalls := res.toolCalls)
              else job
  {
  }

  lemma RunRow(s: World, queues: QueueSet, hooks: seq<Webhook>, id: string, job: Job, ex: Execution, now: int,
               w: Writes)
    ensures var res := ResultOf(queues, job, ex);
            w.requeue && w.finish ==>
              (Dealt(s, queues, hooks, id, job, res, ResetOf(ex), now, w).jobs[id].status == Queued <==>
                && job.queue in queues && ex.Ran?
                && var r := ex.run;
                && r.toolCalls == 0 && !r.cancelled && r.missing == 0
                && if r.pending > 0 then job.attempts < 3
                   else !r.timedOut && (r.saysAuth || r.rateLimited || r.saysUsage))
    ensures var res := ResultOf(queues, job, ex);
            (job.queue !in queues || ex.SetupFailed?) && w.finish ==>
              Dealt(s, queues, hooks, id, job, res, ResetOf(ex), now, w).jobs[id] ==
                job.(status := Failed, finishedAt := Some(now), sessionId := "", toolCalls := 0,
                     errorKind := if job.queue !in queues then QueueRemoved else CliError)
  {
    if ex.Ran? { C.RequeueIsSafe(ex.run, job.attempts); }
    DealtRow(s, queues, hooks, id, job, ResultOf(queues, job, ex), ResetOf(ex), now, w);
  }

  // The service event it adds, and whether it announces the job.
  lemma DealtTells(s: World, queues: QueueSet, hooks: seq<Webhook>, id: string, job: Job, res: Result,
                   resetAt: Option<int>, now: int, w: Writes) returns (e: EventType)
    requires res.status != Queued && res.status != Running
    ensures (e == JobSucceeded <==> res.status == Succeeded) && (e == JobFailed <==> res.status == Failed)
    ensures (e == JobNeedsInput <==> res.status == NeedsInput) && (e == JobInterrupted <==> res.status == Interrupted)
    ensures (e == JobCancelled <==> res.status == Cancelled) && !e.IsService()
    ensures var t := Dealt(s, queues, hooks, id, job, res, resetAt, now, w);
            var again := || res.errorKind == Auth || res.errorKind == UsageLimit
                         || (res.errorKind == CapabilityPending && job.attempts < 3);
            t.outbox == s.outbox
              + (if res.errorKind == Auth && s.cred != G.Expired && w.enqueue then
                   Rows(Route(map[], hooks, "", AuthRequired), AuthRequired, "", "", now)
                 else if res.errorKind == UsageLimit && s.gate.state != R.BlockedUsage && w.gate && w.enqueue then
                   Rows(Route(map[], hooks, "", BlockedUsage), BlockedUsage, "", "", now)
                 else if res.errorKind == CapabilityMissing && w.pause && w.enqueue then
                   Rows(Route(map[], hooks, job.queue, QueueAutoPaused), QueueAutoPaused, job.queue, "", now)
                 else [])
              + (if w.finish && !(again && res.toolCalls == 0 && w.requeue) then
                   Rows(Route(queues, hooks, job.queue, e), e, job.queue, id, now)
                 else [])
  {
    e := JobRowsMean(id, FinishRow(job, res, now), queues, hooks, now);
  }

  // The rows that announce a job, if it has ended.
  ghost function NotifiedRows(jobs: Jobs.Table, queues: QueueSet, hooks: seq<Webhook>, id: string, now: int,
                              enqueue: bool): seq<Row>
  {
    if enqueue && id in jobs && jobs[id].status.Terminal()
    then Lifecycle.JobRows(id, jobs[id], EndRoute(queues, hooks, jobs[id].queue, jobs[id].status), now) else []
  }

  // The receivers they reach.
  ghost function Reached(jobs: Jobs.Table, queues: QueueSet, hooks: seq<Webhook>, id: string, enqueue: bool)
    : multiset<string>
  {
    if enqueue && id in jobs && jobs[id].status.Terminal()
    then multiset(EndRoute(queues, hooks, jobs[id].queue, jobs[id].status)) else multiset{}
  }

  ghost function ReachedAll(jobs: Jobs.Table, queues: QueueSet, hooks: seq<Webhook>, ids: set<string>, enqueue: bool)
    : map<string, multiset<string>>
  {
    map id | id in ids :: Reached(jobs, queues, hooks, id, enqueue)
  }

  lemma RowsReach(outbox: seq<Row>, jobs: Jobs.Table, queues: QueueSet, hooks: seq<Webhook>,
                  id: string, now: int, enqueue: bool, x: string)
    ensures LifecycleOutbox.RowUrls(outbox + NotifiedRows(jobs, queues, hooks, id, now, enqueue), x)
              == LifecycleOutbox.RowUrls(outbox, x)
                 + if x == id then Reached(jobs, queues, hooks, id, enqueue) else multiset{}
  {
    LifecycleOutbox.RowUrlsAppend(outbox, NotifiedRows(jobs, queues, hooks, id, now, enqueue), x);
    if enqueue && id in jobs && jobs[id].status.Terminal() {
      var j := jobs[id];
      EveryEndHasItsOwnEvent(j.status, j.status);
      var route, t := EndRoute(queues, hooks, j.queue, j.status), ForStatus(j.status).value;
      LifecycleOutbox.RowUrlsOfRoute(route, t, j.queue, id, now, x);
    }
  }

  lemma OneMore(before: seq<Row>, outbox: seq<Row>, jobs: Jobs.Table, queues: QueueSet, hooks: seq<Webhook>,
                ids: set<string>, id: string, now: int, enqueue: bool)
    requires Grew(before, outbox, ReachedAll(jobs, queues, hooks, ids, enqueue)) && id !in ids
    ensures Grew(before, outbox + NotifiedRows(jobs, queues, hooks, id, now, enqueue),
                 ReachedAll(jobs, queues, hooks, ids + {id}, enqueue))
  {
    forall x ensures LifecycleOutbox.RowUrls(outbox + NotifiedRows(jobs, queues, hooks, id, now, enqueue), x)
        == LifecycleOutbox.RowUrls(before, x) + More(ReachedAll(jobs, queues, hooks, ids + {id}, enqueue), x) {
      OneMoreFor(before, outbox, jobs, queues, hooks, ids, id, now, enqueue, x);
    }
  }

  lemma OneMoreFor(before: seq<Row>, outbox: seq<Row>, jobs: Jobs.Table, queues: QueueSet, hooks: seq<Webhook>,
                   ids: set<string>, id: string, now: int, enqueue: bool, x: string)
    requires id !in ids
    requires LifecycleOutbox.RowUrls(outbox, x)
               == LifecycleOutbox.RowUrls(before, x) + More(ReachedAll(jobs, queues, hooks, ids, enqueue), x)
    ensures LifecycleOutbox.RowUrls(outbox + NotifiedRows(jobs, queues, hooks, id, now, enqueue), x)
              == LifecycleOutbox.RowUrls(before, x) + More(ReachedAll(jobs, queues, hooks, ids + {id}, enqueue), x)
  {
    RowsReach(outbox, jobs, queues, hooks, id, now, enqueue, x);
  }

  // Whom the announcements of the interrupted jobs reach.
  ghost function Interruptions(jobs: Jobs.Table, queues: QueueSet, hooks: seq<Webhook>, enqueue: bool)
    : map<string, multiset<string>>
  {
    map id | id in RunningRows(jobs) ::
      if enqueue then multiset(Route(queues, hooks, jobs[id].queue, JobInterrupted)) else multiset{}
  }

  lemma InterruptionsReach(jobs: Jobs.Table, queues: QueueSet, hooks: seq<Webhook>, now: int, enqueue: bool)
    ensures ReachedAll(Recovered(jobs, now), queues, hooks, RunningRows(jobs), enqueue)
              == Interruptions(jobs, queues, hooks, enqueue)
  {
    var recovered, ids := Recovered(jobs, now), RunningRows(jobs);
    var reached := ReachedAll(recovered, queues, hooks, ids, enqueue);
    forall id | id in ids ensures reached[id] == Interruptions(jobs, queues, hooks, enqueue)[id] {
      InterruptionReaches(jobs, queues, hooks, id, now, enqueue);
    }
  }

  lemma InterruptionReaches(jobs: Jobs.Table, queues: QueueSet, hooks: seq<Webhook>, id: string, now: int,
                            enqueue: bool)
    requires id in jobs && jobs[id].status == Running
    ensures Reached(Recovered(jobs, now), queues, hooks, id, enqueue)
              == if enqueue then multiset(Route(queues, hooks, jobs[id].queue, JobInterrupted)) else multiset{}
  {
    var recovered := Recovered(jobs, now);
    assert recovered[id].status == Interrupted && recovered[id].queue == jobs[id].queue;
    assert EndRoute(queues, hooks, jobs[id].queue, Interrupted) == Route(queues, hooks, jobs[id].queue, JobInterrupted);
  }

  ghost function More(more: map<string, multiset<string>>, id: string): multiset<string>
  {
    if id in more then more[id] else multiset{}
  }

  // The outbox gained exactly these receivers' rows, job by job.
  ghost predicate Grew(before: seq<Row>, after: seq<Row>, more: map<string, multiset<string>>)
  {
    forall id :: LifecycleOutbox.RowUrls(after, id) == LifecycleOutbox.RowUrls(before, id) + More(more, id)
  }

  // Every queued job of the removed queues, failed.
  ghost function Swept(jobs: Jobs.Table, removed: set<string>, now: int): Jobs.Table
  {
    map id | id in jobs ::
      if jobs[id].status == Queued && jobs[id].queue in removed then FailRow(jobs[id], QueueRemoved, now) else jobs[id]
  }

  lemma SweptOne(jobs: Jobs.Table, queue: string, now: int)
    ensures Swept(jobs, {queue}, now) == QueueFailed(jobs, queue, QueueRemoved, now)
    ensures Waiting(jobs, queue) == {} ==> Swept(jobs, {queue}, now) == jobs
  {
    assert forall id | id in jobs :: id in Waiting(jobs, queue) <==> InQueue(jobs, queue, id);
  }

  lemma SweptNothing(jobs: Jobs.Table, now: int)
    ensures Swept(jobs, {}, now) == jobs
  {
  }

  lemma SweptTwice(jobs: Jobs.Table, a: set<string>, b: set<string>, now: int)
    ensures Swept(Swept(jobs, a, now), b, now) == Swept(jobs, a + b, now)
  {
  }

  function Min(a: int, b: int): int { if a <= b then a else b }

  // The candidates found before the queues in rest have been looked at.
  ghost predicate ListsSoFar(cs: seq<Sched.Candidate>, rest: set<string>, e: Credits.Table, c: Credits.Table)
  {
    && Sched.Distinct(cs)
    && (forall k | 0 <= k < |cs| :: Listed(cs[k], e, c) && cs[k].name !in rest)
    && (forall q | q in e && q !in rest :: Sched.Named(cs, q))
  }

  lemma ListOne(cs: seq<Sched.Candidate>, rest: set<string>, k: Sched.Candidate, e: Credits.Table, c: Credits.Table)
    requires ListsSoFar(cs, rest, e, c) && Listed(k, e, c) && k.name in rest
    ensures ListsSoFar(cs + [k], rest - {k.name}, e, c)
  {
    forall q | q in e && q !in rest - {k.name} ensures Sched.Named(cs + [k], q) {
      if q == k.name {
        assert (cs + [k])[|cs|].name == q;
      } else {
        assert Sched.Named(cs, q);
        var i :| 0 <= i < |cs| && cs[i].name == q;
        assert (cs + [k])[i].name == q;
      }
    }
  }

  lemma ListNone(cs: seq<Sched.Candidate>, rest: set<string>, name: string, e: Credits.Table, c: Credits.Table)
    requires ListsSoFar(cs, rest, e, c) && name !in e
    ensures ListsSoFar(cs, rest - {name}, e, c)
  {
  }

  lemma ListedAll(cs: seq<Sched.Candidate>, e: Credits.Table, c: Credits.Table)
    requires ListsSoFar(cs, {}, e, c)
    ensures Sched.Lists(cs, e, c)
    ensures cs == [] <==> e == map[]
  {
    if cs == [] {
      forall q | q in e ensures Sched.Named(cs, q) {}
      assert e.Keys == {};
    } else {
      assert cs[0].name in e;
    }
  }

  // A pick's effect on the runtime rows: the richest of the eligible queues wins
  // a round of the fairness model, and only credits change; or nothing does.
  ghost predicate Charges(e: Credits.Table, before: R.Table, queue: string, after: R.Table, db: bool)
  {
    if e == map[] || !db then after == before
    else
      && Credits.Richest(e, R.CreditColumn(before), queue)
      && R.CreditColumn(after) == Fairness.Next(R.CreditColumn(before), Fairness.Pick(e, queue))
      && forall q :: R.Of(after, q).paused == R.Of(before, q).paused
  }

  // A pick, by its winner: the eligible queues decide.
  ghost predicate Picks(jobs: Jobs.Table, before: R.Table, queues: QueueSet, queue: string, ok: bool, after: R.Table,
                        db: bool)
  {
    var e := Eligible(jobs, before, queues);
    && (ok <==> e == map[] || db)
    && (queue == "" <== e == map[] || !db)
    && Charges(e, before, queue, after, db)
  }

  // What there is to pick from: nothing exactly if every queued job of a
  // configured queue waits in a paused one.
  lemma NobodyToPick(jobs: Jobs.Table, runtime: R.Table, queues: QueueSet)
    ensures Eligible(jobs, runtime, queues) == map[] <==>
              forall id | id in jobs && jobs[id].status == Queued && jobs[id].queue in queues ::
                jobs[id].queue in runtime && runtime[jobs[id].queue].paused
  {
    var e := Eligible(jobs, runtime, queues);
    forall id | id in jobs && jobs[id].status == Queued && jobs[id].queue in queues
      ensures jobs[id].queue in e || (jobs[id].queue in runtime && runtime[jobs[id].queue].paused)
    {
      assert id in Waiting(jobs, jobs[id].queue);
    }
    forall q | q in e ensures exists id :: id in Waiting(jobs, q) && id in jobs && jobs[id].queue == q {
      var id :| id in Waiting(jobs, q);
    }
  }

  lemma CandidatesMean(cs: seq<Sched.Candidate>, jobs: Jobs.Table, runtime: R.Table, queues: QueueSet)
    requires Sched.Lists(cs, Eligible(jobs, runtime, queues), R.CreditColumn(runtime))
    ensures forall k | 0 <= k < |cs| ::
              var q := cs[k].name;
              && q in queues && cs[k].weight == queues[q].weight
              && cs[k].credit == (if q in runtime then runtime[q].credit else 0.0)
              && (q in runtime ==> !runtime[q].paused)
              && exists id :: id in jobs && jobs[id].status == Queued && jobs[id].queue == q
    ensures forall id | id in jobs && jobs[id].status == Queued && jobs[id].queue in queues ::
              var q := jobs[id].queue;
              (q in runtime ==> !runtime[q].paused) ==> Sched.Named(cs, q)
  {
    var e := Eligible(jobs, runtime, queues);
    forall k | 0 <= k < |cs|
      ensures cs[k].name in e && e[cs[k].name] == cs[k].weight
      ensures exists id :: id in jobs && jobs[id].status == Queued && jobs[id].queue == cs[k].name
    {
      assert Sched.Named(cs, cs[k].name);
      var id :| id in Waiting(jobs, cs[k].name);
    }
    forall id | id in jobs && jobs[id].status == Queued && jobs[id].queue in queues
                && (jobs[id].queue in runtime ==> !runtime[jobs[id].queue].paused)
      ensures Sched.Named(cs, jobs[id].queue)
    {
      assert id in Waiting(jobs, jobs[id].queue);
      assert jobs[id].queue in e;
    }
  }

  // The queue chosen is richer than every other with a job to run, or as rich
  // and first by name; the others gain their weight.
  lemma PickMeans(jobs: Jobs.Table, runtime: R.Table, queues: QueueSet, queue: string, after: R.Table)
    requires Eligible(jobs, runtime, queues) != map[]
    requires Charges(Eligible(jobs, runtime, queues), runtime, queue, after, true)
    ensures queue in queues && (queue in runtime ==> !runtime[queue].paused)
    ensures exists id :: id in jobs && jobs[id].status == Queued && jobs[id].queue == queue
    ensures forall id | id in jobs && jobs[id].status == Queued && jobs[id].queue in queues && jobs[id].queue != queue
                        && (jobs[id].queue in runtime ==> !runtime[jobs[id].queue].paused) ::
              var q := jobs[id].queue;
              var mine := (if q in runtime then runtime[q].credit else 0.0) + queues[q].weight;
              var best := (if queue in runtime then runtime[queue].credit else 0.0) + queues[queue].weight;
              && (mine < best || (mine == best && Less(queue, q)))
              && q in after && after[q].credit == mine && !after[q].paused
  {
    var e, c := Eligible(jobs, runtime, queues), R.CreditColumn(runtime);
    var first :| first in Waiting(jobs, queue);
    forall id | id in jobs && jobs[id].status == Queued && jobs[id].queue in queues && jobs[id].queue != queue
                && (jobs[id].queue in runtime ==> !runtime[jobs[id].queue].paused)
      ensures var q := jobs[id].queue; q in e && e[q] == queues[q].weight && Credits.At(c, q) == R.Of(runtime, q).credit
      ensures var q := jobs[id].queue; q in after && after[q].credit == Credits.At(c, q) + e[q] && !after[q].paused
    {
      assert id in Waiting(jobs, jobs[id].queue);
      RaisedInTurn(e, runtime, queue, after, jobs[id].queue);
    }
  }

  lemma RoundCharges(e: Credits.Table, before: R.Table, winner: string, credits: Credits.Table)
    requires e != map[] && Credits.Round(e, R.CreditColumn(before), winner, credits)
    ensures Charges(e, before, winner, R.Charged(before, credits), true)
  {
    Fairness.RoundUpdates(e, R.CreditColumn(before), winner, credits);
    R.ChargedColumn(before, credits);
  }

  lemma EligibleNames(jobs: Jobs.Table, runtime: R.Table, queues: QueueSet, names: set<string>)
    requires forall q :: q in names <==>
               && q in queues && (q in runtime ==> !runtime[q].paused)
               && exists id :: id in jobs && jobs[id].status == Queued && jobs[id].queue == q
    ensures Eligible(jobs, runtime, queues).Keys == names
  {
    var e := Eligible(jobs, runtime, queues);
    forall q ensures q in e <==> q in names {
      if q in e { var id :| id in Waiting(jobs, q); }
      if q in names {
        var id :| id in jobs && jobs[id].status == Queued && jobs[id].queue == q;
        assert id in Waiting(jobs, q);
      }
    }
  }

  // The queue chosen pays the weights of all that could have been, its own
  // included, and nothing else changes in the rows of the rest.
  lemma WinnerPays(jobs: Jobs.Table, runtime: R.Table, queues: QueueSet, queue: string, after: R.Table,
                   payees: set<string>, weights: Credits.Table)
    requires Eligible(jobs, runtime, queues) != map[]
    requires Charges(Eligible(jobs, runtime, queues), runtime, queue, after, true)
    requires forall q :: q in payees <==>
               && q in queues && (q in runtime ==> !runtime[q].paused)
               && exists id :: id in jobs && jobs[id].status == Queued && jobs[id].queue == q
    requires forall q | q in payees :: q in weights && weights[q] == queues[q].weight
    ensures queue in payees && queue in after
    ensures after[queue].credit ==
              (if queue in runtime then runtime[queue].credit else 0.0) + queues[queue].weight
              - Credits.Sum(payees, weights)
    ensures forall q | q !in payees ::
              (q in after <==> q in runtime) && (q in runtime ==> after[q] == runtime[q])
  {
    var e := Eligible(jobs, runtime, queues);
    EligibleNames(jobs, runtime, queues, payees);
    Credits.SumSame(payees, e, weights);
    ChargedRows(e, runtime, queue, after);
  }

  lemma ChargedRows(e: Credits.Table, runtime: R.Table, queue: string, after: R.Table)
    requires e != map[] && Charges(e, runtime, queue, after, true)
    ensures queue in e && queue in after
    ensures after[queue].credit == Credits.At(R.CreditColumn(runtime), queue) + e[queue] - Credits.Sum(e.Keys, e)
    ensures forall q | q !in e :: (q in after <==> q in runtime) && (q in runtime ==> after[q] == runtime[q])
  {
    var c, d := R.CreditColumn(runtime), R.CreditColumn(after);
    assert queue in d && d[queue] == Fairness.Updated(Fairness.Pick(e, queue), c)[queue];
    forall q | q !in e
      ensures (q in after <==> q in runtime) && (q in runtime ==> after[q] == runtime[q])
    {
      assert q in d <==> q in c;
      assert R.Of(after, q).paused == R.Of(runtime, q).paused;
    }
  }

  lemma RaisedInTurn(e: Credits.Table, runtime: R.Table, queue: string, after: R.Table, q: string)
    requires e != map[] && Charges(e, runtime, queue, after, true) && q in e && q != queue
    ensures q in after && after[q].credit == Credits.At(R.CreditColumn(runtime), q) + e[q]
    ensures after[q].paused == R.Of(runtime, q).paused
  {
    assert q in R.CreditColumn(after);
    assert R.Of(after, q) == after[q];
  }

  // A shut gate: a usage block is slept out, or lifted once it is over (db); any
  // other is left alone.
  ghost predicate Waits(gate: R.Gate, now: int, db: bool, after: R.Gate, wait: int)
  {
    if gate.state == R.BlockedUsage && gate.until.Some? then
      if gate.until.value > now then after == gate && wait == Min(gate.until.value - now, IDLE_POLL)
      else if db then after == R.READY && wait == 0
      else after == gate && wait == IDLE_POLL
    else after == gate && wait == IDLE_POLL
  }

  ghost predicate Listed(k: Sched.Candidate, e: Credits.Table, c: Credits.Table)
  {
    k.name in e && e[k.name] == k.weight && Credits.At(c, k.name) == k.credit
  }
}
