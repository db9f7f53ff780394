// backend/internal/api: the handlers that change jobs, queues and the executor's
// gate. Parsing and token checks are done; `valid` says whether the body passed.
// Job ids are ULIDs, so never empty.
module Api {
  import opened Jobs
  import opened Events
  import Claims
  import E = Executor
  import R = Runtime
  import S = Store
  import G = Gates

  datatype Response =
    | Accepted(id: string, position: nat)
    | Replayed(id: string, position: nat)
    | Cancelling
    | Done
    | Conflict
    | NotFound
    | BadRequest
    | ServerError

  class Server {
    const st: S.Store
    const exec: E.Executor

    ghost predicate Valid()
      reads this, st
    {
      exec.st == st && "" !in st.jobs
    }

    constructor (st: S.Store, exec: E.Executor)
      requires exec.st == st && "" !in st.jobs
      ensures Valid() && this.st == st && this.exec == exec
    {
      this.st, this.exec := st, exec;
    }

    // submitJob: a new job is stored and the executor woken; a replayed key
    // answers with the job that has it and does neither.
    method SubmitJob(queue: string, id: string, priority: int, input: string, key: string, valid: bool, db: bool)
      returns (r: Response)
      requires Valid() && id != ""
      modifies st`jobs, exec`wake
      ensures Valid()
      ensures var job := NewJob(queue, priority, input, key);
              var known, taken := queue in exec.live.queues, KeyTaken(old(st.jobs), queue, key);
              && (r.NotFound? <==> !known)
              && (r.BadRequest? <==> known && !valid)
              && (r.Accepted? <==> known && valid && db && Insertable(old(st.jobs), id, job))
              && (r.Replayed? <==> known && valid && db && !Insertable(old(st.jobs), id, job) && taken)
              && st.jobs == (if r.Accepted? then old(st.jobs)[id := job] else old(st.jobs))
              && exec.wake == (r.Accepted? || old(exec.wake))
      ensures r.Accepted? <==>
                && queue in exec.live.queues && valid && db && id !in old(st.jobs)
                && forall x | x in old(st.jobs) && old(st.jobs)[x].queue == queue ::
                     key == "" || old(st.jobs)[x].key != key
      ensures r.Accepted? ==>
                st.jobs[id] == Job(queue, Queued, priority, input, key, "", "", 0, None, None, NoError, "", 0)
      ensures r.Replayed? ==> r.id in st.jobs && st.jobs[r.id].queue == queue && st.jobs[r.id].key == key && key != ""
      ensures r.Accepted? ==> r.id == id && r.position == Claims.Position(st.jobs, id)
      ensures r.Replayed? ==> S.HasKey(st.jobs, queue, key, r.id) && r.position == Claims.Position(st.jobs, r.id)
      ensures r.Accepted? || r.Replayed? || r.NotFound? || r.BadRequest? || r.ServerError?
    {
      if queue !in exec.live.queues {
        return NotFound;
      }
      if !valid {
        return BadRequest;
      }
      var stored, created := st.Insert(id, NewJob(queue, priority, input, key), db);
      if !stored.Ok? {
        return ServerError;
      }
      var position := st.Position(stored.value, st.jobs[stored.value]);
      if created {
        exec.Wake();
        return Accepted(stored.value, position);
      }
      return Replayed(stored.value, position);
    }

    // cancelJob: of a running job only the executor can say when it is over, so
    // it is asked to; a waiting one ends here, and its receivers are told.
    method CancelJob(id: string, now: int, db: bool, enqueue: bool) returns (r: Response)
      requires Valid()
      modifies st`jobs, st`outbox, exec`current
      ensures id !in old(st.jobs) ==> r == NotFound
      ensures id in old(st.jobs) ==>
                var was := old(st.jobs)[id].status;
                && (r.Cancelling? <==> was == Running && old(exec.current).Some? && old(exec.current).value.id == id)
                && (r.Done? <==> was == Queued && db)
                && (r.ServerError? <==> was != Running && !db)
                && (r.Cancelling? || r.Done? || r.ServerError? || r.Conflict?)
      ensures exec.current == if r.Cancelling? then Some(E.RunningJob(id, true)) else old(exec.current)
      ensures st.jobs == if r.Done? then old(st.jobs)[id := CancelRow(old(st.jobs)[id], now)] else old(st.jobs)
      ensures r.Done? ==> st.jobs[id] == old(st.jobs)[id].(status := Cancelled, finishedAt := Some(now))
      ensures r.Done? && enqueue ==>
                var q := st.jobs[id].queue;
                st.outbox == old(st.outbox)
                  + Rows(Route(exec.live.queues, exec.hooks, q, JobCancelled), JobCancelled, q, id, now)
      ensures st.outbox == old(st.outbox) + if r.Done?
                then E.NotifiedRows(st.jobs, exec.live.queues, exec.hooks, id, now, enqueue) else []
    {
      if id !in st.jobs {
        return NotFound;
      }
      if st.jobs[id].status == Running {
        var ok := exec.Cancel(id);
        return if ok then Cancelling else Conflict;
      }
      var done := st.Cancel(id, now, db);
      match done {
        case NotFound => return Conflict;
        case Error => return ServerError;
        case Ok(_) =>
          exec.NotifyJob(id, now, enqueue);
          return Done;
      }
    }

    method CreateChild(id: string, child: Job, db: bool) returns (r: Response)
      requires Valid() && child.key == "" && id != ""
      modifies st`jobs, exec`wake
      ensures Valid()
      ensures r.Accepted? <==> db && Insertable(old(st.jobs), id, child)
      ensures st.jobs == if r.Accepted? then old(st.jobs)[id := child] else old(st.jobs)
      ensures exec.wake == (r.Accepted? || old(exec.wake))
      ensures if r.Accepted? then r.id == id && r.position == Claims.Position(st.jobs, id) else r == ServerError
    {
      var stored, created := st.Insert(id, child, db);
      if !stored.Ok? {
        return ServerError;
      }
      var position := st.Position(stored.value, child);
      if created {
        exec.Wake();
      }
      return Accepted(stored.value, position);
    }

    // retryJob never runs the original again: it makes a child of a job that
    // has ended without succeeding.
    method RetryJob(parent: string, id: string, db: bool) returns (r: Response)
      requires Valid() && id != ""
      modifies st`jobs, exec`wake
      ensures Valid()
      ensures r.Accepted? <==>
                && parent in old(st.jobs) && old(st.jobs)[parent].status.Retryable()
                && old(st.jobs)[parent].queue in exec.live.queues && id !in old(st.jobs) && db
      ensures st.jobs == if r.Accepted? then old(st.jobs)[id := NewChild(old(st.jobs)[parent], parent)]
                         else old(st.jobs)
      ensures r.Accepted? ==>
                var p := old(st.jobs)[parent];
                && (p.status == Failed || p.status == NeedsInput || p.status == Cancelled || p.status == Interrupted)
                && st.jobs[id] ==
                     Job(p.queue, Queued, p.priority, p.input, "", parent, "", 0, None, None, NoError, "", 0)
      ensures parent in old(st.jobs) ==>
                (r == Conflict <==>
                  var p := old(st.jobs)[parent];
                  || p.status == Queued || p.status == Running || p.status == Succeeded
                  || p.queue !in exec.live.queues)
      ensures exec.wake == (r.Accepted? || old(exec.wake))
      ensures r.Accepted? ==> r.position == Claims.Position(st.jobs, id)
    {
      if parent !in st.jobs {
        return NotFound;
      }
      if !st.jobs[parent].status.Retryable() || st.jobs[parent].queue !in exec.live.queues {
        return Conflict;
      }
      r := CreateChild(id, NewChild(st.jobs[parent], parent), db);
    }

    // replyJob answers a question, in the session that asked it.
    method ReplyJob(parent: string, id: string, input: string, valid: bool, db: bool) returns (r: Response)
      requires Valid() && id != ""
      modifies st`jobs, exec`wake
      ensures Valid()
      ensures r.Accepted? <==>
                && parent in old(st.jobs) && old(st.jobs)[parent].status == NeedsInput
                && old(st.jobs)[parent].sessionId != "" && old(st.jobs)[parent].queue in exec.live.queues
                && valid && id !in old(st.jobs) && db
      ensures st.jobs == if r.Accepted? then old(st.jobs)[id := ReplyChild(old(st.jobs)[parent], parent, input)]
                         else old(st.jobs)
      ensures r.Accepted? ==>
                var p := old(st.jobs)[parent];
                st.jobs[id] ==
                  Job(p.queue, Queued, p.priority, input, "", parent, p.sessionId, 0, None, None, NoError, "", 0)
      ensures exec.wake == (r.Accepted? || old(exec.wake))
      ensures r.Accepted? ==> r.position == Claims.Position(st.jobs, id)
    {
      if parent !in st.jobs {
        return NotFound;
      }
      var p := st.jobs[parent];
      if p.status != NeedsInput || p.sessionId == "" || p.queue !in exec.live.queues {
        return Conflict;
      }
      if !valid {
        return BadRequest;
      }
      r := CreateChild(id, ReplyChild(p, parent, input), db);
    }

    // Pausing and resuming a queue. Only resuming wakes the executor.
    method SetPaused(queue: string, paused: bool, db: bool) returns (r: Response)
      requires Valid()
      modifies st`runtime, exec`wake
      ensures r == if queue !in exec.live.queues then NotFound else if db then Done else ServerError
      ensures st.runtime == if r.Done? then old(st.runtime)[queue := R.Of(old(st.runtime), queue).(paused := paused)]
                            else old(st.runtime)
      ensures r.Done? ==>
                var credit := if queue in old(st.runtime) then old(st.runtime)[queue].credit else 0.0;
                st.runtime == old(st.runtime)[queue := R.QueueRuntime(paused, credit)]
      ensures exec.wake == ((r.Done? && !paused) || old(exec.wake))
    {
      if queue !in exec.live.queues {
        return NotFound;
      }
      var ok := st.SetQueuePaused(queue, paused, db);
      if !ok {
        return ServerError;
      }
      if !paused {
        exec.Wake();
      }
      return Done;
    }

    ghost function View(s: G.State): G.State
      reads st
    {
      s.(gate := st.gate)
    }

    // The gate after each handler is the gate after its step of the protocol,
    // from any state of the rest of the system.
    method PauseExecutor(db: bool, ghost s: G.State) returns (r: Response)
      requires Valid() && s.gate == st.gate
      modifies st`gate
      ensures r == if db then Done else ServerError
      ensures View(s) == G.Do(s, G.Pause(db))
      ensures st.gate == if db then R.Gate(R.Paused, None) else old(st.gate)
    {
      var ok := st.SetExecutorState(R.Paused, None, db);
      return if ok then Done else ServerError;
    }

    // A gate blocked on auth is left alone.
    method ResumeExecutor(db: bool, ghost s: G.State) returns (r: Response)
      requires Valid() && s.gate == st.gate
      modifies st`gate, exec`wake
      ensures r == if s.gate.state == R.BlockedAuth then Conflict else if db then Done else ServerError
      ensures View(s) == if r.Conflict? then G.Do(s, G.ResumeRead) else G.Do(G.Do(s, G.ResumeRead), G.ResumeWrite(db))
      ensures st.gate == if db && old(st.gate).state != R.BlockedAuth then R.Gate(R.Ready, None) else old(st.gate)
      ensures exec.wake == (r.Done? || old(exec.wake))
    {
      if st.gate.state == R.BlockedAuth {
        return Conflict;
      }
      var ok := st.SetExecutorState(R.Ready, None, db);
      if !ok {
        return ServerError;
      }
      exec.Wake();
      return Done;
    }
  }
}
