// backend/internal/store: the SQL statements, each atomic. `db` says whether
// the database carries the statement out; if not, nothing has changed.
module Store {
  import opened Order
  import opened Jobs
  import opened Events
  import R = Runtime
  import Credits
  import Claims

  datatype Answer<T> = Ok(value: T) | NotFound | Error

  // An event with the receivers it goes to.
  datatype Note = Note(event: EventType, queue: string, job: string, urls: seq<string>)
  {
    ghost function AsRows(now: int): seq<Row> { Rows(urls, event, queue, job, now) }
  }

  predicate HasKey(jobs: Jobs.Table, queue: string, key: string, id: string)
  {
    key != "" && id in jobs && jobs[id].queue == queue && jobs[id].key == key
  }

  // The ids of due rows, from row i on, oldest first.
  predicate Due(r: Row, now: int) { r.state.Pending? && r.nextAt <= now }

  ghost function DueFrom(rows: seq<Row>, now: int, i: nat): seq<nat>
    decreases |rows| - i
  {
    if i >= |rows| then []
    else (if Due(rows[i], now) then [i] else []) + DueFrom(rows, now, i + 1)
  }

  ghost function First(ids: seq<nat>, limit: nat): seq<nat>
  {
    if |ids| <= limit then ids else ids[..limit]
  }

  // The due rows, each once and oldest first.
  lemma {:induction false} DueRows(rows: seq<Row>, now: int, i: nat)
    ensures var ids := DueFrom(rows, now, i);
            && (forall k | 0 <= k < |ids| ::
                  && i <= ids[k] < |rows| && rows[ids[k]].state == Pending && rows[ids[k]].nextAt <= now
                  && (k > 0 ==> ids[k - 1] < ids[k]))
            && (forall r: nat | i <= r < |rows| && rows[r].state == Pending && rows[r].nextAt <= now :: r in ids)
    decreases |rows| - i
  {
    if i < |rows| { DueRows(rows, now, i + 1); }
  }

  // The first of them: a due row is left out only if the limit is reached by
  // older ones.
  lemma FirstDue(rows: seq<Row>, now: int, limit: nat)
    ensures var ids := First(DueFrom(rows, now, 0), limit);
            && |ids| <= limit
            && (forall k | 0 <= k < |ids| ::
                  && ids[k] < |rows| && rows[ids[k]].state == Pending && rows[ids[k]].nextAt <= now
                  && (k > 0 ==> ids[k - 1] < ids[k]))
            && (forall r: nat | r < |rows| && rows[r].state == Pending && rows[r].nextAt <= now && r !in ids ::
                  |ids| == limit && forall k | 0 <= k < |ids| :: ids[k] < r)
  {
    var all, ids := DueFrom(rows, now, 0), First(DueFrom(rows, now, 0), limit);
    DueRows(rows, now, 0);
    forall r: nat | r < |rows| && rows[r].state == Pending && rows[r].nextAt <= now && r !in ids
      ensures |ids| == limit && forall k | 0 <= k < |ids| :: ids[k] < r
    {
      var m :| 0 <= m < |all| && all[m] == r;
      assert forall k | 0 <= k < |ids| :: ids[k] == all[k];
      Rising(all, m);
    }
  }

  lemma {:induction false} Rising(ids: seq<nat>, m: nat)
    requires m < |ids| && forall k | 0 < k < |ids| :: ids[k - 1] < ids[k]
    ensures forall k | 0 <= k < m :: ids[k] < ids[m]
  {
    if m > 0 { Rising(ids, m - 1); }
  }

  predicate Earliest(rows: seq<Row>, at: int)
  {
    && (exists k :: 0 <= k < |rows| && rows[k].state.Pending? && rows[k].nextAt == at)
    && (forall k | 0 <= k < |rows| && rows[k].state.Pending? :: at <= rows[k].nextAt)
  }

  predicate NonePending(rows: seq<Row>)
  {
    forall k | 0 <= k < |rows| :: !rows[k].state.Pending?
  }

  class Store {
    var jobs: Jobs.Table
    var outbox: seq<Row>
    var gate: R.Gate
    var runtime: R.Table

    constructor ()
      ensures jobs == map[] && outbox == [] && gate == R.READY && runtime == map[]
    {
      jobs, outbox, gate, runtime := map[], [], R.READY, map[];
    }

    // ----- jobs.go -----

    // A replayed idempotency key answers with the row that has it.
    method Insert(id: string, j: Job, db: bool) returns (stored: Answer<string>, created: bool)
      modifies this`jobs
      ensures created <==>
                && db && id !in old(jobs) && (j.parent == "" || j.parent in old(jobs))
                && forall x | x in old(jobs) && old(jobs)[x].queue == j.queue ::
                     j.key == "" || old(jobs)[x].key != j.key
      ensures created <==> db && Insertable(old(jobs), id, j)
      ensures jobs == if created then old(jobs)[id := j] else old(jobs)
      ensures created ==> stored == Ok(id)
      ensures !created && db && KeyTaken(jobs, j.queue, j.key) ==>
                stored.Ok? && HasKey(jobs, j.queue, j.key, stored.value)
      ensures !db || (!created && !KeyTaken(jobs, j.queue, j.key)) ==> stored == Error
    {
      if !db {
        return Error, false;
      }
      if Insertable(jobs, id, j) {
        jobs := jobs[id := j];
        return Ok(id), true;
      }
      if KeyTaken(jobs, j.queue, j.key) {
        var holder :| holder in jobs && HasKey(jobs, j.queue, j.key, holder);
        return Ok(holder), false;
      }
      return Error, false;
    }

    // Claim moves the head of the queue to running: no job queued there has a
    // higher priority, or the same and a smaller id.
    method Claim(queue: string, now: int, db: bool) returns (r: Answer<string>)
      modifies this`jobs
      ensures r.Error? <==> !db
      ensures db ==> (r.NotFound? <==> Waiting(old(jobs), queue) == {})
      ensures r.Ok? ==> IsHead(old(jobs), queue, r.value)
                        && jobs == old(jobs)[r.value := ClaimRow(old(jobs)[r.value], now)]
      ensures !r.Ok? ==> jobs == old(jobs)
      ensures r.NotFound? ==> forall x | x in jobs && jobs[x].queue == queue :: jobs[x].status != Queued
      ensures r.Ok? ==>
                var id, was := r.value, old(jobs);
                && id in was && was[id].queue == queue && was[id].status == Queued
                && (forall x | x in was && was[x].queue == queue && was[x].status == Queued && x != id ::
                      || was[x].priority < was[id].priority
                      || (was[x].priority == was[id].priority && Less(id, x)))
                && jobs[id] == was[id].(status := Running, startedAt := Some(now), attempts := was[id].attempts + 1)
    {
      if !db {
        return Error;
      }
      if Waiting(jobs, queue) == {} {
        assert forall x | x in jobs && InQueue(jobs, queue, x) :: x in Waiting(jobs, queue);
        return NotFound;
      }
      Claims.HeadExists(jobs, queue);
      var id :| id in jobs && IsHead(jobs, queue, id);
      Claims.HeadIsMostUrgent(jobs, queue, id);
      jobs := jobs[id := ClaimRow(jobs[id], now)];
      return Ok(id);
    }

    // UPDATE ... WHERE id = ? AND status = 'running'
    method Requeue(id: string, db: bool) returns (r: Answer<()>)
      modifies this`jobs
      ensures r.Error? <==> !db
      ensures r.Ok? <==> db && id in old(jobs) && old(jobs)[id].status == Running
      ensures jobs == if r.Ok? then old(jobs)[id := RequeueRow(old(jobs)[id])] else old(jobs)
      ensures r.Ok? ==> jobs[id] == old(jobs)[id].(status := Queued, startedAt := None)
    {
      if !db {
        return Error;
      }
      if id !in jobs || jobs[id].status != Running {
        return NotFound;
      }
      jobs := jobs[id := RequeueRow(jobs[id])];
      return Ok(());
    }

    // UPDATE ... WHERE id = ? AND status = 'queued'
    method Cancel(id: string, now: int, db: bool) returns (r: Answer<()>)
      modifies this`jobs
      ensures r.Error? <==> !db
      ensures r.Ok? <==> db && id in old(jobs) && old(jobs)[id].status == Queued
      ensures jobs == if r.Ok? then old(jobs)[id := CancelRow(old(jobs)[id], now)] else old(jobs)
      ensures r.Ok? ==> jobs[id] == old(jobs)[id].(status := Cancelled, finishedAt := Some(now))
    {
      if !db {
        return Error;
      }
      if id !in jobs || jobs[id].status != Queued {
        return NotFound;
      }
      jobs := jobs[id := CancelRow(jobs[id], now)];
      return Ok(());
    }

    method RecoverRunning(now: int, db: bool) returns (r: Answer<set<string>>)
      modifies this`jobs
      ensures r == if db then Ok(RunningRows(old(jobs))) else Error
      ensures jobs == if db then Recovered(old(jobs), now) else old(jobs)
      ensures db ==>
                && jobs.Keys == old(jobs).Keys
                && forall x | x in jobs ::
                     var was := old(jobs)[x];
                     && (x in r.value <==> was.status == Running)
                     && jobs[x] == if was.status != Running then was
                                   else was.(status := Interrupted, finishedAt := Some(now), errorKind := Restarted)
    {
      if !db {
        return Error;
      }
      var ids := RunningRows(jobs);
      if ids == {} {
        assert forall id | id in jobs :: id in ids <==> jobs[id].status == Running;
        assert jobs == Recovered(jobs, now);
        return Ok({});
      }
      jobs := Recovered(jobs, now);
      return Ok(ids);
    }

    // FailQueued selects and then updates, in two statements; meanwhile is what
    // others have made of the table in between. So the ids it returns may miss
    // the jobs it fails, and the other way round.
    method FailQueued(queue: string, kind: ErrorKind, now: int, db: bool, meanwhile: Jobs.Table)
      returns (r: Answer<set<string>>)
      modifies this`jobs
      ensures r == if db then Ok(Waiting(old(jobs), queue)) else Error
      ensures jobs == if db && Waiting(old(jobs), queue) != {} then QueueFailed(meanwhile, queue, kind, now)
                      else old(jobs)
      ensures r.Ok? ==> forall x :: x in r.value <==>
                          x in old(jobs) && old(jobs)[x].queue == queue && old(jobs)[x].status == Queued
      ensures r.Ok? && r.value != {} ==>
                && jobs.Keys == meanwhile.Keys
                && forall x | x in jobs ::
                     jobs[x] == if meanwhile[x].queue != queue || meanwhile[x].status != Queued then meanwhile[x]
                                else meanwhile[x].(status := Failed, finishedAt := Some(now), errorKind := kind)
    {
      if !db {
        return Error;
      }
      var ids := Waiting(jobs, queue);
      if ids == {} {
        return Ok({});
      }
      jobs := meanwhile;
      jobs := QueueFailed(jobs, queue, kind, now);
      return Ok(ids);
    }

    // How many jobs are ahead of this one in its queue.
    method Position(id: string, j: Job) returns (n: nat)
      ensures id in jobs && jobs[id] == j ==> n == Claims.Position(jobs, id)
    {
      var ahead := set other | other in Waiting(jobs, j.queue) &&
        (jobs[other].priority > j.priority || (jobs[other].priority == j.priority && Less(other, id)));
      n := |ahead|;
      assert id in jobs && jobs[id] == j ==> ahead == Claims.Ahead(jobs, id);
    }

    // SELECT queue, COUNT(*) ... GROUP BY queue: only queues with queued jobs.
    method Depths() returns (depths: map<string, nat>)
      ensures forall q :: q in depths <==> Waiting(jobs, q) != {}
      ensures forall q | q in depths :: depths[q] == |Waiting(jobs, q)|
    {
      depths := map[];
      var rest := set id | id in jobs && jobs[id].status == Queued :: jobs[id].queue;
      ghost var all := rest;
      while rest != {}
        invariant rest <= all && depths.Keys == all - rest
        invariant forall q | q in depths :: depths[q] == |Waiting(jobs, q)|
        decreases rest
      {
        var q :| q in rest;
        depths := depths[q := |Waiting(jobs, q)|];
        rest := rest - {q};
      }
      forall q ensures q in all <==> Waiting(jobs, q) != {} {
        if q in all {
          var id :| id in jobs && jobs[id].status == Queued && jobs[id].queue == q;
          assert id in Waiting(jobs, q);
        }
      }
    }

    // ----- outbox.go -----

    method InsertDeliveries(note: Note, now: int)
      modifies this`outbox
      ensures outbox == old(outbox) + note.AsRows(now)
    {
      for i := 0 to |note.urls|
        invariant outbox == old(outbox) + note.AsRows(now)[..i]
      {
        assert note.AsRows(now)[..i + 1] == note.AsRows(now)[..i] + [note.AsRows(now)[i]];
        outbox := outbox + [Row(note.event, note.queue, note.job, note.urls[i], 0, now, Pending)];
      }
      assert note.AsRows(now)[..|note.urls|] == note.AsRows(now);
    }

    method EnqueueDeliveries(note: Note, now: int, db: bool) returns (r: Answer<()>)
      modifies this`outbox
      ensures note.urls == [] || db ==> r == Ok(())
      ensures note.urls != [] && !db ==> r == Error
      ensures outbox == if r.Ok? then old(outbox) + note.AsRows(now) else old(outbox)
    {
      if |note.urls| == 0 {
        assert note.AsRows(now) == [];
        return Ok(());
      }
      if !db {
        return Error;
      }
      InsertDeliveries(note, now);
      return Ok(());
    }

    // The result and its notifications in one transaction: both or neither.
    method FinishWithDeliveries(id: string, res: Result, note: Note, now: int, db: bool) returns (r: Answer<()>)
      modifies this`jobs, this`outbox
      ensures r == if db && res.status.Terminal() then Ok(()) else Error
      ensures r.Ok? ==> jobs == Finished(old(jobs), id, res, now) && outbox == old(outbox) + note.AsRows(now)
      ensures !r.Ok? ==> jobs == old(jobs) && outbox == old(outbox)
      ensures r.Ok? && id in old(jobs) ==>
                jobs == old(jobs)[id := old(jobs)[id].(status := res.status, finishedAt := Some(now),
                          errorKind := res.errorKind, sessionId := res.sessionId, toolCalls := res.toolCalls)]
    {
      if !res.status.Terminal() || !db {
        return Error;
      }
      if id in jobs {
        jobs := jobs[id := FinishRow(jobs[id], res, now)];
      }
      InsertDeliveries(note, now);
      return Ok(());
    }

    // SELECT ... WHERE state = 'pending' AND next_at <= ? ORDER BY id LIMIT ?
    method ClaimDueDeliveries(now: int, limit: int) returns (ids: seq<nat>)
      ensures ids == First(DueFrom(outbox, now, 0), if limit <= 0 then 20 else limit)
    {
      var most := if limit <= 0 then 20 else limit;
      ids := [];
      var i := 0;
      while i < |outbox| && |ids| < most
        invariant 0 <= i <= |outbox| && |ids| <= most
        invariant DueFrom(outbox, now, 0) == ids + DueFrom(outbox, now, i)
      {
        if Due(outbox[i], now) {
          ids := ids + [i];
        }
        i := i + 1;
      }
    }

    method MarkDelivered(id: nat, db: bool) returns (ok: bool)
      requires id < |outbox|
      modifies this`outbox
      ensures ok == db
      ensures outbox == if ok
              then old(outbox)[id := old(outbox)[id].(state := Delivered, attempts := old(outbox)[id].attempts + 1)]
              else old(outbox)
    {
      if db {
        outbox := outbox[id := outbox[id].(state := Delivered, attempts := outbox[id].attempts + 1)];
      }
      return db;
    }

    method RescheduleDelivery(id: nat, nextAt: int, db: bool) returns (ok: bool)
      requires id < |outbox|
      modifies this`outbox
      ensures ok == db
      ensures outbox == if ok
              then old(outbox)[id := old(outbox)[id].(nextAt := nextAt, attempts := old(outbox)[id].attempts + 1)]
              else old(outbox)
    {
      if db {
        outbox := outbox[id := outbox[id].(nextAt := nextAt, attempts := outbox[id].attempts + 1)];
      }
      return db;
    }

    method MarkDead(id: nat, db: bool) returns (ok: bool)
      requires id < |outbox|
      modifies this`outbox
      ensures ok == db
      ensures outbox == if ok
              then old(outbox)[id := old(outbox)[id].(state := Dead, attempts := old(outbox)[id].attempts + 1)]
              else old(outbox)
    {
      if db {
        outbox := outbox[id := outbox[id].(state := Dead, attempts := outbox[id].attempts + 1)];
      }
      return db;
    }

    // SELECT MIN(next_at) ... WHERE state = 'pending'
    method NextDeliveryDue() returns (at: Option<int>)
      ensures at.None? ==> NonePending(outbox)
      ensures at.Some? ==> Earliest(outbox, at.value)
      ensures forall k | 0 <= k < |outbox| && outbox[k].state == Pending :: at.Some? && at.value <= outbox[k].nextAt
      ensures at.Some? ==> exists k :: 0 <= k < |outbox| && outbox[k].state == Pending && outbox[k].nextAt == at.value
    {
      at := None;
      for i := 0 to |outbox|
        invariant at.None? ==> NonePending(outbox[..i])
        invariant at.Some? ==> Earliest(outbox[..i], at.value)
      {
        if outbox[i].state.Pending? && (at.None? || outbox[i].nextAt < at.value) {
          at := Some(outbox[i].nextAt);
          assert outbox[..i + 1][i] == outbox[i];
        } else if at.Some? {
          var k :| 0 <= k < |outbox[..i]| && outbox[..i][k].state.Pending? && outbox[..i][k].nextAt == at.value;
          assert outbox[..i + 1][k] == outbox[k];
        }
      }
      assert outbox[..|outbox|] == outbox;
    }

    // ----- runtime.go -----

    method SetExecutorState(state: R.ExecState, until: Option<int>, db: bool) returns (ok: bool)
      modifies this`gate
      ensures ok == db && gate == if db then R.Gate(state, until) else old(gate)
    {
      if db {
        gate := R.Gate(state, until);
      }
      return db;
    }

    method SetQueuePaused(queue: string, paused: bool, db: bool) returns (ok: bool)
      modifies this`runtime
      ensures ok == db
      ensures runtime == if db then old(runtime)[queue := R.Of(old(runtime), queue).(paused := paused)]
                         else old(runtime)
      ensures db ==>
                var credit := if queue in old(runtime) then old(runtime)[queue].credit else 0.0;
                runtime[queue] == R.QueueRuntime(paused, credit)
    {
      if db {
        runtime := runtime[queue := R.Of(runtime, queue).(paused := paused)];
      }
      return db;
    }

    // One transaction over all the credits, in the map's own order.
    method SetRRCredits(credits: Credits.Table, db: bool) returns (ok: bool)
      modifies this`runtime
      ensures ok == db && runtime == if db then R.Charged(old(runtime), credits) else old(runtime)
      ensures db ==> forall q | q in credits ::
                q in runtime && runtime[q] ==
                  R.QueueRuntime(if q in old(runtime) then old(runtime)[q].paused else false, credits[q])
      ensures db ==> forall q | q !in credits ::
                (q in runtime <==> q in old(runtime)) && (q in runtime ==> runtime[q] == old(runtime)[q])
    {
      if !db {
        return false;
      }
      var rest := credits.Keys;
      while rest != {}
        invariant rest <= credits.Keys && runtime.Keys == old(runtime).Keys + (credits.Keys - rest)
        invariant forall q | q in runtime ::
                    runtime[q] == if q in credits && q !in rest then R.Of(old(runtime), q).(credit := credits[q])
                                  else R.Of(old(runtime), q)
        decreases rest
      {
        var q :| q in rest;
        runtime := runtime[q := R.Of(runtime, q).(credit := credits[q])];
        rest := rest - {q};
      }
      return true;
    }
  }
}
