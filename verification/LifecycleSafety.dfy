// What every step, and so every run, of the job lifecycle keeps.
module LifecycleSafety {
  import opened Jobs
  import opened Lifecycle
  import C = Classify

  // ----- who is running -----

  // The job the executor holds is marked running and its result is an end;
  // without a process nothing is held in memory.
  ghost predicate Held(s: Sys)
  {
    && (!s.exec.Idle? ==> s.exec.id in s.jobs && s.jobs[s.exec.id].status == Running)
    && (s.exec.Ended? || s.exec.Finishing? ==> s.exec.result.status.Terminal())
    && (!s.up ==> s.exec.Idle? && s.notices == multiset{} && s.removals == multiset{}
                  && s.parents == {} && s.replies == {})
    && "" !in s.jobs
  }

  // What any step may do to a job already in the table: follow the lifecycle
  // graph, freeze a job that has ended, and never touch what was submitted.
  ghost predicate RowEvolves(j: Job, k: Job)
  {
    && Edge(j.status, k.status)
    && (j.status.Terminal() ==> k == j)
    && k.queue == j.queue && k.key == j.key && k.parent == j.parent
    && k.input == j.input && k.priority == j.priority && k.resume == j.resume
    && j.attempts <= k.attempts
  }

  ghost predicate Evolves(before: Table, after: Table)
  {
    forall id | id in before :: id in after && RowEvolves(before[id], after[id])
  }

  ghost predicate Inserted(s: Sys, t: Sys, id: string, j: Job)
  {
    && id !in s.jobs
    && t == s.(jobs := s.jobs[id := j], born := s.born[id := |s.born|],
               log := s.log + [Answered(j.queue, j.key, id)])
  }

  ghost predicate Replayed(s: Sys, t: Sys, j: Job, first: string)
  {
    && first in s.jobs && s.jobs[first].queue == j.queue && s.jobs[first].key == j.key
    && t == s.(log := s.log + [Answered(j.queue, j.key, first)])
  }

  // An insert creates the row, or answers with the row that has the key, or
  // fails.
  lemma CreatedShape(s: Sys, id: string, j: Job) returns (first: string)
    ensures var t := Created(s, id, j); Inserted(s, t, id, j) || Replayed(s, t, j, first) || t == s
    ensures Inserted(s, Created(s, id, j), id, j) ==> Insertable(s.jobs, id, j)
  {
    first := id;
    if !Insertable(s.jobs, id, j) && KeyTaken(s.jobs, j.queue, j.key) {
      first := KeyHolder(s.jobs, j.queue, j.key);
    }
  }

  lemma CreatedEvolves(s: Sys, id: string, j: Job)
    ensures Evolves(s.jobs, Created(s, id, j).jobs)
  {
    var first := CreatedShape(s, id, j);
  }

  lemma RowStepEvolves(jobs: Table, id: string, k: Job)
    requires id in jobs && RowEvolves(jobs[id], k)
    ensures Evolves(jobs, jobs[id := k])
  {
  }

  lemma ApiEvolves(s: Sys, a: ApiAction)
    requires ApiEnabled(s, a)
    ensures Evolves(s.jobs, ApiStep(s, a).jobs)
  {
    match a {
      case Submit(id, q, priority, input, key) => CreatedEvolves(s, id, NewJob(q, priority, input, key));
      case ReadParent(p) =>
      case ReadAsked(p) =>
      case Retry(p, id) => CreatedEvolves(s.(parents := s.parents - {p}), id, Jobs.NewChild(s.jobs[p], p));
      case Reply(p, id, input) =>
        CreatedEvolves(s.(replies := s.replies - {p}), id, Jobs.ReplyChild(s.jobs[p], p, input));
      case CancelQueued(id, now) => RowStepEvolves(s.jobs, id, CancelRow(s.jobs[id], now));
      case CancelRunning(id) =>
    }
  }

  lemma ExecEvolves(s: Sys, a: ExecAction)
    requires Held(s) && ExecEnabled(s, a)
    ensures Evolves(s.jobs, ExecStep(s, a).jobs)
  {
    match a {
      case Claim(q, id, now) => RowStepEvolves(s.jobs, id, ClaimRow(s.jobs[id], now));
      case SetupFails(kind) =>
      case Start =>
      case Tool =>
      case Exit(run) =>
      case Requeue => RowStepEvolves(s.jobs, s.exec.id, RequeueRow(s.jobs[s.exec.id]));
      case Decide =>
      case Finish(now) => RowStepEvolves(s.jobs, s.exec.id, FinishRow(s.jobs[s.exec.id], s.exec.result, now));
      case FinishFails =>
    }
  }

  lemma NotifiedFrame(s: Sys, id: string, now: int)
    ensures var t := Notified(s, id, now);
            t.jobs == s.jobs && t.up == s.up && t.orphans == s.orphans && t.exec == s.exec && t.log == s.log
  {
  }

  // Only the removal of a queue touches jobs here.
  lemma NoticeFrame(s: Sys, a: NoticeAction)
    requires NoticeEnabled(s, a)
    ensures var t := NoticeStep(s, a);
            && t.jobs == (if a.FailSelected? then QueueFailed(s.jobs, a.removal.queue, QueueRemoved, a.now) else s.jobs)
            && t.up == s.up && t.orphans == s.orphans && t.exec == s.exec && t.log == s.log
  {
    match a {
      case SelectQueued(q) =>
      case FailSelected(r, now) =>
      case AbandonSelected(r) =>
      case Notify(id, now) => NotifiedFrame(s, id, now);
      case DropNotice(id) =>
      case ServiceEvent(t, q, now) =>
      case Deliver(k, attempts, nextAt, state) =>
    }
  }

  lemma NoticeEvolves(s: Sys, a: NoticeAction)
    requires NoticeEnabled(s, a)
    ensures Evolves(s.jobs, NoticeStep(s, a).jobs)
  {
    NoticeFrame(s, a);
  }

  lemma StepEvolves(s: Sys, a: Action)
    requires Held(s) && Enabled(s, a)
    ensures Evolves(s.jobs, Step(s, a).jobs)
  {
    match a {
      case Api(x) => ApiEvolves(s, x);
      case Exec(x) => ExecEvolves(s, x);
      case Notice(x) => NoticeEvolves(s, x);
      case Reload(queues) =>
      case Crash =>
      case Boot(queues, now) =>
    }
  }

  lemma CreatedHeld(s: Sys, id: string, j: Job)
    requires Held(s) && s.up && id != ""
    ensures Held(Created(s, id, j))
  {
    var first := CreatedShape(s, id, j);
  }

  lemma ApiKeepsHeld(s: Sys, a: ApiAction)
    requires Held(s) && s.up && ApiEnabled(s, a)
    ensures Held(ApiStep(s, a))
  {
    match a {
      case Submit(id, q, priority, input, key) => CreatedHeld(s, id, NewJob(q, priority, input, key));
      case ReadParent(p) =>
      case ReadAsked(p) =>
      case Retry(p, id) => CreatedHeld(s.(parents := s.parents - {p}), id, Jobs.NewChild(s.jobs[p], p));
      case Reply(p, id, input) =>
        CreatedHeld(s.(replies := s.replies - {p}), id, Jobs.ReplyChild(s.jobs[p], p, input));
      case CancelQueued(id, now) =>
      case CancelRunning(id) =>
    }
  }

  lemma ExecKeepsHeld(s: Sys, a: ExecAction)
    requires Held(s) && s.up && ExecEnabled(s, a)
    ensures Held(ExecStep(s, a))
  {
    match a {
      case Claim(q, id, now) =>
      case SetupFails(kind) =>
      case Start =>
      case Tool =>
      case Exit(run) => C.ClassifyEnds(run);
      case Requeue =>
      case Decide =>
      case Finish(now) =>
      case FinishFails =>
    }
  }

  lemma NoticeKeepsHeld(s: Sys, a: NoticeAction)
    requires Held(s) && s.up && NoticeEnabled(s, a)
    ensures Held(NoticeStep(s, a))
  {
    match a {
      case SelectQueued(q) =>
      case FailSelected(r, now) =>
      case AbandonSelected(r) =>
      case Notify(id, now) =>
      case DropNotice(id) =>
      case ServiceEvent(t, q, now) =>
      case Deliver(k, attempts, nextAt, state) =>
    }
  }

  lemma StepKeepsHeld(s: Sys, a: Action)
    requires Held(s) && Enabled(s, a)
    ensures Held(Step(s, a))
  {
    match a {
      case Api(x) => ApiKeepsHeld(s, x);
      case Exec(x) => ExecKeepsHeld(s, x);
      case Notice(x) => NoticeKeepsHeld(s, x);
      case Reload(queues) =>
      case Crash =>
      case Boot(queues, now) =>
    }
  }

  // ----- who is marked running -----

  // A row is marked running exactly when the executor holds it or its executor
  // is gone.
  ghost predicate Accounted(s: Sys)
  {
    && RunningRows(s.jobs) == s.orphans + s.exec.InFlight()
    && s.orphans !! s.exec.InFlight()
  }

  lemma RunningAfterUpdate(jobs: Table, id: string, k: Job)
    ensures RunningRows(jobs[id := k]) ==
              if k.status == Running then RunningRows(jobs) + {id} else RunningRows(jobs) - {id}
  {
  }

  lemma CreatedRunning(s: Sys, id: string, j: Job)
    requires j.status == Queued && Accounted(s)
    ensures Accounted(Created(s, id, j))
  {
    var first := CreatedShape(s, id, j);
    RunningAfterUpdate(s.jobs, id, j);
  }

  lemma ApiKeepsAccounted(s: Sys, a: ApiAction)
    requires Accounted(s) && ApiEnabled(s, a)
    ensures Accounted(ApiStep(s, a))
  {
    match a {
      case Submit(id, q, priority, input, key) => CreatedRunning(s, id, NewJob(q, priority, input, key));
      case ReadParent(p) =>
      case ReadAsked(p) =>
      case Retry(p, id) => CreatedRunning(s.(parents := s.parents - {p}), id, Jobs.NewChild(s.jobs[p], p));
      case Reply(p, id, input) =>
        CreatedRunning(s.(replies := s.replies - {p}), id, Jobs.ReplyChild(s.jobs[p], p, input));
      case CancelQueued(id, now) => RunningAfterUpdate(s.jobs, id, CancelRow(s.jobs[id], now));
      case CancelRunning(id) =>
    }
  }

  lemma ExecKeepsAccounted(s: Sys, a: ExecAction)
    requires Held(s) && Accounted(s) && ExecEnabled(s, a)
    ensures Accounted(ExecStep(s, a))
  {
    match a {
      case Claim(q, id, now) => RunningAfterUpdate(s.jobs, id, ClaimRow(s.jobs[id], now));
      case SetupFails(kind) =>
      case Start =>
      case Tool =>
      case Exit(run) =>
      case Requeue => RunningAfterUpdate(s.jobs, s.exec.id, RequeueRow(s.jobs[s.exec.id]));
      case Decide =>
      case Finish(now) => RunningAfterUpdate(s.jobs, s.exec.id, FinishRow(s.jobs[s.exec.id], s.exec.result, now));
      case FinishFails =>
    }
  }

  lemma NoticeKeepsAccounted(s: Sys, a: NoticeAction)
    requires Accounted(s) && NoticeEnabled(s, a)
    ensures Accounted(NoticeStep(s, a))
  {
    match a {
      case SelectQueued(q) =>
      case FailSelected(r, now) =>
        assert RunningRows(QueueFailed(s.jobs, r.queue, QueueRemoved, now)) == RunningRows(s.jobs);
      case AbandonSelected(r) =>
      case Notify(id, now) =>
      case DropNotice(id) =>
      case ServiceEvent(t, q, now) =>
      case Deliver(k, attempts, nextAt, state) =>
    }
  }

  lemma StepKeepsAccounted(s: Sys, a: Action)
    requires Held(s) && Accounted(s) && Enabled(s, a)
    ensures Accounted(Step(s, a))
  {
    match a {
      case Api(x) => ApiKeepsAccounted(s, x);
      case Exec(x) => ExecKeepsAccounted(s, x);
      case Notice(x) => NoticeKeepsAccounted(s, x);
      case Reload(queues) =>
      case Crash =>
      case Boot(queues, now) => assert RunningRows(Jobs.Recovered(s.jobs, now)) == {};
    }
  }

  // ----- tool calls -----

  ghost function Calls(log: seq<Entry>, id: string): nat
  {
    if log == [] then 0
    else Calls(log[..|log| - 1], id) + if log[|log| - 1] == UsedTool(id) then 1 else 0
  }

  lemma CallsSnoc(log: seq<Entry>, e: Entry, id: string)
    ensures Calls(log + [e], id) == Calls(log, id) + if e == UsedTool(id) then 1 else 0
  {
    assert (log + [e])[..|log|] == log;
  }

  ghost function Made(p: Phase): nat
  {
    match p
    case Live(_, tools, _) => tools
    case Ended(_, r) => r.toolCalls
    case Finishing(_, r, _) => r.toolCalls
    case _ => 0
  }

  // What a row says about its tool calls is the whole truth, except for an
  // interrupted job, whose calls were never recorded; a job that can still be
  // claimed has made none.
  ghost predicate TalliedRow(j: Job, calls: nat)
  {
    && (j.status == Queued || j.status == Running ==> j.toolCalls == 0)
    && (j.status != Running && j.status != Interrupted ==> calls == j.toolCalls)
  }

  ghost predicate Tallied(s: Sys)
  {
    && (forall id | id !in s.jobs :: Calls(s.log, id) == 0)
    && (forall id | id in s.jobs :: TalliedRow(s.jobs[id], Calls(s.log, id)))
    && (!s.exec.Idle? ==> Calls(s.log, s.exec.id) == Made(s.exec))
  }

  lemma OtherEntries(log: seq<Entry>, e: Entry)
    requires !e.UsedTool?
    ensures forall id :: Calls(log + [e], id) == Calls(log, id)
  {
    forall id { CallsSnoc(log, e, id); }
  }

  lemma CreatedTallied(s: Sys, id: string, j: Job)
    requires Tallied(s) && j.status == Queued && j.toolCalls == 0
    ensures Tallied(Created(s, id, j))
  {
    var first := CreatedShape(s, id, j);
    OtherEntries(s.log, Answered(j.queue, j.key, id));
    OtherEntries(s.log, Answered(j.queue, j.key, first));
  }

  lemma ApiKeepsTallied(s: Sys, a: ApiAction)
    requires Tallied(s) && ApiEnabled(s, a)
    ensures Tallied(ApiStep(s, a))
  {
    match a {
      case Submit(id, q, priority, input, key) => CreatedTallied(s, id, NewJob(q, priority, input, key));
      case ReadParent(p) =>
      case ReadAsked(p) =>
      case Retry(p, id) => CreatedTallied(s.(parents := s.parents - {p}), id, Jobs.NewChild(s.jobs[p], p));
      case Reply(p, id, input) =>
        CreatedTallied(s.(replies := s.replies - {p}), id, Jobs.ReplyChild(s.jobs[p], p, input));
      case CancelQueued(id, now) =>
      case CancelRunning(id) =>
    }
  }

  lemma ToolKeepsTallied(s: Sys)
    requires Held(s) && Tallied(s) && s.exec.Live?
    ensures Tallied(ExecStep(s, Tool))
  {
    var id, log := s.exec.id, s.log + [UsedTool(s.exec.id)];
    forall x ensures Calls(log, x) == Calls(s.log, x) + if x == id then 1 else 0 {
      CallsSnoc(s.log, UsedTool(id), x);
    }
    assert TalliedRow(s.jobs[id], Calls(s.log, id));
  }

  lemma FinishKeepsTallied(s: Sys, now: int)
    requires Held(s) && Tallied(s) && s.exec.Finishing?
    ensures Tallied(FinishCommitted(s, now))
  {
    var t, id := FinishCommitted(s, now), s.exec.id;
    OtherEntries(s.log, FinishedJob(id, s.exec.result.status, s.exec.route));
    assert t.jobs == s.jobs[id := FinishRow(s.jobs[id], s.exec.result, now)];
    forall x | x in t.jobs ensures TalliedRow(t.jobs[x], Calls(t.log, x)) {
      assert TalliedRow(s.jobs[x], Calls(s.log, x));
    }
  }

  lemma ExecKeepsTallied(s: Sys, a: ExecAction)
    requires Held(s) && Tallied(s) && ExecEnabled(s, a)
    ensures Tallied(ExecStep(s, a))
  {
    match a {
      case Claim(q, id, now) => OtherEntries(s.log, ClaimedJob(id));
      case SetupFails(kind) =>
      case Start =>
      case Tool => ToolKeepsTallied(s);
      case Exit(run) => C.ClassifyEnds(run);
      case Requeue =>
      case Decide =>
      case Finish(now) => FinishKeepsTallied(s, now);
      case FinishFails =>
    }
  }

  lemma NoticeKeepsTallied(s: Sys, a: NoticeAction)
    requires Tallied(s) && NoticeEnabled(s, a)
    ensures Tallied(NoticeStep(s, a))
  {
    match a {
      case SelectQueued(q) =>
      case FailSelected(r, now) =>
      case AbandonSelected(r) =>
      case Notify(id, now) =>
      case DropNotice(id) =>
      case ServiceEvent(t, q, now) =>
      case Deliver(k, attempts, nextAt, state) =>
    }
  }

  lemma StepKeepsTallied(s: Sys, a: Action)
    requires Held(s) && Tallied(s) && Enabled(s, a)
    ensures Tallied(Step(s, a))
  {
    match a {
      case Api(x) => ApiKeepsTallied(s, x);
      case Exec(x) => ExecKeepsTallied(s, x);
      case Notice(x) => NoticeKeepsTallied(s, x);
      case Reload(queues) =>
      case Crash =>
      case Boot(queues, now) =>
    }
  }

  // A job is never claimed after a tool call was seen for it.
  ghost predicate ClaimedBeforeTools(log: seq<Entry>)
  {
    forall i, j | 0 <= i < j < |log| && log[i].UsedTool? && log[j].ClaimedJob? :: log[i].id != log[j].id
  }

  lemma {:induction false} SeenMeansCounted(log: seq<Entry>, id: string)
    ensures UsedTool(id) in log <==> Calls(log, id) > 0
  {
    if log != [] {
      SeenMeansCounted(log[..|log| - 1], id);
      assert log == log[..|log| - 1] + [log[|log| - 1]];
    }
  }

  lemma SnocKeepsOrder(log: seq<Entry>, e: Entry)
    requires ClaimedBeforeTools(log)
    requires e.ClaimedJob? ==> UsedTool(e.id) !in log
    ensures ClaimedBeforeTools(log + [e])
  {
    var all := log + [e];
    forall i, j | 0 <= i < j < |all| && all[i].UsedTool? && all[j].ClaimedJob? ensures all[i].id != all[j].id {
      if j == |log| { assert all[i] == log[i] && log[i] in log && log[i] == UsedTool(all[i].id); }
    }
  }

  // What a step adds to the history.
  lemma StepAppends(s: Sys, a: Action)
    requires Enabled(s, a)
    ensures Step(s, a).log == s.log
            || (exists e :: Step(s, a).log == s.log + [e]
                            && (e.ClaimedJob? ==> e.id in s.jobs && s.jobs[e.id].status == Queued))
  {
    match a {
      case Api(x) => ApiAppends(s, x);
      case Exec(x) => ExecAppends(s, x);
      case Notice(x) => NoticeAppends(s, x);
      case Reload(queues) =>
      case Crash =>
      case Boot(queues, now) =>
    }
  }

  lemma NoticeAppends(s: Sys, a: NoticeAction)
    ensures NoticeStep(s, a).log == s.log
  {
    match a {
      case SelectQueued(q) =>
      case FailSelected(r, now) =>
      case AbandonSelected(r) =>
      case Notify(id, now) =>
      case DropNotice(id) =>
      case ServiceEvent(t, q, now) =>
      case Deliver(k, attempts, nextAt, state) =>
    }
  }

  lemma ApiAppends(s: Sys, a: ApiAction)
    requires ApiEnabled(s, a)
    ensures ApiStep(s, a).log == s.log
            || (exists e :: ApiStep(s, a).log == s.log + [e] && e.Answered?)
  {
    match a {
      case Submit(id, q, priority, input, key) =>
      case ReadParent(p) =>
      case ReadAsked(p) =>
      case Retry(p, id) =>
      case Reply(p, id, input) =>
      case CancelQueued(id, now) =>
      case CancelRunning(id) =>
    }
  }

  lemma ExecAppends(s: Sys, a: ExecAction)
    requires ExecEnabled(s, a)
    ensures ExecStep(s, a).log == s.log
            || (exists e :: ExecStep(s, a).log == s.log + [e]
                            && (e.ClaimedJob? ==> e.id in s.jobs && s.jobs[e.id].status == Queued))
  {
    match a {
      case Claim(q, id, now) =>
        assert ExecStep(s, a).log == s.log + [ClaimedJob(id)];
      case SetupFails(kind) =>
      case Start =>
      case Tool =>
        assert ExecStep(s, a).log == s.log + [UsedTool(s.exec.id)];
      case Exit(run) =>
      case Requeue =>
      case Decide =>
      case Finish(now) =>
        assert ExecStep(s, a).log == s.log + [FinishedJob(s.exec.id, s.exec.result.status, s.exec.route)];
      case FinishFails =>
    }
  }

  lemma StepKeepsOrder(s: Sys, a: Action)
    requires Tallied(s) && ClaimedBeforeTools(s.log) && Enabled(s, a)
    ensures ClaimedBeforeTools(Step(s, a).log)
  {
    StepAppends(s, a);
    if Step(s, a).log != s.log {
      var e :| Step(s, a).log == s.log + [e]
               && (e.ClaimedJob? ==> e.id in s.jobs && s.jobs[e.id].status == Queued);
      if e.ClaimedJob? { SeenMeansCounted(s.log, e.id); }
      SnocKeepsOrder(s.log, e);
    }
  }
}
