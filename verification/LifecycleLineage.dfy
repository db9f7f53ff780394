// Idempotency keys, parent links and timestamps.
module LifecycleLineage {
  import opened Jobs
  import opened Lifecycle
  import opened LifecycleSafety

  // ----- idempotency -----

  ghost predicate UniqueKeys(jobs: Table)
  {
    forall a, b | a in jobs && b in jobs && jobs[a].key != "" && jobs[a].queue == jobs[b].queue
                  && jobs[a].key == jobs[b].key :: a == b
  }

  // Whoever submitted with a key was answered with the job that has it.
  ghost predicate AnsweredTruly(jobs: Table, e: Entry)
  {
    e.Answered? ==> e.id in jobs && jobs[e.id].queue == e.queue && jobs[e.id].key == e.key
  }

  ghost predicate Keyed(s: Sys)
  {
    UniqueKeys(s.jobs) && forall e | e in s.log :: AnsweredTruly(s.jobs, e)
  }

  // Every answer to the same queue and key names the same job.
  lemma SameKeySameJob(s: Sys, e: Entry, f: Entry)
    requires Keyed(s) && e in s.log && f in s.log && e.Answered? && f.Answered?
    requires e.key != "" && e.queue == f.queue && e.key == f.key
    ensures e.id == f.id
  {
    assert AnsweredTruly(s.jobs, e) && AnsweredTruly(s.jobs, f);
  }

  lemma CreatedKeyed(s: Sys, id: string, j: Job)
    requires Keyed(s)
    ensures Keyed(Created(s, id, j))
  {
    var first := CreatedShape(s, id, j);
    var t := Created(s, id, j);
    if Inserted(s, t, id, j) {
      forall a | a in s.jobs && s.jobs[a].queue == j.queue && s.jobs[a].key == j.key && j.key != "" ensures false {
        assert KeyTaken(s.jobs, j.queue, j.key);
      }
    }
  }

  // No statement but INSERT adds rows or answers; no other handler reads parents.
  ghost predicate NoNewRows(s: Sys, t: Sys)
  {
    && t.jobs.Keys == s.jobs.Keys && t.born == s.born
    && t.parents <= s.parents && t.replies <= s.replies
    && (forall e | e in t.log && e.Answered? :: e in s.log)
  }

  lemma NoNewRowsKeepsKeyed(s: Sys, t: Sys)
    requires Keyed(s) && Evolves(s.jobs, t.jobs) && NoNewRows(s, t)
    ensures Keyed(t)
  {
    forall e | e in t.log ensures AnsweredTruly(t.jobs, e) {
      if e.Answered? { assert AnsweredTruly(s.jobs, e); }
    }
  }

  lemma ExecAddsNoRows(s: Sys, a: ExecAction)
    requires Held(s) && ExecEnabled(s, a)
    ensures NoNewRows(s, ExecStep(s, a))
  {
    match a {
      case Claim(q, id, now) =>
      case SetupFails(kind) =>
      case Start =>
      case Tool =>
      case Exit(run) =>
      case Requeue =>
      case Decide =>
      case Finish(now) =>
      case FinishFails =>
    }
  }

  lemma NoticeAddsNoRows(s: Sys, a: NoticeAction)
    requires NoticeEnabled(s, a)
    ensures NoNewRows(s, NoticeStep(s, a))
  {
    match a {
      case SelectQueued(q) =>
      case FailSelected(r, now) =>
      case AbandonSelected(r) =>
      case Notify(id, now) =>
      case DropNotice(id) =>
      case ServiceEvent(t, q, now) =>
      case Deliver(k, attempts, nextAt, state) =>
    }
  }

  lemma AddsNoRows(s: Sys, a: Action)
    requires Held(s) && Enabled(s, a) && !a.Api?
    ensures NoNewRows(s, Step(s, a))
  {
    match a {
      case Exec(x) => ExecAddsNoRows(s, x);
      case Notice(x) => NoticeAddsNoRows(s, x);
      case Reload(queues) =>
      case Crash =>
      case Boot(queues, now) =>
    }
  }

  lemma ApiKeepsKeyed(s: Sys, a: ApiAction)
    requires Keyed(s) && ApiEnabled(s, a)
    ensures Keyed(ApiStep(s, a))
  {
    match a {
      case Submit(id, q, priority, input, key) => CreatedKeyed(s, id, NewJob(q, priority, input, key));
      case ReadParent(p) =>
      case ReadAsked(p) =>
      case Retry(p, id) => CreatedKeyed(s.(parents := s.parents - {p}), id, Jobs.NewChild(s.jobs[p], p));
      case Reply(p, id, input) =>
        CreatedKeyed(s.(replies := s.replies - {p}), id, Jobs.ReplyChild(s.jobs[p], p, input));
      case CancelQueued(id, now) =>
        ApiEvolves(s, a);
        NoNewRowsKeepsKeyed(s, ApiStep(s, a));
      case CancelRunning(id) =>
    }
  }

  lemma StepKeepsKeyed(s: Sys, a: Action)
    requires Held(s) && Keyed(s) && Enabled(s, a)
    ensures Keyed(Step(s, a))
  {
    if a.Api? {
      ApiKeepsKeyed(s, a.api);
    } else {
      StepEvolves(s, a);
      AddsNoRows(s, a);
      NoNewRowsKeepsKeyed(s, Step(s, a));
    }
  }

  // ----- lineage -----

  // A child was created after its parent, which has ended without succeeding,
  // in its queue and with its priority; a reply resumes the session of a parent
  // that asked for input, and a retry repeats its parent's input.
  ghost predicate Descends(jobs: Table, born: map<string, nat>, id: string)
    requires id in jobs
  {
    && id in born && born[id] < |born|
    && (jobs[id].parent != "" ==>
          var p := jobs[id].parent;
          && p in jobs && p in born && born[p] < born[id]
          && jobs[p].status.Retryable()
          && jobs[id].queue == jobs[p].queue && jobs[id].priority == jobs[p].priority
          && (jobs[id].resume == "" ==> jobs[id].input == jobs[p].input)
          && (jobs[id].resume != "" ==> jobs[p].status == NeedsInput && jobs[id].resume == jobs[p].sessionId))
    && (jobs[id].parent == "" ==> jobs[id].resume == "")
  }

  ghost predicate AllDescend(jobs: Table, born: map<string, nat>)
  {
    born.Keys == jobs.Keys && forall id | id in jobs :: Descends(jobs, born, id)
  }

  // A handler that is about to insert a child has read a parent that stays one.
  ghost predicate ReadersTrue(jobs: Table, parents: set<string>, replies: set<string>)
  {
    && (forall p | p in parents :: p in jobs && jobs[p].status.Retryable())
    && (forall p | p in replies :: p in jobs && jobs[p].status == NeedsInput && jobs[p].sessionId != "")
  }

  ghost predicate Rooted(s: Sys)
  {
    AllDescend(s.jobs, s.born) && ReadersTrue(s.jobs, s.parents, s.replies)
  }

  lemma EvolvedReaders(before: Table, after: Table, parents: set<string>, replies: set<string>,
                       parentsLeft: set<string>, repliesLeft: set<string>)
    requires Evolves(before, after) && ReadersTrue(before, parents, replies)
    requires parentsLeft <= parents && repliesLeft <= replies
    ensures ReadersTrue(after, parentsLeft, repliesLeft)
  {
  }

  lemma EvolvedDescends(before: Table, after: Table, born: map<string, nat>)
    requires Evolves(before, after) && after.Keys == before.Keys
    requires AllDescend(before, born)
    ensures AllDescend(after, born)
  {
    forall id | id in after ensures Descends(after, born, id) {
      EvolvedRow(before, after, born, id);
    }
  }

  lemma EvolvedRow(before: Table, after: Table, born: map<string, nat>, id: string)
    requires Evolves(before, after) && id in before && id in after && Descends(before, born, id)
    ensures Descends(after, born, id)
  {
    assert RowEvolves(before[id], after[id]);
    var p := before[id].parent;
    if p != "" { assert RowEvolves(before[p], after[p]); }
  }

  lemma EvolvedRooted(s: Sys, t: Sys)
    requires Rooted(s) && Evolves(s.jobs, t.jobs) && NoNewRows(s, t)
    ensures Rooted(t)
  {
    EvolvedDescends(s.jobs, t.jobs, s.born);
    EvolvedReaders(s.jobs, t.jobs, s.parents, s.replies, t.parents, t.replies);
  }

  ghost predicate ChildOf(jobs: Table, j: Job)
  {
    if j.parent == "" then j.resume == ""
    else
      && j.parent in jobs && jobs[j.parent].status.Retryable()
      && j.queue == jobs[j.parent].queue && j.priority == jobs[j.parent].priority
      && (j.resume == "" ==> j.input == jobs[j.parent].input)
      && (j.resume != "" ==> jobs[j.parent].status == NeedsInput && j.resume == jobs[j.parent].sessionId)
  }

  lemma InsertedDescends(s: Sys, id: string, j: Job)
    requires Rooted(s) && id !in s.jobs && ChildOf(s.jobs, j)
    ensures AllDescend(s.jobs[id := j], s.born[id := |s.born|])
  {
    var jobs, born := s.jobs[id := j], s.born[id := |s.born|];
    assert |born| == |s.born| + 1;
    forall x | x in jobs ensures Descends(jobs, born, x) {
      if x in s.jobs { assert Descends(s.jobs, s.born, x); }
      if x == id && j.parent != "" { assert Descends(s.jobs, s.born, j.parent); }
    }
  }

  // A table that only grows keeps what has been read.
  lemma GrownReaders(before: Table, after: Table, parents: set<string>, replies: set<string>)
    requires ReadersTrue(before, parents, replies)
    requires forall x | x in before :: x in after && after[x] == before[x]
    ensures ReadersTrue(after, parents, replies)
  {
  }

  lemma InsertedRooted(s: Sys, id: string, j: Job)
    requires Rooted(s) && ChildOf(s.jobs, j) && Insertable(s.jobs, id, j)
    ensures Rooted(Created(s, id, j))
  {
    InsertedDescends(s, id, j);
    GrownReaders(s.jobs, s.jobs[id := j], s.parents, s.replies);
  }

  lemma CreatedRooted(s: Sys, id: string, j: Job)
    requires Rooted(s) && ChildOf(s.jobs, j)
    ensures Rooted(Created(s, id, j))
  {
    if Insertable(s.jobs, id, j) { InsertedRooted(s, id, j); }
  }

  lemma RetryRooted(s: Sys, p: string, id: string)
    requires Held(s) && Rooted(s) && p in s.parents
    ensures Rooted(Created(s.(parents := s.parents - {p}), id, Jobs.NewChild(s.jobs[p], p)))
  {
    CreatedRooted(s.(parents := s.parents - {p}), id, Jobs.NewChild(s.jobs[p], p));
  }

  lemma ReplyRooted(s: Sys, p: string, id: string, input: string)
    requires Held(s) && Rooted(s) && p in s.replies
    ensures Rooted(Created(s.(replies := s.replies - {p}), id, Jobs.ReplyChild(s.jobs[p], p, input)))
  {
    CreatedRooted(s.(replies := s.replies - {p}), id, Jobs.ReplyChild(s.jobs[p], p, input));
  }

  lemma CancelRooted(s: Sys, id: string, now: int)
    requires Held(s) && Rooted(s) && ApiEnabled(s, CancelQueued(id, now))
    ensures Rooted(ApiStep(s, CancelQueued(id, now)))
  {
    ApiEvolves(s, CancelQueued(id, now));
    EvolvedRooted(s, ApiStep(s, CancelQueued(id, now)));
  }

  lemma ApiKeepsRooted(s: Sys, a: ApiAction)
    requires Held(s) && Rooted(s) && ApiEnabled(s, a)
    ensures Rooted(ApiStep(s, a))
  {
    match a {
      case Submit(id, q, priority, input, key) => CreatedRooted(s, id, NewJob(q, priority, input, key));
      case ReadParent(p) =>
      case ReadAsked(p) =>
      case Retry(p, id) => RetryRooted(s, p, id);
      case Reply(p, id, input) => ReplyRooted(s, p, id, input);
      case CancelQueued(id, now) => CancelRooted(s, id, now);
      case CancelRunning(id) =>
    }
  }

  lemma StepKeepsRooted(s: Sys, a: Action)
    requires Held(s) && Rooted(s) && Enabled(s, a)
    ensures Rooted(Step(s, a))
  {
    if a.Api? {
      ApiKeepsRooted(s, a.api);
    } else {
      StepEvolves(s, a);
      AddsNoRows(s, a);
      EvolvedRooted(s, Step(s, a));
    }
  }

  // path climbs from a job through parents.
  ghost predicate Climbs(jobs: Table, path: seq<string>)
  {
    forall i | 0 <= i < |path| - 1 ::
      path[i] in jobs && jobs[path[i]].parent != "" && path[i + 1] == jobs[path[i]].parent
  }

  // Parent links form a forest: climbing them never returns to a job already
  // passed, because every step goes to an earlier creation.
  lemma {:induction false} NoCycle(s: Sys, path: seq<string>)
    requires Rooted(s) && Climbs(s.jobs, path) && |path| >= 2
    ensures path[|path| - 1] in s.jobs && path[0] in s.jobs
    ensures s.born[path[|path| - 1]] < s.born[path[0]]
  {
    assert path[0] in s.jobs && Descends(s.jobs, s.born, path[0]);
    if |path| > 2 {
      NoCycle(s, path[1..]);
    }
  }

  // ----- timestamps -----

  ghost predicate Stamped(j: Job)
  {
    && (j.finishedAt.Some? <==> j.status.Terminal())
    && (j.status == Queued ==> j.startedAt.None?)
    && (j.status == Running ==> j.startedAt.Some?)
  }

  ghost predicate AllStamped(s: Sys) { forall id | id in s.jobs :: Stamped(s.jobs[id]) }

  lemma CreatedStamped(s: Sys, id: string, j: Job)
    requires AllStamped(s) && Stamped(j)
    ensures AllStamped(Created(s, id, j))
  {
    var first := CreatedShape(s, id, j);
  }

  lemma ApiKeepsStamps(s: Sys, a: ApiAction)
    requires AllStamped(s) && ApiEnabled(s, a)
    ensures AllStamped(ApiStep(s, a))
  {
    match a {
      case Submit(id, q, priority, input, key) => CreatedStamped(s, id, NewJob(q, priority, input, key));
      case ReadParent(p) =>
      case ReadAsked(p) =>
      case Retry(p, id) => CreatedStamped(s.(parents := s.parents - {p}), id, Jobs.NewChild(s.jobs[p], p));
      case Reply(p, id, input) =>
        CreatedStamped(s.(replies := s.replies - {p}), id, Jobs.ReplyChild(s.jobs[p], p, input));
      case CancelQueued(id, now) =>
      case CancelRunning(id) =>
    }
  }

  lemma ExecKeepsStamps(s: Sys, a: ExecAction)
    requires Held(s) && AllStamped(s) && ExecEnabled(s, a)
    ensures AllStamped(ExecStep(s, a))
  {
    match a {
      case Claim(q, id, now) =>
      case SetupFails(kind) =>
      case Start =>
      case Tool =>
      case Exit(run) =>
      case Requeue =>
      case Decide =>
      case Finish(now) =>
      case FinishFails =>
    }
  }

  lemma NoticeKeepsStamps(s: Sys, a: NoticeAction)
    requires AllStamped(s) && NoticeEnabled(s, a)
    ensures AllStamped(NoticeStep(s, a))
  {
    match a {
      case SelectQueued(q) =>
      case FailSelected(r, now) =>
      case AbandonSelected(r) =>
      case Notify(id, now) =>
      case DropNotice(id) =>
      case ServiceEvent(t, q, now) =>
      case Deliver(k, attempts, nextAt, state) =>
    }
  }

  // Finished jobs, and only they, carry a finish time; a requeued job forgets
  // its start time.
  lemma StepKeepsStamps(s: Sys, a: Action)
    requires Held(s) && AllStamped(s) && Enabled(s, a)
    ensures AllStamped(Step(s, a))
  {
    match a {
      case Api(x) => ApiKeepsStamps(s, x);
      case Exec(x) => ExecKeepsStamps(s, x);
      case Notice(x) => NoticeKeepsStamps(s, x);
      case Reload(queues) =>
      case Crash =>
      case Boot(queues, now) =>
    }
  }
}
