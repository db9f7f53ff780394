// The transactional outbox: which notifications exist for which jobs.
module LifecycleOutbox {
  import opened Jobs
  import opened Events
  import opened Lifecycle
  import opened LifecycleSafety

  // The receivers a job's event was addressed to, one per outbox row.
  ghost function RowUrls(outbox: seq<Row>, id: string): multiset<string>
  {
    if outbox == [] then multiset{}
    else
      var r := outbox[|outbox| - 1];
      RowUrls(outbox[..|outbox| - 1], id) + if r.job == id then multiset{r.url} else multiset{}
  }

  lemma {:induction false} RowUrlsAppend(a: seq<Row>, b: seq<Row>, id: string)
    ensures RowUrls(a + b, id) == RowUrls(a, id) + RowUrls(b, id)
  {
    if b == [] {
      assert a + b == a;
    } else {
      assert (a + b)[..|a + b| - 1] == a + b[..|b| - 1];
      RowUrlsAppend(a, b[..|b| - 1], id);
    }
  }

  lemma {:induction false} RowUrlsOfRoute(route: seq<string>, t: EventType, queue: string, job: string, now: int,
                                          id: string)
    ensures RowUrls(Rows(route, t, queue, job, now), id) == if id == job then multiset(route) else multiset{}
  {
    if route != [] {
      var n := |route| - 1;
      assert Rows(route, t, queue, job, now)[..n] == Rows(route[..n], t, queue, job, now);
      RowUrlsOfRoute(route[..n], t, queue, job, now, id);
      assert route == route[..n] + [route[n]];
    }
  }

  lemma {:induction false} RowUrlsUpdate(outbox: seq<Row>, k: nat, r: Row, id: string)
    requires k < |outbox| && r.job == outbox[k].job && r.url == outbox[k].url
    ensures RowUrls(outbox[k := r], id) == RowUrls(outbox, id)
  {
    var n := |outbox| - 1;
    if k < n {
      assert outbox[k := r][..n] == outbox[..n][k := r];
      RowUrlsUpdate(outbox[..n], k, r, id);
    } else {
      assert outbox[k := r][..n] == outbox[..n];
    }
  }

  // ----- every job event is true of its job -----

  ghost predicate TrueRow(jobs: Table, r: Row)
  {
    r.job != "" ==>
      r.job in jobs && ForStatus(jobs[r.job].status) == Some(r.event) && r.queue == jobs[r.job].queue
  }

  ghost predicate RowsTrue(s: Sys) { forall k | 0 <= k < |s.outbox| :: TrueRow(s.jobs, s.outbox[k]) }

  lemma TrueRowsStay(before: Table, after: Table, outbox: seq<Row>)
    requires Evolves(before, after)
    requires forall k | 0 <= k < |outbox| :: TrueRow(before, outbox[k])
    ensures forall k | 0 <= k < |outbox| :: TrueRow(after, outbox[k])
  {
    forall k | 0 <= k < |outbox| ensures TrueRow(after, outbox[k]) {
      if outbox[k].job != "" { EveryEndHasItsOwnEvent(before[outbox[k].job].status, Failed); }
    }
  }

  lemma JobRowsTrue(jobs: Table, id: string, route: seq<string>, now: int)
    requires id in jobs
    ensures var rows := JobRows(id, jobs[id], route, now); forall k | 0 <= k < |rows| :: TrueRow(jobs, rows[k])
  {
  }

  // What a step does to the outbox: rows are only appended or their delivery
  // state changed.
  lemma StepKeepsRowsTrue(s: Sys, a: Action)
    requires Held(s) && RowsTrue(s) && Enabled(s, a)
    ensures RowsTrue(Step(s, a))
  {
    StepEvolves(s, a);
    TrueRowsStay(s.jobs, Step(s, a).jobs, s.outbox);
    match a {
      case Api(x) => ApiKeepsOutbox(s, x);
      case Exec(x) => ExecRows(s, x);
      case Notice(x) => NoticeRows(s, x);
      case Reload(queues) =>
      case Crash =>
      case Boot(queues, now) =>
    }
  }

  lemma CreatedKeepsOutbox(s: Sys, id: string, j: Job)
    ensures var t := Created(s, id, j);
            t.outbox == s.outbox && t.hooks == s.hooks && t.notices == s.notices && t.exec == s.exec
  {
  }

  lemma ApiKeepsOutbox(s: Sys, a: ApiAction)
    ensures ApiStep(s, a).outbox == s.outbox && ApiStep(s, a).hooks == s.hooks
    ensures !a.CancelQueued? ==> ApiStep(s, a).notices == s.notices
    ensures ApiStep(s, a).exec.Finishing? ==> ApiStep(s, a).exec == s.exec
  {
    if ApiEnabled(s, a) {
      match a {
        case Submit(id, q, priority, input, key) => CreatedKeepsOutbox(s, id, NewJob(q, priority, input, key));
        case ReadParent(p) =>
        case ReadAsked(p) =>
        case Retry(p, id) => CreatedKeepsOutbox(s.(parents := s.parents - {p}), id, Jobs.NewChild(s.jobs[p], p));
        case Reply(p, id, input) =>
          CreatedKeepsOutbox(s.(replies := s.replies - {p}), id, Jobs.ReplyChild(s.jobs[p], p, input));
        case CancelQueued(id, now) =>
        case CancelRunning(id) =>
      }
    }
  }

  lemma ExecRows(s: Sys, a: ExecAction)
    requires Held(s) && ExecEnabled(s, a)
    requires forall k | 0 <= k < |s.outbox| :: TrueRow(ExecStep(s, a).jobs, s.outbox[k])
    ensures RowsTrue(ExecStep(s, a))
  {
    match a {
      case Claim(q, id, now) =>
      case SetupFails(kind) =>
      case Start =>
      case Tool =>
      case Exit(run) =>
      case Requeue =>
      case Decide =>
      case Finish(now) => JobRowsTrue(ExecStep(s, a).jobs, s.exec.id, s.exec.route, now);
      case FinishFails =>
    }
  }

  lemma NoticeRows(s: Sys, a: NoticeAction)
    requires NoticeEnabled(s, a)
    requires forall k | 0 <= k < |s.outbox| :: TrueRow(NoticeStep(s, a).jobs, s.outbox[k])
    ensures RowsTrue(NoticeStep(s, a))
  {
    match a {
      case SelectQueued(q) =>
      case FailSelected(r, now) =>
      case AbandonSelected(r) =>
      case Notify(id, now) =>
        if id in s.jobs && s.jobs[id].status.Terminal() {
          JobRowsTrue(s.jobs, id, EndRoute(s.queues, s.hooks, s.jobs[id].queue, s.jobs[id].status), now);
        }
      case DropNotice(id) =>
      case ServiceEvent(t, q, now) =>
      case Deliver(k, attempts, nextAt, state) =>
    }
  }

  // ----- how many there are -----

  // The receivers that want the event of a job's end.
  ghost function Audience(jobs: Table, hooks: seq<Webhook>, id: string): seq<string>
  {
    if id in jobs && jobs[id].status.Terminal() then Wanting(hooks, ForStatus(jobs[id].status).value) else []
  }

  // Whom a step announces the end of a job to: the executor's own finish does
  // that, and the notification of a job ended otherwise.
  ghost function Announces(s: Sys, a: Action, id: string): seq<string>
  {
    if a.Exec? && a.exec.Finish? && s.exec.Finishing? && s.exec.id == id then s.exec.route
    else if Renotifies(s, a, id) then EndRoute(s.queues, s.hooks, s.jobs[id].queue, s.jobs[id].status)
    else []
  }

  ghost predicate Renotifies(s: Sys, a: Action, id: string)
  {
    a.Notice? && a.notice.Notify? && a.notice.id == id && id in s.jobs && s.jobs[id].status.Terminal()
  }

  lemma RoutedRows(outbox: seq<Row>, id: string, j: Job, route: seq<string>, now: int, x: string)
    requires j.status.Terminal()
    ensures RowUrls(outbox + JobRows(id, j, route, now), x)
              == RowUrls(outbox, x) + if x == id then multiset(route) else multiset{}
  {
    var t := ForStatus(j.status).value;
    EveryEndHasItsOwnEvent(j.status, j.status);
    RowUrlsAppend(outbox, Rows(route, t, j.queue, id, now), x);
    RowUrlsOfRoute(route, t, j.queue, id, now, x);
  }

  lemma FinishOutbox(s: Sys, now: int, id: string)
    requires Held(s) && s.exec.Finishing?
    ensures RowUrls(FinishCommitted(s, now).outbox, id)
              == RowUrls(s.outbox, id) + if id == s.exec.id then multiset(s.exec.route) else multiset{}
    ensures FinishCommitted(s, now).hooks == s.hooks
  {
    RoutedRows(s.outbox, s.exec.id, FinishRow(s.jobs[s.exec.id], s.exec.result, now), s.exec.route, now, id);
  }

  // Only a finish writes to the outbox.
  lemma ExecKeepsOutbox(s: Sys, a: ExecAction)
    requires ExecEnabled(s, a)
    ensures ExecStep(s, a).hooks == s.hooks
    ensures !a.Finish? ==> ExecStep(s, a).outbox == s.outbox
  {
    match a {
      case Claim(q, x, now) =>
      case SetupFails(kind) =>
      case Start =>
      case Tool =>
      case Exit(run) =>
      case Requeue =>
      case Decide =>
      case Finish(now) =>
      case FinishFails =>
    }
  }

  lemma ExecOutbox(s: Sys, a: ExecAction, id: string)
    requires Held(s) && ExecEnabled(s, a) && id != ""
    ensures RowUrls(ExecStep(s, a).outbox, id) == RowUrls(s.outbox, id) + multiset(Announces(s, Exec(a), id))
    ensures ExecStep(s, a).hooks == s.hooks
  {
    ExecKeepsOutbox(s, a);
    if a.Finish? {
      FinishOutbox(s, a.now, id);
    } else {
      assert Announces(s, Exec(a), id) == [];
    }
  }

  lemma NotifiedOutbox(s: Sys, x: string, now: int, id: string)
    requires NoticeEnabled(s, Notify(x, now))
    ensures RowUrls(Notified(s, x, now).outbox, id)
              == RowUrls(s.outbox, id) + multiset(Announces(s, Notice(Notify(x, now)), id))
  {
    if x in s.jobs && s.jobs[x].status.Terminal() {
      RoutedRows(s.outbox, x, s.jobs[x], EndRoute(s.queues, s.hooks, s.jobs[x].queue, s.jobs[x].status), now, id);
    }
  }

  lemma ServiceOutbox(outbox: seq<Row>, route: seq<string>, t: EventType, q: string, now: int, id: string)
    requires id != ""
    ensures RowUrls(outbox + Rows(route, t, q, "", now), id) == RowUrls(outbox, id)
  {
    RowUrlsAppend(outbox, Rows(route, t, q, "", now), id);
    RowUrlsOfRoute(route, t, q, "", now, id);
  }

  lemma DeliverOutbox(s: Sys, a: NoticeAction, id: string)
    requires NoticeEnabled(s, a) && a.Deliver?
    ensures RowUrls(NoticeStep(s, a).outbox, id) == RowUrls(s.outbox, id)
  {
    var row := s.outbox[a.row].(attempts := a.attempts, nextAt := a.nextAt, state := a.state);
    RowUrlsUpdate(s.outbox, a.row, row, id);
  }

  lemma NotifyOutbox(s: Sys, a: NoticeAction, id: string)
    requires NoticeEnabled(s, a) && a.Notify?
    ensures RowUrls(NoticeStep(s, a).outbox, id) == RowUrls(s.outbox, id) + multiset(Announces(s, Notice(a), id))
  {
    NotifiedOutbox(s, a.id, a.now, id);
  }

  lemma EventOutbox(s: Sys, a: NoticeAction, id: string)
    requires NoticeEnabled(s, a) && a.ServiceEvent? && id != ""
    ensures RowUrls(NoticeStep(s, a).outbox, id) == RowUrls(s.outbox, id)
  {
    ServiceOutbox(s.outbox, Route(s.queues, s.hooks, a.queue, a.event), a.event, a.queue, a.now, id);
  }

  // The others leave the outbox alone.
  lemma QuietOutbox(s: Sys, a: NoticeAction)
    requires NoticeEnabled(s, a) && !a.Deliver? && !a.Notify? && !a.ServiceEvent?
    ensures NoticeStep(s, a).outbox == s.outbox
  {
    match a {
      case SelectQueued(q) =>
      case FailSelected(r, now) =>
      case AbandonSelected(r) =>
      case DropNotice(x) =>
    }
  }

  lemma NoticeOutbox(s: Sys, a: NoticeAction, id: string)
    requires NoticeEnabled(s, a) && id != ""
    ensures RowUrls(NoticeStep(s, a).outbox, id) == RowUrls(s.outbox, id) + multiset(Announces(s, Notice(a), id))
  {
    if a.Notify? {
      NotifyOutbox(s, a, id);
    } else {
      assert Announces(s, Notice(a), id) == [];
      if a.Deliver? {
        DeliverOutbox(s, a, id);
      } else if a.ServiceEvent? {
        EventOutbox(s, a, id);
      } else {
        QuietOutbox(s, a);
      }
    }
  }

  // Every step adds exactly the rows of the announcement it makes, and no step
  // takes one away.
  lemma StepOutbox(s: Sys, a: Action, id: string)
    requires Held(s) && Enabled(s, a) && id != ""
    ensures RowUrls(Step(s, a).outbox, id) == RowUrls(s.outbox, id) + multiset(Announces(s, a, id))
    ensures Step(s, a).hooks == s.hooks
  {
    match a {
      case Api(x) => ApiKeepsOutbox(s, x);
      case Exec(x) => ExecOutbox(s, x, id);
      case Notice(x) => NoticeOutbox(s, x, id); NoticeKeepsHooks(s, x);
      case Reload(queues) =>
      case Crash =>
      case Boot(queues, now) =>
    }
  }

  // The route a finishing job carries goes to its whole audience or, its queue
  // not subscribing, to nobody.
  ghost predicate Fits(s: Sys)
  {
    s.exec.Finishing? && s.exec.result.status.Terminal() ==>
      s.exec.route == [] || s.exec.route == Wanting(s.hooks, ForStatus(s.exec.result.status).value)
  }

  lemma ExecKeepsFits(s: Sys, a: ExecAction)
    requires Fits(s) && ExecEnabled(s, a)
    ensures Fits(ExecStep(s, a))
  {
    match a {
      case Claim(q, id, now) =>
      case SetupFails(kind) =>
      case Start =>
      case Tool =>
      case Exit(run) =>
      case Requeue =>
      case Decide =>
      case Finish(now) =>
      case FinishFails =>
    }
  }

  lemma NoticeKeepsHooks(s: Sys, a: NoticeAction)
    requires NoticeEnabled(s, a)
    ensures NoticeStep(s, a).hooks == s.hooks
  {
    match a {
      case SelectQueued(q) =>
      case FailSelected(r, now) =>
      case AbandonSelected(r) =>
      case Notify(x, now) =>
      case DropNotice(x) =>
      case ServiceEvent(t, q, now) =>
      case Deliver(k, attempts, nextAt, state) =>
    }
  }

  lemma StepKeepsFits(s: Sys, a: Action)
    requires Held(s) && Fits(s) && Enabled(s, a)
    ensures Fits(Step(s, a))
  {
    match a {
      case Api(x) => ApiKeepsOutbox(s, x);
      case Exec(x) => ExecKeepsFits(s, x);
      case Notice(x) => NoticeFrame(s, x); NoticeKeepsHooks(s, x);
      case Reload(queues) =>
      case Crash =>
      case Boot(queues, now) =>
    }
  }

  // Every announcement goes to the whole audience or to nobody.
  lemma AnnouncedToAll(s: Sys, a: Action, id: string)
    requires Held(s) && Fits(s) && Enabled(s, a)
    ensures Announces(s, a, id) == [] || Announces(s, a, id) == Audience(Step(s, a).jobs, s.hooks, id)
  {
    if a.Exec? && a.exec.Finish? && s.exec.Finishing? && s.exec.id == id {
      assert Step(s, a).jobs[id].status == s.exec.result.status;
    } else if Renotifies(s, a, id) {
      NoticeFrame(s, a.notice);
    }
  }

  // A job with rows has ended.
  lemma {:induction false} RowsMeanEnded(jobs: Table, outbox: seq<Row>, id: string)
    requires id != "" && RowUrls(outbox, id) != multiset{}
    requires forall k | 0 <= k < |outbox| :: TrueRow(jobs, outbox[k])
    ensures id in jobs && jobs[id].status.Terminal()
  {
    var n := |outbox| - 1;
    if outbox[n].job == id {
      assert TrueRow(jobs, outbox[n]);
      EveryEndHasItsOwnEvent(jobs[id].status, jobs[id].status);
    } else {
      assert forall k | 0 <= k < n :: outbox[..n][k] == outbox[k];
      RowsMeanEnded(jobs, outbox[..n], id);
    }
  }

  // A row per receiver, at most: no row goes to anybody twice.
  ghost predicate SentOnce(s: Sys, id: string)
  {
    RowUrls(s.outbox, id) <= multiset(Audience(s.jobs, s.hooks, id))
  }

  // The step announces, to somebody, a job that has been announced already.
  ghost predicate Repeats(s: Sys, a: Action, id: string)
  {
    Announces(s, a, id) != [] && RowUrls(s.outbox, id) != multiset{}
  }

  lemma EndedAudience(s: Sys, a: Action, id: string)
    requires Held(s) && Enabled(s, a) && id in s.jobs && s.jobs[id].status.Terminal()
    ensures id in Step(s, a).jobs && Step(s, a).jobs[id] == s.jobs[id]
    ensures a.Exec? && a.exec.Finish? && s.exec.Finishing? ==> s.exec.id != id
  {
    StepEvolves(s, a);
  }

  // As long as a job's rows go to nobody twice, and so to its whole audience or
  // to nobody, exactly a repeated announcement changes that.
  ghost predicate AllOrNone(s: Sys, id: string)
  {
    RowUrls(s.outbox, id) == multiset{} || RowUrls(s.outbox, id) == multiset(Audience(s.jobs, s.hooks, id))
  }

  lemma OnceUnlessRepeated(s: Sys, a: Action, id: string)
    requires Held(s) && Fits(s) && RowsTrue(s) && Enabled(s, a) && id != "" && AllOrNone(s, id)
    ensures SentOnce(Step(s, a), id) <==> !Repeats(s, a, id)
    ensures !Repeats(s, a, id) ==> AllOrNone(Step(s, a), id)
  {
    var t := Step(s, a);
    StepOutbox(s, a, id);
    AnnouncedToAll(s, a, id);
    if RowUrls(s.outbox, id) != multiset{} {
      RowsMeanEnded(s.jobs, s.outbox, id);
      EndedAudience(s, a, id);
      if Announces(s, a, id) != [] {
        var u := Announces(s, a, id)[0];
        assert multiset(Announces(s, a, id))[u] > 0;
      }
    }
  }

  // Once a job's rows go to somebody twice they always will.
  lemma StaysTwice(s: Sys, a: Action, id: string)
    requires Held(s) && RowsTrue(s) && Enabled(s, a) && id != "" && !SentOnce(s, id)
    ensures !SentOnce(Step(s, a), id)
  {
    RowsMeanEnded(s.jobs, s.outbox, id);
    EndedAudience(s, a, id);
    StepOutbox(s, a, id);
  }

  // ----- the history agrees with the tables -----

  // A finished job keeps the end it was finished with, and at least the rows of
  // the route it was finished with.
  ghost predicate Recorded(s: Sys, e: Entry)
  {
    e.FinishedJob? ==>
      && e.id in s.jobs && e.status.Terminal() && s.jobs[e.id].status == e.status
      && multiset(e.route) <= RowUrls(s.outbox, e.id)
  }

  ghost predicate FinishesRecorded(s: Sys) { forall e | e in s.log :: Recorded(s, e) }

  lemma StepKeepsRecorded(s: Sys, a: Action)
    requires Held(s) && FinishesRecorded(s) && Enabled(s, a)
    ensures FinishesRecorded(Step(s, a))
  {
    var t := Step(s, a);
    forall e | e in t.log ensures Recorded(t, e) {
      if e in s.log {
        assert Recorded(s, e);
        if e.FinishedJob? {
          EndedAudience(s, a, e.id);
          StepOutbox(s, a, e.id);
        }
      } else {
        NewEntryRecorded(s, a, e);
      }
    }
  }

  // Only the executor's finish writes such an entry, with its own route.
  lemma NewEntryRecorded(s: Sys, a: Action, e: Entry)
    requires Held(s) && Enabled(s, a) && e in Step(s, a).log && e !in s.log
    ensures Recorded(Step(s, a), e)
    ensures e.FinishedJob? ==>
              a.Exec? && a.exec.Finish? && s.exec.Finishing? && s.exec.id == e.id && s.exec.route == e.route
  {
    match a {
      case Api(x) => ApiAppends(s, x);
      case Exec(x) =>
        ExecFinishes(s, x, e);
        if e.FinishedJob? { ExecOutbox(s, x, e.id); }
      case Notice(x) => NoticeAppends(s, x);
      case Reload(queues) =>
      case Crash =>
      case Boot(queues, now) =>
    }
  }

  lemma ExecFinishes(s: Sys, a: ExecAction, e: Entry)
    requires Held(s) && ExecEnabled(s, a) && e in ExecStep(s, a).log && e !in s.log
    ensures e.FinishedJob? ==>
              && a.Finish? && s.exec.id == e.id && s.exec.route == e.route && e.id in ExecStep(s, a).jobs
              && ExecStep(s, a).jobs[e.id].status == e.status && e.status.Terminal()
  {
    match a {
      case Claim(q, id, now) =>
      case SetupFails(kind) =>
      case Start =>
      case Tool =>
      case Exit(run) =>
      case Requeue =>
      case Decide =>
      case Finish(now) =>
      case FinishFails =>
    }
  }

  lemma FinishEnds(s: Sys, a: ExecAction)
    requires Held(s) && ExecEnabled(s, a) && a.Finish?
    ensures s.exec.id in ExecStep(s, a).jobs && ExecStep(s, a).jobs[s.exec.id].status.Terminal()
  {
  }

  // ----- when a removal is disturbed -----

  ghost predicate FinishedByExecutor(s: Sys, id: string)
  {
    exists e :: e in s.log && e.FinishedJob? && e.id == id
  }

  // Nobody has been told of the job.
  ghost predicate Untold(s: Sys, id: string) { RowUrls(s.outbox, id) == multiset{} && !FinishedByExecutor(s, id) }

  // Who is still to be notified has ended, has not been announced, was not
  // finished by the executor, and is listed once.
  ghost predicate Listed(s: Sys, id: string)
  {
    && s.notices[id] <= 1
    && (id in s.notices ==>
          id in s.jobs && s.jobs[id].status.Terminal() && Untold(s, id))
  }

  // Nobody else has announced, or is about to announce, the job that this
  // removal selected: it still waits, or it has ended unannounced.
  ghost predicate Undisturbed(s: Sys, a: Action, id: string)
  {
    a.Notice? && a.notice.FailSelected? && id in a.notice.removal.selected ==>
      || InQueue(s.jobs, a.notice.removal.queue, id)
      || (id in s.jobs && s.jobs[id].status.Terminal() && id !in s.notices && Untold(s, id))
  }

  // A finish is the only step that makes a job one finished by the executor.
  lemma FinishedBefore(s: Sys, a: Action, id: string)
    requires Held(s) && Enabled(s, a) && FinishedByExecutor(Step(s, a), id)
    ensures FinishedByExecutor(s, id) || (a.Exec? && a.exec.Finish? && s.exec.Finishing? && s.exec.id == id)
  {
    var e :| e in Step(s, a).log && e.FinishedJob? && e.id == id;
    if e !in s.log { NewEntryRecorded(s, a, e); }
  }

  lemma ApiNotices(s: Sys, a: ApiAction)
    requires ApiEnabled(s, a)
    ensures ApiStep(s, a).notices == s.notices + if a.CancelQueued? then multiset{a.id} else multiset{}
  {
    ApiKeepsOutbox(s, a);
  }

  lemma ExecNotices(s: Sys, a: ExecAction)
    requires ExecEnabled(s, a)
    ensures ExecStep(s, a).notices == s.notices
  {
    match a {
      case Claim(q, id, now) =>
      case SetupFails(kind) =>
      case Start =>
      case Tool =>
      case Exit(run) =>
      case Requeue =>
      case Decide =>
      case Finish(now) =>
      case FinishFails =>
    }
  }

  // Who has still to be notified after a step.
  ghost function NoticesAfter(s: Sys, a: Action): multiset<string>
  {
    match a
    case Api(x) => s.notices + if x.CancelQueued? then multiset{x.id} else multiset{}
    case Exec(x) => s.notices
    case Notice(x) =>
      if x.FailSelected? then s.notices + multiset(x.removal.selected)
      else if x.Notify? || x.DropNotice? then s.notices - multiset{x.id}
      else s.notices
    case Reload(queues) => s.notices
    case Crash => multiset{}
    case Boot(queues, now) => multiset(RunningRows(s.jobs))
  }

  lemma NoticeNotices(s: Sys, a: NoticeAction)
    requires NoticeEnabled(s, a)
    ensures NoticeStep(s, a).notices == NoticesAfter(s, Notice(a))
  {
    if a.Notify? {
      NotifyNotices(s, a);
    } else {
      match a {
        case SelectQueued(q) =>
        case FailSelected(r, now) =>
        case AbandonSelected(r) =>
        case DropNotice(x) =>
        case ServiceEvent(t, q, now) =>
        case Deliver(k, attempts, nextAt, state) =>
      }
    }
  }

  lemma NotifyNotices(s: Sys, a: NoticeAction)
    requires NoticeEnabled(s, a) && a.Notify?
    ensures NoticeStep(s, a).notices == s.notices - multiset{a.id}
  {
  }

  lemma StepNotices(s: Sys, a: Action)
    requires Enabled(s, a)
    ensures Step(s, a).notices == NoticesAfter(s, a)
  {
    match a {
      case Api(x) => ApiNotices(s, x);
      case Exec(x) => ExecNotices(s, x);
      case Notice(x) => NoticeNotices(s, x);
      case Reload(queues) =>
      case Crash =>
      case Boot(queues, now) =>
    }
  }

  // An announced job, and one the executor finished, has ended.
  lemma AnnouncedMeansEnded(s: Sys, id: string)
    requires RowsTrue(s) && FinishesRecorded(s) && id != ""
    ensures RowUrls(s.outbox, id) != multiset{} || FinishedByExecutor(s, id) ==>
              id in s.jobs && s.jobs[id].status.Terminal()
  {
    if RowUrls(s.outbox, id) != multiset{} {
      RowsMeanEnded(s.jobs, s.outbox, id);
    } else if e :| e in s.log && e.FinishedJob? && e.id == id {
      assert Recorded(s, e);
    }
  }

  lemma NewlyCancelled(s: Sys, id: string, now: int)
    requires Held(s) && RowsTrue(s) && FinishesRecorded(s) && Listed(s, id) && id != ""
    requires ApiEnabled(s, CancelQueued(id, now))
    ensures id !in s.notices && Untold(s, id)
    ensures id in ApiStep(s, CancelQueued(id, now)).jobs && ApiStep(s, CancelQueued(id, now)).jobs[id].status.Terminal()
  {
    AnnouncedMeansEnded(s, id);
  }

  lemma NewlyRemoved(s: Sys, r: Removal, now: int, id: string)
    requires Held(s) && RowsTrue(s) && FinishesRecorded(s) && Listed(s, id) && id != ""
    requires NoticeEnabled(s, FailSelected(r, now)) && id in r.selected
    requires Undisturbed(s, Notice(FailSelected(r, now)), id)
    ensures id !in s.notices && Untold(s, id)
    ensures var jobs := NoticeStep(s, FailSelected(r, now)).jobs; id in jobs && jobs[id].status.Terminal()
  {
    AnnouncedMeansEnded(s, id);
    NoticeFrame(s, FailSelected(r, now));
  }

  lemma NewlyRecovered(s: Sys, queues: QueueSet, now: int, id: string)
    requires Held(s) && RowsTrue(s) && FinishesRecorded(s) && Listed(s, id) && id != ""
    requires !s.up && id in RunningRows(s.jobs)
    ensures Untold(s, id) && id in Booted(s, queues, now).jobs && Booted(s, queues, now).jobs[id].status.Terminal()
  {
    AnnouncedMeansEnded(s, id);
  }

  // A job newly listed has just ended, or was selected by this removal.
  lemma NewlyListed(s: Sys, a: Action, id: string)
    requires Held(s) && RowsTrue(s) && FinishesRecorded(s) && Listed(s, id) && id != ""
    requires Enabled(s, a) && Undisturbed(s, a, id) && NoticesAfter(s, a)[id] > s.notices[id]
    ensures NoticesAfter(s, a)[id] == 1 && Untold(s, id)
    ensures id in Step(s, a).jobs && Step(s, a).jobs[id].status.Terminal()
    ensures Announces(s, a, id) == [] && !(a.Exec? && a.exec.Finish?)
  {
    match a {
      case Api(x) => NewlyCancelled(s, id, x.now);
      case Exec(x) =>
      case Notice(x) => NewlyRemoved(s, x.removal, x.now, id);
      case Reload(queues) =>
      case Crash =>
      case Boot(queues, now) => NewlyRecovered(s, queues, now, id);
    }
  }

  lemma ListedStays(s: Sys, a: Action, id: string)
    requires Held(s) && Listed(s, id) && Enabled(s, a) && id != ""
    requires id in s.notices && NoticesAfter(s, a)[id] == s.notices[id]
    ensures id in Step(s, a).jobs && Step(s, a).jobs[id] == s.jobs[id] && Announces(s, a, id) == []
    ensures !(s.exec.Finishing? && s.exec.id == id)
  {
    StepEvolves(s, a);
  }

  lemma UndisturbedKeepsListed(s: Sys, a: Action, id: string)
    requires Held(s) && RowsTrue(s) && FinishesRecorded(s) && Listed(s, id) && id != ""
    requires Enabled(s, a) && Undisturbed(s, a, id)
    ensures Listed(Step(s, a), id)
  {
    var t := Step(s, a);
    StepNotices(s, a);
    StepOutbox(s, a, id);
    if id in t.notices {
      if t.notices[id] > s.notices[id] {
        NewlyListed(s, a, id);
        if FinishedByExecutor(t, id) { FinishedBefore(s, a, id); }
      } else {
        ListedStays(s, a, id);
        if FinishedByExecutor(t, id) { FinishedBefore(s, a, id); }
      }
    }
  }

  // A removal changes the waiting jobs of its queue, and whom to notify.
  lemma RemovedFrame(s: Sys, r: Removal, now: int, id: string)
    requires NoticeEnabled(s, FailSelected(r, now))
    ensures var t := NoticeStep(s, FailSelected(r, now));
            && t.outbox == s.outbox && t.log == s.log && t.notices == s.notices + multiset(r.selected)
            && t.jobs.Keys == s.jobs.Keys
            && (id in s.jobs && !InQueue(s.jobs, r.queue, id) ==> t.jobs[id] == s.jobs[id])
  {
  }

  lemma DisturbedIsNotListed(s: Sys, r: Removal, now: int, id: string)
    requires Listed(s, id) && NoticeEnabled(s, FailSelected(r, now)) && id in r.selected
    requires Listed(NoticeStep(s, FailSelected(r, now)), id)
    ensures Undisturbed(s, Notice(FailSelected(r, now)), id)
  {
    RemovedFrame(s, r, now, id);
    var t := NoticeStep(s, FailSelected(r, now));
    assert id in multiset(r.selected);
    assert FinishedByExecutor(s, id) ==> FinishedByExecutor(t, id);
  }

  // Exactly a disturbed removal lists somebody wrongly.
  lemma StepKeepsListed(s: Sys, a: Action, id: string)
    requires Held(s) && RowsTrue(s) && FinishesRecorded(s) && Listed(s, id) && id != ""
    requires Enabled(s, a)
    ensures Listed(Step(s, a), id) <==> Undisturbed(s, a, id)
  {
    if Undisturbed(s, a, id) {
      UndisturbedKeepsListed(s, a, id);
    } else if Listed(Step(s, a), id) {
      DisturbedIsNotListed(s, a.notice.removal, a.notice.now, id);
    }
  }
}
