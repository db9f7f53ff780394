// Whole runs of the job lifecycle, from a new database, through any number of
// crashes and restarts.
module LifecycleRuns {
  import opened Jobs
  import opened Events
  import opened Lifecycle
  import opened LifecycleSafety
  import opened LifecycleOutbox
  import opened LifecycleLineage

  // What every reachable state satisfies.
  ghost predicate Safe(s: Sys)
  {
    && Held(s) && Accounted(s) && Tallied(s) && ClaimedBeforeTools(s.log)
    && RowsTrue(s) && Fits(s) && FinishesRecorded(s) && Keyed(s) && Rooted(s) && AllStamped(s)
  }

  lemma FreshIsSafe(hooks: seq<Webhook>)
    ensures Safe(Fresh(hooks))
  {
  }

  lemma StepKeepsSafe(s: Sys, a: Action)
    requires Safe(s) && Enabled(s, a)
    ensures Safe(Step(s, a))
  {
    StepKeepsHeld(s, a);
    StepKeepsAccounted(s, a);
    StepKeepsTallied(s, a);
    StepKeepsOrder(s, a);
    StepKeepsRowsTrue(s, a);
    StepKeepsFits(s, a);
    StepKeepsRecorded(s, a);
    StepKeepsKeyed(s, a);
    StepKeepsRooted(s, a);
    StepKeepsStamps(s, a);
  }

  lemma {:induction false} RunKeepsSafe(s: Sys, run: seq<Action>)
    requires Safe(s) && Run(s, run)
    ensures Safe(After(s, run))
    decreases |run|
  {
    if run != [] {
      StepKeepsSafe(s, run[0]);
      RunKeepsSafe(Step(s, run[0]), run[1..]);
    }
  }

  lemma Reachable(hooks: seq<Webhook>, run: seq<Action>)
    requires Run(Fresh(hooks), run)
    ensures Safe(After(Fresh(hooks), run))
  {
    FreshIsSafe(hooks);
    RunKeepsSafe(Fresh(hooks), run);
  }

  // ----- terminal states absorb -----

  // Once a job has ended its row never changes again, in any run, although the
  // finishing UPDATE carries no status guard.
  lemma {:induction false} EndedForEver(s: Sys, run: seq<Action>, id: string)
    requires Safe(s) && Run(s, run) && id in s.jobs && s.jobs[id].status.Terminal()
    ensures var t := After(s, run); id in t.jobs && t.jobs[id] == s.jobs[id]
    decreases |run|
  {
    if run != [] {
      StepEvolves(s, run[0]);
      StepKeepsSafe(s, run[0]);
      EndedForEver(Step(s, run[0]), run[1..], id);
    }
  }

  // Every status change of every run is an edge of the lifecycle graph.
  lemma EveryChangeIsAnEdge(hooks: seq<Webhook>, run: seq<Action>, a: Action, id: string)
    requires Run(Fresh(hooks), run) && Enabled(After(Fresh(hooks), run), a)
    requires id in After(Fresh(hooks), run).jobs
    ensures var s := After(Fresh(hooks), run); var t := Step(s, a);
            && id in t.jobs
            && var from, to := s.jobs[id].status, t.jobs[id].status;
            || from == to
            || (from == Queued && (to == Running || to == Cancelled || to == Failed))
            || (from == Running && to != Running)
  {
    Reachable(hooks, run);
    StepEvolves(After(Fresh(hooks), run), a);
  }

  // At most one row is running as long as no finish write fails.
  ghost predicate NoOrphans(s: Sys)
  {
    if s.up then s.orphans == {} else |s.orphans| <= 1
  }

  lemma StepKeepsNoOrphans(s: Sys, a: Action)
    requires Held(s) && NoOrphans(s) && Enabled(s, a) && a != Exec(FinishFails)
    ensures NoOrphans(Step(s, a))
  {
    match a {
      case Api(x) => ApiKeepsOrphans(s, x);
      case Exec(x) => ExecKeepsOrphans(s, x);
      case Notice(x) => NoticeFrame(s, x);
      case Reload(queues) =>
      case Crash =>
      case Boot(queues, now) =>
    }
  }

  lemma ApiKeepsOrphans(s: Sys, a: ApiAction)
    requires ApiEnabled(s, a)
    ensures ApiStep(s, a).orphans == s.orphans && ApiStep(s, a).up == s.up
  {
    match a {
      case Submit(id, q, priority, input, key) =>
      case ReadParent(p) =>
      case ReadAsked(p) =>
      case Retry(p, id) =>
      case Reply(p, id, input) =>
      case CancelQueued(id, now) =>
      case CancelRunning(id) =>
    }
  }

  lemma ExecKeepsOrphans(s: Sys, a: ExecAction)
    requires ExecEnabled(s, a) && a != FinishFails
    ensures ExecStep(s, a).orphans == s.orphans && ExecStep(s, a).up == s.up
  {
    match a {
      case Claim(q, id, now) =>
      case SetupFails(kind) =>
      case Start =>
      case Tool =>
      case Exit(run) =>
      case Requeue =>
      case Decide =>
      case Finish(now) =>
      case FinishFails =>
    }
  }

  lemma {:induction false} OrphanFreeRun(s: Sys, run: seq<Action>)
    requires Safe(s) && NoOrphans(s) && Run(s, run) && Exec(FinishFails) !in run
    ensures NoOrphans(After(s, run))
    decreases |run|
  {
    if run != [] {
      StepKeepsNoOrphans(s, run[0]);
      StepKeepsSafe(s, run[0]);
      assert forall a | a in run[1..] :: a in run;
      OrphanFreeRun(Step(s, run[0]), run[1..]);
    }
  }

  lemma AtMostOneRunning(hooks: seq<Webhook>, run: seq<Action>)
    requires Run(Fresh(hooks), run) && Exec(FinishFails) !in run
    ensures |RunningRows(After(Fresh(hooks), run).jobs)| <= 1
  {
    FreshIsSafe(hooks);
    OrphanFreeRun(Fresh(hooks), run);
    Reachable(hooks, run);
    var s := After(Fresh(hooks), run);
    if s.up { assert RunningRows(s.jobs) == s.exec.InFlight(); } else { assert RunningRows(s.jobs) == s.orphans; }
  }

  // ----- at-most-once effects -----

  // In every run, no job is claimed again once a tool call has been seen for
  // it; so the tool calls of a job all belong to its last execution.
  lemma AtMostOnceEffects(hooks: seq<Webhook>, run: seq<Action>, i: nat, j: nat)
    requires Run(Fresh(hooks), run)
    requires var log := After(Fresh(hooks), run).log; i < j < |log| && log[i].UsedTool?
    ensures var log := After(Fresh(hooks), run).log; log[j] != ClaimedJob(log[i].id)
  {
    Reachable(hooks, run);
  }

  // The tool_calls column of a job that ended by itself, or was cancelled, is
  // the number of tool calls it made in its whole life.
  lemma ToolCallsAreConserved(hooks: seq<Webhook>, run: seq<Action>, id: string)
    requires Run(Fresh(hooks), run)
    requires var s := After(Fresh(hooks), run);
             id in s.jobs && s.jobs[id].status.Terminal() && s.jobs[id].status != Interrupted
    ensures var s := After(Fresh(hooks), run); s.jobs[id].toolCalls == Calls(s.log, id)
  {
    Reachable(hooks, run);
    var s := After(Fresh(hooks), run);
    assert TalliedRow(s.jobs[id], Calls(s.log, id));
  }

  // ----- the transactional outbox -----

  // What the executor's finishes, and what notifications outside it, announce
  // over a run.
  ghost function Finishes(s: Sys, run: seq<Action>, id: string): multiset<string>
    decreases |run|
  {
    if run == [] then multiset{}
    else
      (if run[0].Exec? then multiset(Announces(s, run[0], id)) else multiset{})
      + Finishes(Step(s, run[0]), run[1..], id)
  }

  ghost function Renotes(s: Sys, run: seq<Action>, id: string): multiset<string>
    decreases |run|
  {
    if run == [] then multiset{}
    else
      (if run[0].Exec? then multiset{} else multiset(Announces(s, run[0], id)))
      + Renotes(Step(s, run[0]), run[1..], id)
  }

  lemma {:induction false} RowsAddUp(s: Sys, run: seq<Action>, id: string)
    requires Safe(s) && Run(s, run) && id != ""
    ensures RowUrls(After(s, run).outbox, id) == RowUrls(s.outbox, id) + Finishes(s, run, id) + Renotes(s, run, id)
    ensures After(s, run).hooks == s.hooks
    decreases |run|
  {
    if run != [] {
      StepOutbox(s, run[0], id);
      StepKeepsSafe(s, run[0]);
      RowsAddUp(Step(s, run[0]), run[1..], id);
    }
  }

  lemma EndedStepFinishesNone(s: Sys, a: Action, id: string)
    requires Safe(s) && Enabled(s, a) && id in s.jobs && s.jobs[id].status.Terminal()
    ensures a.Exec? ==> Announces(s, a, id) == []
    ensures forall e | e in Step(s, a).log && e.FinishedJob? && e.id == id :: e in s.log
  {
    EndedAudience(s, a, id);
    forall e | e in Step(s, a).log && e.FinishedJob? && e.id == id ensures e in s.log {
      if e !in s.log { NewEntryRecorded(s, a, e); }
    }
  }

  // The executor never finishes a job that has ended.
  lemma {:induction false} EndedIsNotFinished(s: Sys, run: seq<Action>, id: string)
    requires Safe(s) && Run(s, run) && id in s.jobs && s.jobs[id].status.Terminal()
    ensures Finishes(s, run, id) == multiset{}
    ensures forall e | e in After(s, run).log && e.FinishedJob? && e.id == id :: e in s.log
    decreases |run|
  {
    if run != [] {
      EndedAudience(s, run[0], id);
      EndedStepFinishesNone(s, run[0], id);
      StepKeepsSafe(s, run[0]);
      EndedIsNotFinished(Step(s, run[0]), run[1..], id);
    }
  }

  lemma FinishIsFirst(s: Sys, run: seq<Action>, e: Entry)
    requires Safe(s) && run != [] && Run(s, run) && e.FinishedJob?
    requires e !in s.log && e in Step(s, run[0]).log
    ensures Finishes(s, run, e.id) == multiset(e.route)
  {
    var next := Step(s, run[0]);
    NewEntryRecorded(s, run[0], e);
    StepKeepsSafe(s, run[0]);
    EndedIsNotFinished(next, run[1..], e.id);
    assert Announces(s, run[0], e.id) == e.route;
  }

  // A job that the first step finishes is in the history at once.
  lemma FinishIsNow(s: Sys, run: seq<Action>, e: Entry)
    requires Safe(s) && run != [] && Run(s, run) && e.FinishedJob? && e in After(s, run).log
    requires run[0].Exec? && Announces(s, run[0], e.id) != []
    ensures e in Step(s, run[0]).log
  {
    var next := Step(s, run[0]);
    StepKeepsSafe(s, run[0]);
    FinishEnds(s, run[0].exec);
    EndedIsNotFinished(next, run[1..], e.id);
  }

  // It finishes a job once, with one route.
  lemma {:induction false} FinishedOnce(s: Sys, run: seq<Action>, e: Entry)
    requires Safe(s) && Run(s, run) && e in After(s, run).log && e.FinishedJob?
    ensures Finishes(s, run, e.id) == if e in s.log then multiset{} else multiset(e.route)
    decreases |run|
  {
    if e in s.log {
      assert Recorded(s, e);
      EndedIsNotFinished(s, run, e.id);
    } else if e in Step(s, run[0]).log {
      FinishIsFirst(s, run, e);
    } else {
      StepKeepsSafe(s, run[0]);
      FinishedOnce(Step(s, run[0]), run[1..], e);
      if run[0].Exec? && Announces(s, run[0], e.id) != [] { FinishIsNow(s, run, e); }
    }
  }

  // Some notification outside the executor announces the job to somebody.
  ghost predicate Renotified(s: Sys, run: seq<Action>, id: string)
    decreases |run|
  {
    run != [] &&
    ((Renotifies(s, run[0], id) && Announces(s, run[0], id) != []) || Renotified(Step(s, run[0]), run[1..], id))
  }

  lemma {:induction false} RenotedIfRenotified(s: Sys, run: seq<Action>, id: string)
    ensures Renotes(s, run, id) != multiset{} <==> Renotified(s, run, id)
    decreases |run|
  {
    if run != [] {
      RenotedIfRenotified(Step(s, run[0]), run[1..], id);
      if Announces(s, run[0], id) != [] { assert multiset(Announces(s, run[0], id))[Announces(s, run[0], id)[0]] > 0; }
    }
  }

  // Main result, for every run: a job finished by the executor has, from then
  // on, at least one outbox row for each receiver its routing selected at
  // finish time; and exactly those rows if and only if it is never announced
  // again outside the executor to anybody.
  lemma FinishedJobIsPosted(hooks: seq<Webhook>, run: seq<Action>, e: Entry)
    requires Run(Fresh(hooks), run)
    requires e in After(Fresh(hooks), run).log && e.FinishedJob?
    ensures multiset(e.route) <= RowUrls(After(Fresh(hooks), run).outbox, e.id)
    ensures var t := After(Fresh(hooks), run);
            RowUrls(t.outbox, e.id) == multiset(e.route) <==> !Renotified(Fresh(hooks), run, e.id)
  {
    FreshIsSafe(hooks);
    Reachable(hooks, run);
    assert Recorded(After(Fresh(hooks), run), e);
    RowsAddUp(Fresh(hooks), run, e.id);
    FinishedOnce(Fresh(hooks), run, e);
    RenotedIfRenotified(Fresh(hooks), run, e.id);
  }

  // Some step announces the job, to somebody, once more.
  ghost predicate Repeated(s: Sys, run: seq<Action>, id: string)
    decreases |run|
  {
    run != [] && (Repeats(s, run[0], id) || Repeated(Step(s, run[0]), run[1..], id))
  }

  lemma {:induction false} TwiceForEver(s: Sys, run: seq<Action>, id: string)
    requires Safe(s) && Run(s, run) && id != "" && !SentOnce(s, id)
    ensures !SentOnce(After(s, run), id)
    decreases |run|
  {
    if run != [] {
      StaysTwice(s, run[0], id);
      StepKeepsSafe(s, run[0]);
      TwiceForEver(Step(s, run[0]), run[1..], id);
    }
  }

  lemma {:induction false} SentOnceUnlessRepeated(s: Sys, run: seq<Action>, id: string)
    requires Safe(s) && Run(s, run) && id != "" && AllOrNone(s, id)
    ensures SentOnce(After(s, run), id) <==> !Repeated(s, run, id)
    decreases |run|
  {
    if run != [] {
      OnceUnlessRepeated(s, run[0], id);
      StepKeepsSafe(s, run[0]);
      if Repeats(s, run[0], id) {
        TwiceForEver(Step(s, run[0]), run[1..], id);
      } else {
        SentOnceUnlessRepeated(Step(s, run[0]), run[1..], id);
      }
    }
  }

  // Main result, for every run and every job, however it ended: its rows go to
  // no receiver twice if and only if no step announces it, to anybody, when it
  // has been announced already.
  lemma AtMostOneRowPerReceiver(hooks: seq<Webhook>, run: seq<Action>, id: string)
    requires Run(Fresh(hooks), run) && id != ""
    ensures SentOnce(After(Fresh(hooks), run), id) <==> !Repeated(Fresh(hooks), run, id)
    ensures SentOnce(After(Fresh(hooks), run), id) ==>
              RowUrls(After(Fresh(hooks), run).outbox, id) <= multiset(Urls(hooks))
  {
    FreshIsSafe(hooks);
    SentOnceUnlessRepeated(Fresh(hooks), run, id);
    RowsAddUp(Fresh(hooks), run, id);
    var s := After(Fresh(hooks), run);
    if id in s.jobs && s.jobs[id].status.Terminal() { WantingOnce(hooks, ForStatus(s.jobs[id].status).value); }
  }

  // No removal that selected this job is disturbed, for this job.
  ghost predicate UndisturbedRun(s: Sys, run: seq<Action>, id: string)
    decreases |run|
  {
    run == [] || (Undisturbed(s, run[0], id) && UndisturbedRun(Step(s, run[0]), run[1..], id))
  }

  // While nobody is listed wrongly no step announces a job twice, or one that
  // the executor finished.
  lemma ListedIsNotRepeated(s: Sys, a: Action, id: string)
    requires Held(s) && RowsTrue(s) && Enabled(s, a) && id != "" && Listed(s, id)
    ensures !Repeats(s, a, id)
    ensures Renotifies(s, a, id) ==> !FinishedByExecutor(s, id)
  {
    if RowUrls(s.outbox, id) != multiset{} {
      RowsMeanEnded(s.jobs, s.outbox, id);
      EndedAudience(s, a, id);
    }
  }

  lemma {:induction false} UndisturbedIsSentOnce(s: Sys, run: seq<Action>, id: string)
    requires Safe(s) && Run(s, run) && id != "" && Listed(s, id) && UndisturbedRun(s, run, id)
    ensures !Repeated(s, run, id)
    ensures (exists e :: e in After(s, run).log && e.FinishedJob? && e.id == id) ==> !Renotified(s, run, id)
    decreases |run|
  {
    if run != [] {
      StepKeepsListed(s, run[0], id);
      StepKeepsSafe(s, run[0]);
      UndisturbedIsSentOnce(Step(s, run[0]), run[1..], id);
      ListedIsNotRepeated(s, run[0], id);
      if Renotifies(s, run[0], id) {
        EndedIsNotFinished(s, run, id);
        if e :| e in After(s, run).log && e.FinishedJob? && e.id == id { assert FinishedByExecutor(s, id); }
      }
    }
  }

  // So only a removal can cause a repetition: one that finds a job it selected
  // claimed, announced or about to be announced.
  lemma OnlyRemovalsRepeat(hooks: seq<Webhook>, run: seq<Action>, id: string)
    requires Run(Fresh(hooks), run) && id != "" && UndisturbedRun(Fresh(hooks), run, id)
    ensures SentOnce(After(Fresh(hooks), run), id)
    ensures forall e | e in After(Fresh(hooks), run).log && e.FinishedJob? && e.id == id ::
              RowUrls(After(Fresh(hooks), run).outbox, id) == multiset(e.route)
  {
    FreshIsSafe(hooks);
    UndisturbedIsSentOnce(Fresh(hooks), run, id);
    AtMostOneRowPerReceiver(hooks, run, id);
    forall e | e in After(Fresh(hooks), run).log && e.FinishedJob? && e.id == id
      ensures RowUrls(After(Fresh(hooks), run).outbox, id) == multiset(e.route)
    {
      FinishedJobIsPosted(hooks, run, e);
    }
  }

  // In every run, disturbed or not, a job event in the outbox matches the
  // status its job has.
  lemma JobEventsAreTrue(hooks: seq<Webhook>, run: seq<Action>, k: nat)
    requires Run(Fresh(hooks), run)
    requires var s := After(Fresh(hooks), run); k < |s.outbox| && s.outbox[k].job != ""
    ensures var s := After(Fresh(hooks), run); var r := s.outbox[k];
            && r.job in s.jobs && r.queue == s.jobs[r.job].queue
            && var status := s.jobs[r.job].status;
            && (r.event == JobSucceeded <==> status == Succeeded) && (r.event == JobFailed <==> status == Failed)
            && (r.event == JobNeedsInput <==> status == NeedsInput)
            && (r.event == JobCancelled <==> status == Cancelled)
            && (r.event == JobInterrupted <==> status == Interrupted) && status != Queued && status != Running
  {
    Reachable(hooks, run);
    var s := After(Fresh(hooks), run);
    assert TrueRow(s.jobs, s.outbox[k]);
    EveryEndHasItsOwnEvent(s.jobs[s.outbox[k].job].status, Failed);
  }

  // ----- idempotency and lineage -----

  // In every run all answers to the same queue and non-empty key name one job,
  // and it is in the table under that key.
  lemma ReplaysNameOneJob(hooks: seq<Webhook>, run: seq<Action>, e: Entry, f: Entry)
    requires Run(Fresh(hooks), run)
    requires var log := After(Fresh(hooks), run).log; e in log && f in log && e.Answered? && f.Answered?
    requires e.key != "" && e.queue == f.queue && e.key == f.key
    ensures var jobs := After(Fresh(hooks), run).jobs;
            e.id == f.id && e.id in jobs && jobs[e.id].queue == e.queue && jobs[e.id].key == e.key
  {
    Reachable(hooks, run);
    var s := After(Fresh(hooks), run);
    SameKeySameJob(s, e, f);
    assert AnsweredTruly(s.jobs, e);
  }

  // A job's parent has ended without success, and never changes from then on;
  // the job has its queue and priority, and its input too, unless it is a reply,
  // which resumes the session of a parent that asked for input.
  lemma ParentsStayEnded(hooks: seq<Webhook>, before: seq<Action>, run: seq<Action>, id: string)
    requires Run(Fresh(hooks), before) && Run(After(Fresh(hooks), before), run)
    requires var s := After(Fresh(hooks), before); id in s.jobs && s.jobs[id].parent != ""
    ensures var s := After(Fresh(hooks), before); var t := After(s, run); var p := s.jobs[id].parent;
            && p in s.jobs && p in t.jobs && t.jobs[p] == s.jobs[p]
            && var j, parent := s.jobs[id], s.jobs[p];
            && parent.status != Queued && parent.status != Running && parent.status != Succeeded
            && j.queue == parent.queue && j.priority == parent.priority
            && if j.resume == "" then j.input == parent.input
               else parent.status == NeedsInput && j.resume == parent.sessionId
  {
    Reachable(hooks, before);
    var s := After(Fresh(hooks), before);
    assert Descends(s.jobs, s.born, id);
    EndedForEver(s, run, s.jobs[id].parent);
  }

  // In every run the parent links form a forest: climbing them never comes back.
  lemma LineageIsAForest(hooks: seq<Webhook>, run: seq<Action>, path: seq<string>)
    requires Run(Fresh(hooks), run)
    requires Climbs(After(Fresh(hooks), run).jobs, path) && |path| >= 2
    ensures path[|path| - 1] != path[0]
  {
    Reachable(hooks, run);
    NoCycle(After(Fresh(hooks), run), path);
  }

  // ----- a removal that is disturbed -----

  const RECEIVER: Webhook := Webhook("u", {})
  const CONFIGURED: QueueSet := map["q" := Queue(1.0, {JobCancelled, JobFailed})]
  const WITHOUT: QueueSet := map["other" := Queue(1.0, {})]

  // One job "j" in queue "q", one receiver, nothing sent yet.
  ghost predicate Scene(s: Sys, queues: QueueSet, status: Status, notices: multiset<string>,
                        removals: multiset<Removal>)
  {
    && s.up && s.exec.Idle? && s.hooks == [RECEIVER] && s.queues == queues && s.outbox == []
    && s.jobs.Keys == {"j"} && s.jobs["j"].queue == "q" && s.jobs["j"].status == status
    && s.notices == notices && s.removals == removals
  }

  const SELECTED: Removal := Removal("q", {"j"})

  lemma SceneSubmitted()
    ensures var s := Fresh([RECEIVER]);
            var boot, submit := Boot(CONFIGURED, 1), Api(Submit("j", "q", 0, "", ""));
            && Enabled(s, boot) && Enabled(Step(s, boot), submit)
            && Scene(Step(Step(s, boot), submit), CONFIGURED, Queued, multiset{}, multiset{})
  {
    assert "q" in CONFIGURED;
    assert RunningRows(map[]) == {};
  }

  lemma SceneReloaded(s: Sys, before: QueueSet, queues: QueueSet, removals: multiset<Removal>)
    requires Scene(s, before, Queued, multiset{}, removals) && queues != map[]
    ensures Enabled(s, Reload(queues)) && Scene(Step(s, Reload(queues)), queues, Queued, multiset{}, removals)
  {
  }

  lemma SceneSelected(s: Sys)
    requires Scene(s, WITHOUT, Queued, multiset{}, multiset{})
    ensures var a := Notice(SelectQueued("q"));
            Enabled(s, a) && Scene(Step(s, a), WITHOUT, Queued, multiset{}, multiset{SELECTED})
  {
    assert Waiting(s.jobs, "q") == {"j"};
  }

  lemma SceneCancelled(s: Sys)
    requires Scene(s, CONFIGURED, Queued, multiset{}, multiset{SELECTED})
    ensures var a := Api(CancelQueued("j", 2));
            Enabled(s, a) && Scene(Step(s, a), CONFIGURED, Cancelled, multiset{"j"}, multiset{SELECTED})
  {
  }

  lemma SceneFailed(s: Sys)
    requires Scene(s, CONFIGURED, Cancelled, multiset{"j"}, multiset{SELECTED})
    ensures var a := Notice(FailSelected(SELECTED, 3));
            Enabled(s, a) && Scene(Step(s, a), CONFIGURED, Cancelled, multiset{"j", "j"}, multiset{})
  {
    assert multiset({"j"}) == multiset{"j"};
  }

  lemma SceneRoute(s: Sys, now: int)
    requires s.hooks == [RECEIVER] && s.queues == CONFIGURED
    requires "j" in s.jobs && s.jobs["j"].queue == "q" && s.jobs["j"].status == Cancelled
    ensures multiset(Announces(s, Notice(Notify("j", now)), "j")) == multiset{"u"}
  {
    assert Wanting([RECEIVER], JobCancelled) == ["u"] by { assert [RECEIVER][1..] == []; }
    assert EndRoute(s.queues, s.hooks, "q", Cancelled) == ["u"];
  }

  lemma SceneNotified(s: Sys, now: int)
    requires s.up && s.hooks == [RECEIVER] && s.queues == CONFIGURED && "j" in s.notices
    requires "j" in s.jobs && s.jobs["j"].queue == "q" && s.jobs["j"].status == Cancelled
    ensures var a := Notice(Notify("j", now));
            && Enabled(s, a)
            && Step(s, a).jobs == s.jobs && Step(s, a).notices == s.notices - multiset{"j"}
            && Step(s, a).up && Step(s, a).hooks == [RECEIVER] && Step(s, a).queues == CONFIGURED
            && RowUrls(Step(s, a).outbox, "j") == RowUrls(s.outbox, "j") + multiset{"u"}
  {
    SceneRoute(s, now);
    NoticeOutbox(s, Notify("j", now), "j");
    NotifyFrame(s, now);
  }

  lemma NotifyFrame(s: Sys, now: int)
    requires s.up && "j" in s.notices
    ensures var t := Step(s, Notice(Notify("j", now)));
            && t.up && t.jobs == s.jobs && t.hooks == s.hooks && t.queues == s.queues
            && t.notices == s.notices - multiset{"j"}
  {
  }

  // The rest of a run from a scene leaves two rows for "j".
  ghost predicate SendsTwice(s: Sys, rest: seq<Action>)
  {
    Run(s, rest) && RowUrls(After(s, rest).outbox, "j") == multiset{"u", "u"}
  }

  lemma Then(s: Sys, a: Action, rest: seq<Action>)
    requires Enabled(s, a) && SendsTwice(Step(s, a), rest)
    ensures SendsTwice(s, [a] + rest)
  {
    assert ([a] + rest)[1..] == rest;
  }

  lemma BothNotified(s: Sys) returns (rest: seq<Action>)
    requires Scene(s, CONFIGURED, Cancelled, multiset{"j", "j"}, multiset{})
    ensures SendsTwice(s, rest)
  {
    var a, b := Notice(Notify("j", 4)), Notice(Notify("j", 5));
    SceneNotified(s, 4);
    SceneNotified(Step(s, a), 5);
    assert SendsTwice(Step(Step(s, a), b), []);
    Then(Step(s, a), b, []);
    Then(s, a, [b] + []);
    rest := [a] + ([b] + []);
  }

  lemma CancelledThenFailed(s: Sys) returns (rest: seq<Action>)
    requires Scene(s, CONFIGURED, Queued, multiset{}, multiset{SELECTED})
    ensures SendsTwice(s, rest)
  {
    var a, b := Api(CancelQueued("j", 2)), Notice(FailSelected(SELECTED, 3));
    SceneCancelled(s);
    SceneFailed(Step(s, a));
    rest := BothNotified(Step(Step(s, a), b));
    Then(Step(s, a), b, rest);
    Then(s, a, [b] + rest);
    rest := [a] + ([b] + rest);
  }

  lemma SelectedThenReloaded(s: Sys) returns (rest: seq<Action>)
    requires Scene(s, WITHOUT, Queued, multiset{}, multiset{})
    ensures SendsTwice(s, rest)
  {
    var a, b := Notice(SelectQueued("q")), Reload(CONFIGURED);
    SceneSelected(s);
    assert "q" in CONFIGURED;
    SceneReloaded(Step(s, a), WITHOUT, CONFIGURED, multiset{SELECTED});
    rest := CancelledThenFailed(Step(Step(s, a), b));
    Then(Step(s, a), b, rest);
    Then(s, a, [b] + rest);
    rest := [a] + ([b] + rest);
  }

  // A repetition: the file drops "q" and the poll's reload selects "j"; before
  // its UPDATE, SIGHUP's reload, on a goroutine of its own, brings "q" back and
  // an operator cancels "j"; then both the cancel handler and the first reload
  // announce job.cancelled, and the one receiver is sent the event twice.
  lemma DisturbedRemovalAnnouncesTwice() returns (run: seq<Action>)
    ensures Run(Fresh([RECEIVER]), run)
    ensures RowUrls(After(Fresh([RECEIVER]), run).outbox, "j") == multiset{"u", "u"}
  {
    var s, a, b, c := Fresh([RECEIVER]), Boot(CONFIGURED, 1), Api(Submit("j", "q", 0, "", "")), Reload(WITHOUT);
    SceneSubmitted();
    var t := Step(Step(s, a), b);
    assert "other" in WITHOUT;
    SceneReloaded(t, CONFIGURED, WITHOUT, multiset{});
    var rest := SelectedThenReloaded(Step(t, c));
    Then(t, c, rest);
    Then(Step(s, a), b, [c] + rest);
    Then(s, a, [b] + ([c] + rest));
    run := [a] + ([b] + ([c] + rest));
  }

  // ----- the same for a job that the executor finishes -----

  const FAILURE: Result := Result(Failed, CliError, "", 0)

  // As a scene, with the executor somewhere and rows already there.
  ghost predicate Stage(s: Sys, exec: Phase, status: Status, rows: multiset<string>, notices: multiset<string>,
                        removals: multiset<Removal>)
  {
    && s.up && s.exec == exec && s.hooks == [RECEIVER] && s.queues == CONFIGURED && RowUrls(s.outbox, "j") == rows
    && s.jobs.Keys == {"j"} && s.jobs["j"].queue == "q" && s.jobs["j"].status == status
    && s.notices == notices && s.removals == removals
  }

  const FINISHED: Entry := FinishedJob("j", Failed, ["u"])

  // The rest of a run leaves a job that the executor finished with two rows.
  ghost predicate FinishedTwice(s: Sys, rest: seq<Action>)
  {
    Run(s, rest) && FINISHED in After(s, rest).log && RowUrls(After(s, rest).outbox, "j") == multiset{"u", "u"}
  }

  lemma ThenTwice(s: Sys, a: Action, rest: seq<Action>) returns (run: seq<Action>)
    requires Enabled(s, a) && FinishedTwice(Step(s, a), rest)
    ensures FinishedTwice(s, run)
  {
    run := [a] + rest;
    assert run[1..] == rest;
  }

  lemma FailureIsWanted()
    ensures Wanting([RECEIVER], JobFailed) == ["u"]
  {
    assert [RECEIVER][1..] == [];
  }

  lemma StageClaimed(s: Sys)
    requires Stage(s, Idle, Queued, multiset{}, multiset{}, multiset{SELECTED})
    ensures var a := Exec(Claim("q", "j", 2));
            Enabled(s, a) && Stage(Step(s, a), Claimed("j"), Running, multiset{}, multiset{}, multiset{SELECTED})
  {
    assert Waiting(s.jobs, "q") == {"j"};
  }

  lemma StageSetupFails(s: Sys)
    requires Stage(s, Claimed("j"), Running, multiset{}, multiset{}, multiset{SELECTED})
    ensures var a := Exec(SetupFails(CliError));
            && Enabled(s, a)
            && Stage(Step(s, a), Finishing("j", FAILURE, ["u"]), Running, multiset{}, multiset{}, multiset{SELECTED})
  {
    FailureIsWanted();
  }

  lemma StageFinished(s: Sys)
    requires Stage(s, Finishing("j", FAILURE, ["u"]), Running, multiset{}, multiset{}, multiset{SELECTED})
    ensures var a := Exec(Finish(3));
            && Enabled(s, a) && FINISHED in Step(s, a).log
            && Stage(Step(s, a), Idle, Failed, multiset{"u"}, multiset{}, multiset{SELECTED})
  {
    RoutedRows(s.outbox, "j", FinishRow(s.jobs["j"], FAILURE, 3), ["u"], 3, "j");
    assert multiset(["u"]) == multiset{"u"};
  }

  lemma StageRemoved(s: Sys)
    requires Stage(s, Idle, Failed, multiset{"u"}, multiset{}, multiset{SELECTED})
    ensures var a := Notice(FailSelected(SELECTED, 4));
            && Enabled(s, a) && Step(s, a).log == s.log
            && Stage(Step(s, a), Idle, Failed, multiset{"u"}, multiset{"j"}, multiset{})
  {
    assert multiset({"j"}) == multiset{"j"};
  }

  lemma StageRoute(s: Sys)
    requires Stage(s, Idle, Failed, multiset{"u"}, multiset{"j"}, multiset{})
    ensures multiset(Announces(s, Notice(Notify("j", 5)), "j")) == multiset{"u"}
  {
    FailureIsWanted();
    assert EndRoute(s.queues, s.hooks, "q", Failed) == ["u"];
  }

  lemma StageNotified(s: Sys)
    requires Stage(s, Idle, Failed, multiset{"u"}, multiset{"j"}, multiset{})
    ensures var a := Notice(Notify("j", 5));
            Enabled(s, a) && Step(s, a).log == s.log && RowUrls(Step(s, a).outbox, "j") == multiset{"u", "u"}
  {
    StageRoute(s);
    NoticeFrame(s, Notify("j", 5));
    NoticeOutbox(s, Notify("j", 5), "j");
  }

  lemma StageAnnounced(s: Sys) returns (run: seq<Action>)
    requires Stage(s, Idle, Failed, multiset{"u"}, multiset{"j"}, multiset{}) && FINISHED in s.log
    ensures FinishedTwice(s, run)
  {
    var a := Notice(Notify("j", 5));
    StageNotified(s);
    run := ThenTwice(s, a, []);
  }

  lemma FinishedThenAnnounced(s: Sys) returns (run: seq<Action>)
    requires Stage(s, Finishing("j", FAILURE, ["u"]), Running, multiset{}, multiset{}, multiset{SELECTED})
    ensures FinishedTwice(s, run)
  {
    var a, b := Exec(Finish(3)), Notice(FailSelected(SELECTED, 4));
    StageFinished(s);
    StageRemoved(Step(s, a));
    run := StageAnnounced(Step(Step(s, a), b));
    run := ThenTwice(Step(s, a), b, run);
    run := ThenTwice(s, a, run);
  }

  lemma ClaimedWhileRemoved(s: Sys) returns (run: seq<Action>)
    requires Stage(s, Idle, Queued, multiset{}, multiset{}, multiset{SELECTED})
    ensures FinishedTwice(s, run)
  {
    var a, b := Exec(Claim("q", "j", 2)), Exec(SetupFails(CliError));
    StageClaimed(s);
    StageSetupFails(Step(s, a));
    run := FinishedThenAnnounced(Step(Step(s, a), b));
    run := ThenTwice(Step(s, a), b, run);
    run := ThenTwice(s, a, run);
  }

  lemma SelectedThenClaimed(s: Sys) returns (run: seq<Action>)
    requires Scene(s, WITHOUT, Queued, multiset{}, multiset{})
    ensures FinishedTwice(s, run)
  {
    var a, b := Notice(SelectQueued("q")), Reload(CONFIGURED);
    SceneSelected(s);
    assert "q" in CONFIGURED;
    SceneReloaded(Step(s, a), WITHOUT, CONFIGURED, multiset{SELECTED});
    run := ClaimedWhileRemoved(Step(Step(s, a), b));
    run := ThenTwice(Step(s, a), b, run);
    run := ThenTwice(s, a, run);
  }

  // A repetition for a job that the executor finished: the file drops "q" and
  // the poll's reload selects "j"; before its UPDATE, SIGHUP's reload brings "q"
  // back; the executor claims "j", cannot start it and finishes it as failed;
  // then the first reload, finding nothing left to fail, announces it again.
  lemma FinishedJobAnnouncedTwice() returns (run: seq<Action>)
    ensures Run(Fresh([RECEIVER]), run) && FINISHED in After(Fresh([RECEIVER]), run).log
    ensures RowUrls(After(Fresh([RECEIVER]), run).outbox, "j") == multiset{"u", "u"}
  {
    var s, a, b, c := Fresh([RECEIVER]), Boot(CONFIGURED, 1), Api(Submit("j", "q", 0, "", "")), Reload(WITHOUT);
    SceneSubmitted();
    var t := Step(Step(s, a), b);
    assert "other" in WITHOUT;
    SceneReloaded(t, CONFIGURED, WITHOUT, multiset{});
    run := SelectedThenClaimed(Step(t, c));
    run := ThenTwice(t, c, run);
    run := ThenTwice(Step(s, a), b, run);
    run := ThenTwice(s, a, run);
  }
}
