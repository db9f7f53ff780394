// Scheduling terminates: without new submissions and without auth or usage
// failures every job is claimed a bounded number of times.
module LifecycleBudget {
  import opened Jobs
  import opened Events
  import opened Lifecycle
  import opened LifecycleSafety
  import opened LifecycleLineage
  import opened LifecycleRuns
  import C = Classify

  // The claims a job can still need.
  function Budget(j: Job): nat
  {
    match j.status
    case Queued => if j.attempts + 1 < C.MAX_CAPABILITY_RETRIES then C.MAX_CAPABILITY_RETRIES - j.attempts else 1
    case Running => if j.attempts < C.MAX_CAPABILITY_RETRIES then C.MAX_CAPABILITY_RETRIES - j.attempts else 0
    case _ => 0
  }

  // No job is created and none is requeued for an auth or usage failure.
  ghost predicate Settling(s: Sys, a: Action)
  {
    match a
    case Api(x) => !x.Submit? && !x.Retry? && !x.Reply?
    case Exec(x) => x.Requeue? && s.exec.Ended? ==> !s.exec.result.errorKind.Blocking()
    case _ => true
  }

  ghost predicate SettlingRun(s: Sys, run: seq<Action>)
    decreases |run|
  {
    run == [] || (Settling(s, run[0]) && SettlingRun(Step(s, run[0]), run[1..]))
  }

  ghost function IsClaim(a: Action, id: string): nat
  {
    if a.Exec? && a.exec.Claim? && a.exec.id == id then 1 else 0
  }

  ghost function ClaimsOf(run: seq<Action>, id: string): nat
  {
    if run == [] then 0 else IsClaim(run[0], id) + ClaimsOf(run[1..], id)
  }

  lemma ApiSpends(s: Sys, a: ApiAction, id: string)
    requires ApiEnabled(s, a) && !a.Submit? && !a.Retry? && !a.Reply? && id in s.jobs
    ensures ApiStep(s, a).jobs.Keys == s.jobs.Keys
    ensures Budget(ApiStep(s, a).jobs[id]) <= Budget(s.jobs[id])
  {
    match a {
      case ReadParent(p) =>
      case ReadAsked(p) =>
      case CancelQueued(x, now) =>
      case CancelRunning(x) =>
    }
  }

  lemma ExecSpends(s: Sys, a: ExecAction, id: string)
    requires Held(s) && ExecEnabled(s, a) && Settling(s, Exec(a)) && id in s.jobs
    ensures ExecStep(s, a).jobs.Keys == s.jobs.Keys
    ensures IsClaim(Exec(a), id) + Budget(ExecStep(s, a).jobs[id]) <= Budget(s.jobs[id])
  {
    match a {
      case Claim(q, x, now) =>
      case SetupFails(kind) =>
      case Start =>
      case Tool =>
      case Exit(run) =>
      case Requeue =>
      case Decide =>
      case Finish(now) =>
      case FinishFails =>
    }
  }

  lemma NoticeSpends(s: Sys, a: NoticeAction, id: string)
    requires NoticeEnabled(s, a) && id in s.jobs
    ensures NoticeStep(s, a).jobs.Keys == s.jobs.Keys
    ensures Budget(NoticeStep(s, a).jobs[id]) <= Budget(s.jobs[id])
  {
    NoticeFrame(s, a);
  }

  lemma StepSpends(s: Sys, a: Action, id: string)
    requires Held(s) && Enabled(s, a) && Settling(s, a) && id in s.jobs
    ensures Step(s, a).jobs.Keys == s.jobs.Keys
    ensures IsClaim(a, id) + Budget(Step(s, a).jobs[id]) <= Budget(s.jobs[id])
  {
    match a {
      case Api(x) => ApiSpends(s, x, id);
      case Exec(x) => ExecSpends(s, x, id);
      case Notice(x) => NoticeSpends(s, x, id);
      case Reload(queues) =>
      case Crash =>
      case Boot(queues, now) =>
    }
  }

  // A job already in the table is claimed no more often than its budget.
  lemma {:induction false} ClaimsAreBudgeted(s: Sys, run: seq<Action>, id: string)
    requires Safe(s) && Run(s, run) && SettlingRun(s, run) && id in s.jobs
    ensures After(s, run).jobs.Keys == s.jobs.Keys
    ensures ClaimsOf(run, id) + Budget(After(s, run).jobs[id]) <= Budget(s.jobs[id])
    decreases |run|
  {
    if run != [] {
      StepSpends(s, run[0], id);
      StepKeepsSafe(s, run[0]);
      ClaimsAreBudgeted(Step(s, run[0]), run[1..], id);
    }
  }

  // In particular no job is claimed more than three times.
  lemma AtMostThreeClaims(hooks: seq<Webhook>, before: seq<Action>, run: seq<Action>, id: string)
    requires Run(Fresh(hooks), before)
    requires var s := After(Fresh(hooks), before); Run(s, run) && SettlingRun(s, run) && id in s.jobs
    ensures ClaimsOf(run, id) <= 3
  {
    Reachable(hooks, before);
    ClaimsAreBudgeted(After(Fresh(hooks), before), run, id);
  }

  // ----- all jobs together -----

  ghost function Total(jobs: Table, ids: set<string>): nat
    requires ids <= jobs.Keys
  {
    if ids == {} then 0 else var x :| x in ids; Budget(jobs[x]) + Total(jobs, ids - {x})
  }

  lemma {:induction false} TotalPick(jobs: Table, ids: set<string>, x: string)
    requires ids <= jobs.Keys && x in ids
    ensures Total(jobs, ids) == Budget(jobs[x]) + Total(jobs, ids - {x})
    decreases ids
  {
    var y :| y in ids && Total(jobs, ids) == Budget(jobs[y]) + Total(jobs, ids - {y});
    if y != x {
      TotalPick(jobs, ids - {y}, x);
      TotalPick(jobs, ids - {x}, y);
      assert ids - {y} - {x} == ids - {x} - {y};
    }
  }

  lemma {:induction false} TotalFalls(before: Table, after: Table, ids: set<string>)
    requires ids <= before.Keys && ids <= after.Keys
    requires forall x | x in ids :: Budget(after[x]) <= Budget(before[x])
    ensures Total(after, ids) <= Total(before, ids)
    decreases ids
  {
    if x :| x in ids {
      TotalPick(before, ids, x);
      TotalPick(after, ids, x);
      TotalFalls(before, after, ids - {x});
    }
  }

  lemma StepLowersTotal(s: Sys, a: Action)
    requires Held(s) && Enabled(s, a) && Settling(s, a)
    ensures Step(s, a).jobs.Keys == s.jobs.Keys
    ensures Total(Step(s, a).jobs, s.jobs.Keys) + (if a.Exec? && a.exec.Claim? then 1 else 0)
              <= Total(s.jobs, s.jobs.Keys)
  {
    var t, ids := Step(s, a), s.jobs.Keys;
    SameRows(s, a);
    forall x | x in ids ensures Budget(t.jobs[x]) <= Budget(s.jobs[x]) { StepSpends(s, a, x); }
    if a.Exec? && a.exec.Claim? {
      var id := a.exec.id;
      StepSpends(s, a, id);
      TotalPick(s.jobs, ids, id);
      TotalPick(t.jobs, ids, id);
      TotalFalls(s.jobs, t.jobs, ids - {id});
    } else {
      TotalFalls(s.jobs, t.jobs, ids);
    }
  }

  lemma SameRows(s: Sys, a: Action)
    requires Held(s) && Enabled(s, a) && Settling(s, a)
    ensures Step(s, a).jobs.Keys == s.jobs.Keys
  {
    if a.Api? {
      match a.api {
        case ReadParent(p) =>
        case ReadAsked(p) =>
        case CancelQueued(x, now) =>
        case CancelRunning(x) =>
      }
    } else {
      AddsNoRows(s, a);
    }
  }

  ghost function Claims(run: seq<Action>): nat
  {
    if run == [] then 0 else (if run[0].Exec? && run[0].exec.Claim? then 1 else 0) + Claims(run[1..])
  }

  // The number of claims left is bounded by the jobs' budgets, in every run
  // from any reachable state, crashes included.
  lemma {:induction false} ClaimsTerminate(s: Sys, run: seq<Action>)
    requires Safe(s) && Run(s, run) && SettlingRun(s, run)
    ensures After(s, run).jobs.Keys == s.jobs.Keys
    ensures Claims(run) + Total(After(s, run).jobs, s.jobs.Keys) <= Total(s.jobs, s.jobs.Keys)
    decreases |run|
  {
    if run != [] {
      StepLowersTotal(s, run[0]);
      StepKeepsSafe(s, run[0]);
      ClaimsTerminate(Step(s, run[0]), run[1..]);
    }
  }
}
