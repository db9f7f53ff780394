// The executor's own step is a run of the lifecycle protocol, and its pick a
// legal round of the scheduler, so everything proved about all runs of either
// holds of it.
module Refinement {
  import opened Jobs
  import opened Events
  import opened Lifecycle
  import C = Classify
  import Claims
  import Credits
  import E = Executor
  import Fairness
  import R = Runtime

  // The run leads from s to t.
  ghost predicate Leads(s: Sys, run: seq<Action>, t: Sys) { Run(s, run) && After(s, run) == t }

  lemma Single(s: Sys, a: Action)
    requires Enabled(s, a)
    ensures Leads(s, [a], Step(s, a))
  {
    assert [a][1..] == [];
  }

  lemma {:induction false} Joined(s: Sys, a: seq<Action>, t: Sys, b: seq<Action>, u: Sys)
    requires Leads(s, a, t) && Leads(t, b, u)
    ensures Leads(s, a + b, u)
    decreases |a|
  {
    if a == [] {
      assert a + b == b;
    } else {
      var next := Step(s, a[0]);
      assert Leads(next, a[1..], t);
      Joined(next, a[1..], t, b, u);
      assert (a + b)[0] == a[0] && (a + b)[1..] == a[1..] + b;
    }
  }

  // What the history does not say.
  ghost predicate SameStore(s: Sys, t: Sys)
  {
    s.up == t.up && s.jobs == t.jobs && s.outbox == t.outbox && s.queues == t.queues && s.hooks == t.hooks
  }

  lemma {:induction false} ToolsLead(s: Sys, n: nat) returns (run: seq<Action>, t: Sys)
    requires s.up && s.exec.Live?
    ensures Leads(s, run, t) && SameStore(s, t) && t.exec == s.exec.(tools := s.exec.tools + n)
    decreases n
  {
    if n == 0 {
      run, t := [], s;
    } else {
      var rest;
      rest, t := ToolsLead(Step(s, Exec(Tool)), n - 1);
      Single(s, Exec(Tool));
      Joined(s, [Exec(Tool)], Step(s, Exec(Tool)), rest, t);
      run := [Exec(Tool)] + rest;
    }
  }

  // A cancellation, if an operator asked for one.
  lemma CancelLeads(s: Sys, cancelled: bool) returns (run: seq<Action>, t: Sys)
    requires s.up && s.exec.Live? && !s.exec.cancelled
    ensures Leads(s, run, t) && SameStore(s, t) && t.exec == s.exec.(cancelled := cancelled)
  {
    if cancelled {
      var a := Api(CancelRunning(s.exec.id));
      Single(s, a);
      run, t := [a], Step(s, a);
    } else {
      run, t := [], s;
    }
  }

  // From the claim to the end of the subprocess.
  lemma RanLeads(s: Sys, r: C.Run) returns (run: seq<Action>, t: Sys)
    requires s.up && s.exec.Claimed?
    ensures Leads(s, run, t) && SameStore(s, t) && t.exec == Ended(s.exec.id, C.Classify(r))
  {
    var started := Step(s, Exec(Start));
    Single(s, Exec(Start));
    var tools, used := ToolsLead(started, r.toolCalls);
    var cancel, asked := CancelLeads(used, r.cancelled);
    t := Step(asked, Exec(Exit(r)));
    Single(asked, Exec(Exit(r)));
    Joined(used, cancel, asked, [Exec(Exit(r))], t);
    Joined(started, tools, used, cancel + [Exec(Exit(r))], t);
    run := [Exec(Start)] + (tools + (cancel + [Exec(Exit(r))]));
    Joined(s, [Exec(Start)], started, tools + (cancel + [Exec(Exit(r))]), t);
  }

  // The write of the result, or its failure.
  lemma FinishLeads(s: Sys, now: int, db: bool) returns (run: seq<Action>, t: Sys)
    requires s.up && s.exec.Finishing? && s.exec.id in s.jobs
    ensures Leads(s, run, t) && t.up && t.exec.Idle?
    ensures var j := FinishRow(s.jobs[s.exec.id], s.exec.result, now);
            && t.jobs == (if db then s.jobs[s.exec.id := j] else s.jobs)
            && t.outbox == s.outbox + if db then JobRows(s.exec.id, j, s.exec.route, now) else []
  {
    var a := if db then Exec(Finish(now)) else Exec(FinishFails);
    Single(s, a);
    run, t := [a], Step(s, a);
  }

  lemma ConcludeLeads(s: Sys, now: int, w: E.Writes) returns (run: seq<Action>, t: Sys)
    requires s.up && s.exec.Ended? && s.exec.id in s.jobs && s.jobs[s.exec.id].status == Running
    requires s.exec.result.status.Terminal()
    ensures Leads(s, run, t) && t.up && t.exec.Idle?
    ensures var job := s.jobs[s.exec.id];
            && t.jobs == s.jobs[s.exec.id := E.Concluded(job, s.exec.result, now, w.requeue, w.finish)]
            && t.outbox == s.outbox + E.Announced(s.queues, s.hooks, s.exec.id, job, s.exec.result, now, w)
  {
    var job := s.jobs[s.exec.id];
    if C.MayRequeue(job.attempts, s.exec.result) && w.requeue {
      Single(s, Exec(Requeue));
      run, t := [Exec(Requeue)], Step(s, Exec(Requeue));
    } else {
      var decided := Step(s, Exec(Decide));
      Single(s, Exec(Decide));
      var rest;
      rest, t := FinishLeads(decided, now, w.finish);
      Joined(s, [Exec(Decide)], decided, rest, t);
      run := [Exec(Decide)] + rest;
    }
  }

  // A setup failure goes straight to the result.
  lemma SetupLeads(s: Sys, kind: ErrorKind, now: int, w: E.Writes) returns (run: seq<Action>, t: Sys)
    requires s.up && s.exec.Claimed? && s.exec.id in s.jobs && (kind == QueueRemoved || kind == CliError)
    ensures Leads(s, run, t) && t.up && t.exec.Idle?
    ensures var job, res := s.jobs[s.exec.id], Result(Failed, kind, "", 0);
            && t.jobs == s.jobs[s.exec.id := E.Concluded(job, res, now, w.requeue, w.finish)]
            && t.outbox == s.outbox + E.Announced(s.queues, s.hooks, s.exec.id, job, res, now, w)
  {
    var failed := Step(s, Exec(SetupFails(kind)));
    Single(s, Exec(SetupFails(kind)));
    var rest;
    rest, t := FinishLeads(failed, now, w.finish);
    Joined(s, [Exec(SetupFails(kind))], failed, rest, t);
    run := [Exec(SetupFails(kind))] + rest;
  }

  // The service event that a finished run may emit.
  lemma ServiceLeads(s: Sys, v: E.World, queue: string, kind: ErrorKind, now: int, w: E.Writes)
    returns (run: seq<Action>, t: Sys)
    requires s.up
    ensures Leads(s, run, t) && t.exec == s.exec
    ensures t == s.(outbox := s.outbox + E.ServiceRows(s.hooks, v.gate, v.cred, queue, kind, now, w))
  {
    var rows := E.ServiceRows(s.hooks, v.gate, v.cred, queue, kind, now, w);
    if rows == [] {
      run, t := [], s;
      assert s.outbox + rows == s.outbox;
    } else {
      var a := match kind
        case Auth => Notice(ServiceEvent(AuthRequired, "", now))
        case UsageLimit => Notice(ServiceEvent(BlockedUsage, "", now))
        case _ => Notice(ServiceEvent(QueueAutoPaused, queue, now));
      Single(s, a);
      run, t := [a], Step(s, a);
    }
  }

  // From the end of the subprocess to an idle executor.
  lemma EndedLeads(s: Sys, v: E.World, now: int, w: E.Writes) returns (run: seq<Action>, t: Sys)
    requires s.up && s.exec.Ended? && s.exec.id in s.jobs && s.jobs[s.exec.id].status == Running
    requires s.exec.result.status.Terminal() && v.jobs == s.jobs && v.outbox == s.outbox
    ensures Leads(s, run, t) && t.up && t.exec.Idle?
    ensures var id := s.exec.id;
            var dealt := E.Dealt(v, s.queues, s.hooks, id, s.jobs[id], s.exec.result, None, now, w);
            t.jobs == dealt.jobs && t.outbox == dealt.outbox
  {
    var service, told := ServiceLeads(s, v, s.jobs[s.exec.id].queue, s.exec.result.errorKind, now, w);
    var rest;
    rest, t := ConcludeLeads(told, now, w);
    Joined(s, service, told, rest, t);
    run := service + rest;
  }

  // Main result: what Executor.Step does to the table and the outbox once it
  // has claimed a job, some run of the protocol does, however the run of the
  // job goes and whichever writes fail.
  lemma TurnIsARun(s: Sys, v: E.World, queue: string, id: string, now: int, ex: E.Execution, w: E.Writes)
    returns (run: seq<Action>, t: Sys)
    requires s.up && s.exec.Idle? && IsHead(s.jobs, queue, id)
    requires v.jobs == s.jobs && v.outbox == s.outbox
    ensures Leads(s, run, t) && t.up && t.exec.Idle?
    ensures var turned := E.Turn(v, s.queues, s.hooks, id, now, ex, w);
            t.jobs == turned.jobs && t.outbox == turned.outbox
  {
    var a := Exec(Claim(queue, id, now));
    var claimed := Step(s, a);
    Single(s, a);
    var job := ClaimRow(s.jobs[id], now);
    var res := E.ResultOf(s.queues, job, ex);
    var rest;
    if job.queue !in s.queues || ex.SetupFailed? {
      rest, t := SetupLeads(claimed, res.errorKind, now, w);
      assert s.outbox + [] == s.outbox;
    } else {
      var ran, ended := RanLeads(claimed, ex.run);
      C.ClassifyEnds(ex.run);
      var finish;
      finish, t := EndedLeads(ended, v.(jobs := ended.jobs), now, w);
      Joined(claimed, ran, ended, finish, t);
      rest := ran + finish;
    }
    Joined(s, [a], claimed, rest, t);
    run := [a] + rest;
    assert t.jobs == s.jobs[id := E.Concluded(job, res, now, w.requeue, w.finish)];
  }

  // ----- the pick -----

  ghost function Weights(queues: QueueSet): Credits.Table { map q | q in queues :: queues[q].weight }

  // Whatever the jobs and pauses, Executor.Pick's round is one that the
  // fairness theorems cover: configured weights are positive, and m bounds the
  // weight of every configuration there ever is.
  lemma PickIsLegal(jobs: Jobs.Table, runtime: R.Table, queues: QueueSet, winner: string, names: set<string>, m: real)
    requires Credits.Richest(E.Eligible(jobs, runtime, queues), R.CreditColumn(runtime), winner)
    requires queues.Keys <= names && forall q | q in queues :: queues[q].weight > 0.0
    requires Credits.Sum(queues.Keys, Weights(queues)) <= m
    ensures Fairness.Legal(R.CreditColumn(runtime), Fairness.Pick(E.Eligible(jobs, runtime, queues), winner), names, m)
  {
    var e, w := E.Eligible(jobs, runtime, queues), Weights(queues);
    Credits.SumSame(e.Keys, e, w);
    Fairness.SumSubset(e.Keys, queues.Keys, w);
  }

  // ----- the scheduler over the runtime rows -----

  // What happens to the runtime rows: a pick that is persisted, or anything that
  // leaves the credits alone. Pausing and resuming queues, auto-pauses and
  // restarts are of the second kind.
  datatype Change = Picked(e: Credits.Table, winner: string, after: R.Table) | Touched(after: R.Table)

  ghost predicate SameCredits(t: R.Table, u: R.Table) { forall q :: R.Of(u, q).credit == R.Of(t, q).credit }

  lemma PauseTouches(t: R.Table, q: string, paused: bool)
    ensures SameCredits(t, t[q := R.Of(t, q).(paused := paused)])
  {
  }

  ghost function TableAfter(t: R.Table, changes: seq<Change>): R.Table
  {
    if changes == [] then t else changes[|changes| - 1].after
  }

  ghost function Picks(changes: seq<Change>): seq<Fairness.Pick>
  {
    if changes == [] then []
    else
      var last := changes[|changes| - 1];
      Picks(changes[..|changes| - 1]) + if last.Picked? then [Fairness.Pick(last.e, last.winner)] else []
  }

  // m bounds the weight of the candidates, which are queues in names.
  ghost predicate Weighed(e: Credits.Table, names: set<string>, m: real)
  {
    e != map[] && e.Keys <= names && (forall q | q in e :: e[q] > 0.0) && Credits.Sum(e.Keys, e) <= m
  }

  ghost predicate Schedules(t: R.Table, changes: seq<Change>, names: set<string>, m: real)
  {
    changes == [] ||
    var front, last := changes[..|changes| - 1], changes[|changes| - 1];
    && Schedules(t, front, names, m)
    && match last
       case Picked(e, winner, after) => Weighed(e, names, m) && E.Charges(e, TableAfter(t, front), winner, after, true)
       case Touched(after) => SameCredits(TableAfter(t, front), after)
  }

  ghost predicate SameAt(c: Credits.Table, d: Credits.Table) { forall q :: Credits.At(c, q) == Credits.At(d, q) }

  // Whose turn it is depends only on what the credits are.
  lemma LegalAlike(c: Credits.Table, d: Credits.Table, p: Fairness.Pick, names: set<string>, m: real)
    requires SameAt(c, d) && Fairness.Legal(c, p, names, m)
    ensures Fairness.Legal(d, p, names, m) && SameAt(Fairness.Next(c, p), Fairness.Next(d, p))
  {
    forall q ensures Credits.At(Fairness.Next(c, p), q) == Credits.At(Fairness.Next(d, p), q) {
      Fairness.CreditStep(c, p, q);
      Fairness.CreditStep(d, p, q);
    }
  }

  lemma TouchedAlike(t: R.Table, u: R.Table)
    requires SameCredits(t, u)
    ensures SameAt(R.CreditColumn(t), R.CreditColumn(u))
  {
    forall q ensures Credits.At(R.CreditColumn(t), q) == Credits.At(R.CreditColumn(u), q) {
      R.ColumnAt(t, q);
      R.ColumnAt(u, q);
    }
  }

  lemma OneMoreChange(t: R.Table, front: seq<Change>, last: Change, names: set<string>, m: real)
    requires Schedules(t, front + [last], names, m)
    requires Fairness.Run(R.CreditColumn(t), Picks(front), names, m)
    requires SameAt(R.CreditColumn(TableAfter(t, front)), Fairness.After(R.CreditColumn(t), Picks(front)))
    ensures Fairness.Run(R.CreditColumn(t), Picks(front + [last]), names, m)
    ensures SameAt(R.CreditColumn(TableAfter(t, front + [last])),
                   Fairness.After(R.CreditColumn(t), Picks(front + [last])))
  {
    var changes, ps, c := front + [last], Picks(front), R.CreditColumn(t);
    assert changes[..|changes| - 1] == front;
    match last {
      case Touched(after) =>
        assert Picks(changes) == ps;
        TouchedAlike(TableAfter(t, front), after);
      case Picked(e, winner, after) =>
        var p := Fairness.Pick(e, winner);
        LegalAlike(R.CreditColumn(TableAfter(t, front)), Fairness.After(c, ps), p, names, m);
        assert (ps + [p])[..|ps|] == ps;
    }
  }

  // Main result: over any such run of the database the picks are a run of the
  // fairness model from the credits at its start, and end with its credits.
  lemma {:induction false} SchedulesFairly(t: R.Table, changes: seq<Change>, names: set<string>, m: real)
    requires Schedules(t, changes, names, m)
    ensures Fairness.Run(R.CreditColumn(t), Picks(changes), names, m)
    ensures SameAt(R.CreditColumn(TableAfter(t, changes)), Fairness.After(R.CreditColumn(t), Picks(changes)))
    decreases |changes|
  {
    if changes != [] {
      var front, last := changes[..|changes| - 1], changes[|changes| - 1];
      SchedulesFairly(t, front, names, m);
      assert front + [last] == changes;
      OneMoreChange(t, front, last, names, m);
    }
  }

  // So in every run from a new database, through pauses and restarts, each
  // stored credit is bounded and no queue starves.
  lemma SchedulingIsFair(changes: seq<Change>, names: set<string>, m: real, q: string)
    requires m >= 0.0 && Schedules(map[], changes, names, m) && q in names
    ensures var bank := Fairness.Times(|names| - 1, m);
            && -bank <= R.Of(TableAfter(map[], changes), q).credit <= bank
            && Fairness.Entitled(Picks(changes), q) <= Fairness.Times(Fairness.Wins(Picks(changes), q), m) + bank
  {
    SchedulesFairly(map[], changes, names, m);
    assert R.CreditColumn(map[]) == map[];
    Fairness.FromANewDatabase(Picks(changes), names, m, q);
    R.ColumnAt(TableAfter(map[], changes), q);
  }

  // ----- a queue's claims in a run -----

  // Every step but a claim of the queue leaves its waiting jobs alone.
  ghost predicate OnlyClaims(s: Sys, run: seq<Action>, queue: string)
    decreases |run|
  {
    run == [] ||
    (&& (IsClaimOf(run[0], queue) || Claims.SameQueue(s.jobs, Step(s, run[0]).jobs, queue))
     && OnlyClaims(Step(s, run[0]), run[1..], queue))
  }

  ghost predicate IsClaimOf(a: Action, queue: string) { a.Exec? && a.exec.Claim? && a.exec.queue == queue }

  ghost function QueueEvents(s: Sys, run: seq<Action>, queue: string): seq<Claims.Event>
    decreases |run|
  {
    if run == [] then []
    else
      [if IsClaimOf(run[0], queue) then Claims.Take(run[0].exec.id, run[0].exec.now)
       else Claims.Elsewhere(Step(s, run[0]).jobs)]
      + QueueEvents(Step(s, run[0]), run[1..], queue)
  }

  lemma {:induction false} RunServes(s: Sys, run: seq<Action>, queue: string)
    requires Run(s, run) && OnlyClaims(s, run, queue)
    ensures Claims.Serving(s.jobs, queue, QueueEvents(s, run, queue))
    decreases |run|
  {
    if run != [] {
      var next := Step(s, run[0]);
      RunServes(next, run[1..], queue);
      assert QueueEvents(s, run, queue)[1..] == QueueEvents(next, run[1..], queue);
    }
  }

  // In a run of the protocol in which the queue sees nothing but claims, the
  // job at position p of it is claimed by its claim number p, and by no other;
  // whatever is executed, requeued elsewhere or finished in between.
  lemma PositionInRuns(s: Sys, run: seq<Action>, queue: string, id: string)
    requires Run(s, run) && OnlyClaims(s, run, queue) && InQueue(s.jobs, queue, id)
    ensures var taken := Claims.Taken(QueueEvents(s, run, queue)); var p := Claims.Position(s.jobs, id);
            (p < |taken| ==> taken[p] == id) && forall k | 0 <= k < |taken| && taken[k] == id :: k == p
  {
    RunServes(s, run, queue);
    Claims.PositionRefinesClaim(s.jobs, queue, QueueEvents(s, run, queue), id);
  }
}
