// The executor's recovery, and the handlers that change jobs, are runs of the
// lifecycle protocol too.
module Recovery {
  import opened Jobs
  import opened Events
  import opened Lifecycle
  import opened Refinement
  import E = Executor

  // What notifying somebody leaves alone.
  ghost predicate Alike(s: Sys, t: Sys)
  {
    && t.up == s.up && t.queues == s.queues && t.hooks == s.hooks && t.exec == s.exec && t.removals == s.removals
  }

  // One job is notified, or its notification lost.
  lemma NotifyLeads(s: Sys, id: string, now: int, enqueue: bool) returns (run: seq<Action>, t: Sys)
    requires s.up && id in s.notices
    ensures Leads(s, run, t) && Alike(s, t) && t.jobs == s.jobs && t.notices == s.notices - multiset{id}
    ensures t.outbox == s.outbox + E.NotifiedRows(s.jobs, s.queues, s.hooks, id, now, enqueue)
  {
    var a := if enqueue then Notice(Notify(id, now)) else Notice(DropNotice(id));
    Single(s, a);
    run, t := [a], Step(s, a);
    assert s.outbox + [] == s.outbox;
  }

  lemma NotifyOneMore(s: Sys, before: seq<Row>, told: set<string>, id: string, now: int, enqueue: bool)
    returns (run: seq<Action>, t: Sys)
    requires s.up && id in s.notices && id !in told
    requires E.Grew(before, s.outbox, E.ReachedAll(s.jobs, s.queues, s.hooks, told, enqueue))
    ensures Leads(s, run, t) && Alike(s, t) && t.jobs == s.jobs && t.notices == s.notices - multiset{id}
    ensures E.Grew(before, t.outbox, E.ReachedAll(s.jobs, s.queues, s.hooks, told + {id}, enqueue))
  {
    run, t := NotifyLeads(s, id, now, enqueue);
    E.OneMore(before, s.outbox, s.jobs, s.queues, s.hooks, told, id, now, enqueue);
  }

  lemma TakenOut(notices: multiset<string>, ids: set<string>, id: string)
    requires multiset(ids) <= notices && id in ids
    ensures multiset(ids - {id}) <= notices && id in notices - multiset(ids - {id})
    ensures notices - multiset(ids - {id}) - multiset{id} == notices - multiset(ids)
  {
    assert multiset(ids) == multiset(ids - {id}) + multiset{id};
  }

  // From s on, exactly these jobs are notified.
  ghost predicate Notifies(s: Sys, run: seq<Action>, t: Sys, ids: set<string>, enqueue: bool)
  {
    && Leads(s, run, t) && Alike(s, t) && t.jobs == s.jobs && t.notices == s.notices - multiset(ids)
    && E.Grew(s.outbox, t.outbox, E.ReachedAll(s.jobs, s.queues, s.hooks, ids, enqueue))
  }

  lemma NotifyNext(s: Sys, first: seq<Action>, mid: Sys, ids: set<string>, id: string, now: int, enqueue: bool)
    returns (run: seq<Action>, t: Sys)
    requires s.up && multiset(ids) <= s.notices && id in ids && Notifies(s, first, mid, ids - {id}, enqueue)
    ensures Notifies(s, run, t, ids, enqueue)
  {
    TakenOut(s.notices, ids, id);
    var last;
    last, t := NotifyOneMore(mid, s.outbox, ids - {id}, id, now, enqueue);
    assert ids - {id} + {id} == ids;
    Joined(s, first, mid, last, t);
    run := first + last;
  }

  // A set of jobs is, one after another.
  lemma {:induction false} NotifiesLead(s: Sys, ids: set<string>, now: int, enqueue: bool)
    returns (run: seq<Action>, t: Sys)
    requires s.up && multiset(ids) <= s.notices
    ensures Notifies(s, run, t, ids, enqueue)
    decreases ids
  {
    if ids == {} {
      run, t := [], s;
    } else {
      var id :| id in ids;
      TakenOut(s.notices, ids, id);
      var first, mid := NotifiesLead(s, ids - {id}, now, enqueue);
      run, t := NotifyNext(s, first, mid, ids, id, now, enqueue);
    }
  }

  // The jobs of queues that are gone are notified to nobody.
  lemma {:induction false} SilentLead(s: Sys, ids: set<string>, now: int) returns (run: seq<Action>, t: Sys)
    requires s.up && multiset(ids) <= s.notices
    requires forall id | id in ids :: id in s.jobs && s.jobs[id].queue !in s.queues
    ensures Leads(s, run, t) && Alike(s, t) && t.jobs == s.jobs && t.notices == s.notices - multiset(ids)
    ensures t.outbox == s.outbox
    decreases ids
  {
    if ids == {} {
      run, t := [], s;
    } else {
      var id :| id in ids;
      TakenOut(s.notices, ids, id);
      var first, mid := SilentLead(s, ids - {id}, now);
      NobodyTold(mid, id, now);
      var last;
      last, t := NotifyLeads(mid, id, now, true);
      Joined(s, first, mid, last, t);
      run := first + last;
    }
  }

  lemma NobodyTold(s: Sys, id: string, now: int)
    requires id in s.jobs && s.jobs[id].queue !in s.queues
    ensures s.outbox + E.NotifiedRows(s.jobs, s.queues, s.hooks, id, now, true) == s.outbox
  {
    if s.jobs[id].status.Terminal() {
      RemovedQueueIsSilent(s.queues, s.hooks, s.jobs[id].queue, s.jobs[id].status);
    }
  }

  // One removed queue: its queued jobs are selected, failed and notified.
  lemma SweepOneLeads(s: Sys, q: string, now: int) returns (run: seq<Action>, t: Sys)
    requires s.up && q !in s.queues && Waiting(s.jobs, q) != {}
    ensures Leads(s, run, t) && Alike(s, t) && t.outbox == s.outbox && t.notices == s.notices
    ensures t.jobs == E.Swept(s.jobs, {q}, now)
  {
    var ids := Waiting(s.jobs, q);
    var a, b := Notice(SelectQueued(q)), Notice(FailSelected(Removal(q, ids), now));
    var mid := Step(s, a);
    var failed := Step(mid, b);
    E.SweptOne(s.jobs, q, now);
    Single(s, a);
    Single(mid, b);
    assert mid.removals - multiset{Removal(q, ids)} == s.removals;
    var rest;
    rest, t := SilentLead(failed, ids, now);
    assert s.notices + multiset(ids) - multiset(ids) == s.notices;
    Joined(mid, [b], failed, rest, t);
    Joined(s, [a], mid, [b] + rest, t);
    run := [a] + ([b] + rest);
  }

  lemma {:induction false} SweepLeads(s: Sys, removed: set<string>, now: int) returns (run: seq<Action>, t: Sys)
    requires s.up && removed !! s.queues.Keys
    ensures Leads(s, run, t) && Alike(s, t) && t.outbox == s.outbox && t.notices == s.notices
    ensures t.jobs == E.Swept(s.jobs, removed, now)
    decreases removed
  {
    if removed == {} {
      run, t := [], s;
      E.SweptNothing(s.jobs, now);
    } else {
      var q :| q in removed;
      var first, mid := [], s;
      E.SweptOne(s.jobs, q, now);
      if Waiting(s.jobs, q) != {} { first, mid := SweepOneLeads(s, q, now); }
      var rest;
      rest, t := SweepLeads(mid, removed - {q}, now);
      E.SweptTwice(s.jobs, {q}, removed - {q}, now);
      assert {q} + (removed - {q}) == removed;
      Joined(s, first, mid, rest, t);
      run := first + rest;
    }
  }

  // Main result: what Executor.Recover does to the table and the outbox after a
  // crash, some run of the protocol does that begins with the start; with none
  // left to notify.
  lemma RecoverIsARun(s: Sys, queues: QueueSet, done: set<string>, now: int, enqueue: bool)
    returns (run: seq<Action>, t: Sys)
    requires !s.up && s.removals == multiset{} && queues != map[] && done !! queues.Keys
    ensures Leads(s, run, t) && t.up && t.queues == queues && t.notices == multiset{} && t.removals == multiset{}
    ensures t.jobs == E.Swept(Recovered(s.jobs, now), done, now)
    ensures E.Grew(s.outbox, t.outbox, E.Interruptions(s.jobs, queues, s.hooks, enqueue))
  {
    var a := Boot(queues, now);
    var booted := Step(s, a);
    Single(s, a);
    var ids := RunningRows(s.jobs);
    var notify, told := NotifiesLead(booted, ids, now, enqueue);
    E.InterruptionsReach(s.jobs, queues, s.hooks, now, enqueue);
    var rest;
    rest, t := SweepLeads(told, done, now);
    Joined(booted, notify, told, rest, t);
    Joined(s, [a], booted, notify + rest, t);
    run := [a] + (notify + rest);
  }

  // ----- the handlers -----

  // Server.SubmitJob's effect on the table, accepted or not, is one step.
  lemma SubmitIsAStep(s: Sys, id: string, queue: string, priority: int, input: string, key: string)
    requires s.up && id != ""
    ensures var a := Api(Submit(id, queue, priority, input, key));
            var free := id !in s.jobs && forall x | x in s.jobs && s.jobs[x].queue == queue ::
                          key == "" || s.jobs[x].key != key;
            && Enabled(s, a) && Step(s, a).outbox == s.outbox
            && Step(s, a).jobs == if free then
                 s.jobs[id := Job(queue, Queued, priority, input, key, "", "", 0, None, None, NoError, "", 0)]
               else s.jobs
  {
  }

  // Server.RetryJob reads the parent and then inserts the child.
  lemma RetryIsARun(s: Sys, parent: string, id: string) returns (run: seq<Action>, t: Sys)
    requires s.up && parent in s.jobs && id != "" && id !in s.jobs
    requires var st := s.jobs[parent].status; st == Failed || st == NeedsInput || st == Cancelled || st == Interrupted
    ensures Leads(s, run, t) && t.outbox == s.outbox
    ensures var p := s.jobs[parent];
            t.jobs == s.jobs[id := Job(p.queue, Queued, p.priority, p.input, "", parent, "",
                                       0, None, None, NoError, "", 0)]
  {
    var a, b := Api(ReadParent(parent)), Api(Retry(parent, id));
    var mid := Step(s, a);
    t := Step(mid, b);
    Single(s, a);
    Single(mid, b);
    Joined(s, [a], mid, [b], t);
    run := [a] + [b];
  }

  // Likewise Server.ReplyJob, if the parent asked and has a session.
  lemma ReplyIsARun(s: Sys, parent: string, id: string, input: string) returns (run: seq<Action>, t: Sys)
    requires s.up && parent in s.jobs && id != "" && id !in s.jobs
    requires s.jobs[parent].status == NeedsInput && s.jobs[parent].sessionId != ""
    ensures Leads(s, run, t) && t.outbox == s.outbox
    ensures var p := s.jobs[parent];
            t.jobs == s.jobs[id := Job(p.queue, Queued, p.priority, input, "", parent, p.sessionId,
                                       0, None, None, NoError, "", 0)]
  {
    var a, b := Api(ReadAsked(parent)), Api(Reply(parent, id, input));
    var mid := Step(s, a);
    t := Step(mid, b);
    Single(s, a);
    Single(mid, b);
    Joined(s, [a], mid, [b], t);
    run := [a] + [b];
  }

  // Server.CancelJob cancels a queued job and announces it.
  lemma CancelIsARun(s: Sys, id: string, now: int, enqueue: bool) returns (run: seq<Action>, t: Sys)
    requires s.up && id in s.jobs && s.jobs[id].status == Queued
    ensures Leads(s, run, t) && t.notices == s.notices
    ensures t.jobs == s.jobs[id := s.jobs[id].(status := Cancelled, finishedAt := Some(now))]
    ensures t.outbox == s.outbox + E.NotifiedRows(t.jobs, s.queues, s.hooks, id, now, enqueue)
  {
    var a := Api(CancelQueued(id, now));
    var mid := Step(s, a);
    Single(s, a);
    var rest;
    rest, t := NotifyLeads(mid, id, now, enqueue);
    assert s.notices + multiset{id} - multiset{id} == s.notices;
    Joined(s, [a], mid, rest, t);
    run := [a] + rest;
  }
}
