// backend/internal/executor/reload.go: adopting an edited queues.yaml.
module Reload {
  import opened Jobs
  import opened Events
  import E = Executor

  // The file as read: its hash, and the definitions if it is valid.
  datatype File = Unreadable | Text(hash: string, parsed: Option<QueueSet>)

  class Reloader {
    const exec: E.Executor
    var lastHash: string

    constructor (exec: E.Executor, file: File)
      ensures this.exec == exec && lastHash == if file.Text? then file.hash else ""
    {
      this.exec := exec;
      lastHash := if file.Text? then file.hash else "";
    }

    // An invalid file is remembered and otherwise ignored. A valid one is
    // adopted at once, and the queued jobs of every queue it drops fail, except
    // in the queues whose statement fails (broken). Nobody is notified: the
    // queue's own subscriptions went with its definition.
    method ReloadIfChanged(file: File, now: int, broken: set<string>, enqueue: bool) returns (reloaded: bool)
      modifies this, exec.live, exec.st`jobs, exec.st`outbox
      ensures reloaded <==> file.Text? && file.hash != old(lastHash) && file.parsed.Some?
      ensures lastHash == if file.Text? then file.hash else old(lastHash)
      ensures exec.live.queues == if reloaded then file.parsed.value else old(exec.live.queues)
      ensures exec.st.jobs == if reloaded
              then E.Swept(old(exec.st.jobs), Dropped(old(exec.live.queues), file.parsed.value) - broken, now)
              else old(exec.st.jobs)
      ensures reloaded ==>
                var was, before, next := old(exec.st.jobs), old(exec.live.queues), file.parsed.value;
                && exec.st.jobs.Keys == was.Keys
                && forall id | id in was ::
                     exec.st.jobs[id] ==
                       if was[id].status == Queued && was[id].queue in before && was[id].queue !in next
                          && was[id].queue !in broken
                       then was[id].(status := Failed, finishedAt := Some(now), errorKind := QueueRemoved)
                       else was[id]
      ensures exec.st.outbox == old(exec.st.outbox)
    {
      if file.Unreadable? || file.hash == lastHash {
        return false;
      }
      lastHash := file.hash;
      if file.parsed.None? {
        return false;
      }
      var prev, next := exec.live.queues, file.parsed.value;
      exec.live.queues := next;
      ghost var jobs := exec.st.jobs;
      E.SweptNothing(jobs, now);
      var rest := prev.Keys - next.Keys;
      ghost var done: set<string> := {};
      while rest != {}
        invariant rest + done == Dropped(prev, next) && rest !! done
        invariant lastHash == file.hash && exec.live.queues == next && exec.st.outbox == old(exec.st.outbox)
        invariant exec.st.jobs == E.Swept(jobs, done - broken, now)
        decreases rest
      {
        var name :| name in rest;
        exec.FailRemoved(name, now, name !in broken, enqueue);
        E.SweptTwice(jobs, done - broken, {name}, now);
        assert name !in broken ==> done + {name} - broken == done - broken + {name};
        assert name in broken ==> done + {name} - broken == done - broken;
        rest, done := rest - {name}, done + {name};
      }
      return true;
    }
  }

  function Dropped(prev: QueueSet, next: QueueSet): set<string> { prev.Keys - next.Keys }

  // Every queued job belongs to a configured queue, as Recover leaves it.
  ghost predicate Housed(jobs: Jobs.Table, queues: QueueSet)
  {
    forall id | id in jobs && jobs[id].status == Queued :: jobs[id].queue in queues
  }

  // A reload keeps it so exactly if every queue whose statement failed was
  // empty; and it touches no job of a queue that stays.
  lemma ReloadKeepsHoused(jobs: Jobs.Table, prev: QueueSet, next: QueueSet, broken: set<string>, now: int)
    requires Housed(jobs, prev)
    ensures var after := E.Swept(jobs, Dropped(prev, next) - broken, now);
            && (Housed(after, next) <==> forall q | q in Dropped(prev, next) * broken :: Waiting(jobs, q) == {})
            && (forall id | id in jobs && jobs[id].queue in next :: id in after && after[id] == jobs[id])
  {
    var after := E.Swept(jobs, Dropped(prev, next) - broken, now);
    forall q | q in Dropped(prev, next) * broken && Waiting(jobs, q) != {} ensures !Housed(after, next) {
      var id :| id in Waiting(jobs, q);
      assert after[id] == jobs[id];
    }
    forall id | id in after && after[id].status == Queued && after[id].queue !in next
      ensures after[id].queue in Dropped(prev, next) * broken && Waiting(jobs, after[id].queue) != {}
    {
      assert id in Waiting(jobs, jobs[id].queue);
    }
  }
}
