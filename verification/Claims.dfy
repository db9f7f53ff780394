// Position and Claim agree: a job's position is the number of claims its queue
// still owes before the job itself is claimed.
module Claims {
  import opened Order
  import Sets
  import opened Jobs

  ghost function Ahead(jobs: Table, id: string): set<string>
    requires id in jobs
  {
    set other | other in Waiting(jobs, jobs[id].queue) && Before(jobs, other, id)
  }

  // SELECT COUNT(*) of the rows ahead.
  ghost function Position(jobs: Table, id: string): nat
    requires id in jobs
  {
    |Ahead(jobs, id)|
  }

  // Ahead are the jobs queued in the same queue with a higher priority, or with
  // the same one and a smaller id.
  lemma PositionCounts(jobs: Table, id: string, ahead: set<string>)
    requires id in jobs
    requires forall x :: x in ahead <==>
               && x in jobs && jobs[x].queue == jobs[id].queue && jobs[x].status == Queued
               && (|| jobs[x].priority > jobs[id].priority
                   || (jobs[x].priority == jobs[id].priority && Less(x, id)))
    ensures Position(jobs, id) == |ahead|
  {
    assert Ahead(jobs, id) == ahead;
  }

  lemma BeforeIsTotal(jobs: Table, a: string, b: string)
    requires a in jobs && b in jobs && a != b
    ensures Before(jobs, a, b) <==> !Before(jobs, b, a)
  {
    Trichotomy(a, b);
  }

  lemma BeforeIsTransitive(jobs: Table, a: string, b: string, c: string)
    requires a in jobs && b in jobs && c in jobs
    requires Before(jobs, a, b) && Before(jobs, b, c)
    ensures Before(jobs, a, c)
  {
    if jobs[a].priority == jobs[b].priority == jobs[c].priority { Transitive(a, b, c); }
  }

  // Among any waiting jobs one comes first.
  lemma {:induction false} FirstExists(jobs: Table, ids: set<string>) returns (first: string)
    requires ids != {} && ids <= jobs.Keys
    ensures first in ids && forall other | other in ids && other != first :: Before(jobs, first, other)
    decreases ids
  {
    first :| first in ids;
    if ids != {first} {
      var rest := FirstExists(jobs, ids - {first});
      BeforeIsTotal(jobs, first, rest);
      if Before(jobs, rest, first) {
        first := rest;
      } else {
        forall other | other in ids && other != first ensures Before(jobs, first, other) {
          if other != rest { BeforeIsTransitive(jobs, first, rest, other); }
        }
      }
    }
  }

  lemma HeadExists(jobs: Table, queue: string)
    requires Waiting(jobs, queue) != {}
    ensures exists id :: id in jobs && IsHead(jobs, queue, id)
  {
    var id := FirstExists(jobs, Waiting(jobs, queue));
    assert IsHead(jobs, queue, id);
  }

  // The head is the queued job of the queue with the highest priority and, of
  // those, the smallest id.
  lemma HeadIsMostUrgent(jobs: Table, queue: string, id: string)
    ensures IsHead(jobs, queue, id) <==>
              && id in jobs && jobs[id].queue == queue && jobs[id].status == Queued
              && forall x | x in jobs && jobs[x].queue == queue && jobs[x].status == Queued && x != id ::
                   || jobs[x].priority < jobs[id].priority
                   || (jobs[x].priority == jobs[id].priority && Less(id, x))
  {
    if IsHead(jobs, queue, id) {
      forall x | x in jobs && jobs[x].queue == queue && jobs[x].status == Queued && x != id
        ensures jobs[x].priority < jobs[id].priority || (jobs[x].priority == jobs[id].priority && Less(id, x))
      {
        assert x in Waiting(jobs, queue);
      }
    }
  }

  lemma HeadIsUnique(jobs: Table, queue: string, a: string, b: string)
    requires IsHead(jobs, queue, a) && IsHead(jobs, queue, b)
    ensures a == b
  {
    if a != b { BeforeIsTotal(jobs, a, b); }
  }

  // What may happen while one queue is served: the claim of its head, or a
  // change to the table that leaves its waiting jobs and their priorities alone.
  // Finishes, and whatever other queues do, are of the second kind.
  datatype Event = Take(id: string, now: int) | Elsewhere(next: Table)

  ghost predicate SameQueue(jobs: Table, next: Table, queue: string)
  {
    && Waiting(next, queue) == Waiting(jobs, queue)
    && forall id | id in Waiting(jobs, queue) :: next[id].priority == jobs[id].priority
  }

  ghost predicate Serving(jobs: Table, queue: string, events: seq<Event>)
    decreases |events|
  {
    events == [] ||
    match events[0]
    case Take(id, now) => IsHead(jobs, queue, id) && Serving(Claimed(jobs, id, now), queue, events[1..])
    case Elsewhere(next) => SameQueue(jobs, next, queue) && Serving(next, queue, events[1..])
  }

  // The jobs of the queue, in the order in which they are claimed.
  ghost function Taken(events: seq<Event>): seq<string>
  {
    if events == [] then []
    else (if events[0].Take? then [events[0].id] else []) + Taken(events[1..])
  }

  ghost function Claimed(jobs: Table, id: string, now: int): Table
    requires id in jobs
  {
    jobs[id := ClaimRow(jobs[id], now)]
  }

  // The end of a running job, and a claim or an arrival in another queue.
  lemma ElsewhereCovers(jobs: Table, queue: string, id: string, r: Result, j: Job, now: int)
    ensures id in jobs && jobs[id].status == Running && r.status != Queued ==>
              SameQueue(jobs, Finished(jobs, id, r, now), queue)
    ensures id in jobs && jobs[id].queue != queue ==> SameQueue(jobs, Claimed(jobs, id, now), queue)
    ensures id !in jobs && j.queue != queue ==> SameQueue(jobs, jobs[id := j], queue)
  {
  }

  lemma ElsewhereKeepsPosition(jobs: Table, next: Table, queue: string, id: string)
    requires SameQueue(jobs, next, queue) && InQueue(jobs, queue, id)
    ensures InQueue(next, queue, id) && Position(next, id) == Position(jobs, id)
  {
    assert id in Waiting(jobs, queue);
    assert Ahead(next, id) == Ahead(jobs, id);
  }

  lemma ClaimShrinks(jobs: Table, queue: string, head: string, now: int)
    requires IsHead(jobs, queue, head)
    ensures Waiting(Claimed(jobs, head, now), queue) == Waiting(jobs, queue) - {head}
  {
  }

  // The head is exactly the job at position zero, and a claim moves every other
  // waiting job up by one.
  lemma ClaimAdvances(jobs: Table, queue: string, head: string, id: string, now: int)
    requires IsHead(jobs, queue, head) && InQueue(jobs, queue, id)
    ensures Position(jobs, id) == 0 <==> id == head
    ensures id != head ==> InQueue(Claimed(jobs, head, now), queue, id)
                           && Position(Claimed(jobs, head, now), id) == Position(jobs, id) - 1
  {
    var after := Claimed(jobs, head, now);
    ClaimShrinks(jobs, queue, head, now);
    if id == head {
      forall other | other in Waiting(jobs, queue) ensures !Before(jobs, other, head) {
        if other == head { Trichotomy(head, head); } else { BeforeIsTotal(jobs, head, other); }
      }
      assert Ahead(jobs, id) == {};
    } else {
      assert head in Ahead(jobs, id);
      assert Ahead(after, id) == Ahead(jobs, id) - {head};
    }
  }

  // Main result: whatever else happens in the table, as long as nothing else
  // happens to this queue, its job at position p is claimed by exactly the claim
  // with number p of this queue (counting from zero), and by no other.
  lemma {:induction false} PositionRefinesClaim(jobs: Table, queue: string, events: seq<Event>, id: string)
    requires Serving(jobs, queue, events) && InQueue(jobs, queue, id)
    ensures Position(jobs, id) < |Taken(events)| ==> Taken(events)[Position(jobs, id)] == id
    ensures forall k | 0 <= k < |Taken(events)| && Taken(events)[k] == id :: k == Position(jobs, id)
    decreases |events|
  {
    if events != [] {
      match events[0] {
        case Take(head, now) =>
          ClaimAdvances(jobs, queue, head, id, now);
          if id == head {
            NotClaimedAgain(Claimed(jobs, id, now), queue, events[1..], id);
          } else {
            PositionRefinesClaim(Claimed(jobs, head, now), queue, events[1..], id);
            forall k | 0 <= k < |Taken(events)| && Taken(events)[k] == id ensures k == Position(jobs, id) {
              assert Taken(events[1..])[k - 1] == id;
            }
          }
        case Elsewhere(next) =>
          ElsewhereKeepsPosition(jobs, next, queue, id);
          PositionRefinesClaim(next, queue, events[1..], id);
      }
    }
  }

  lemma {:induction false} NotClaimedAgain(jobs: Table, queue: string, events: seq<Event>, id: string)
    requires Serving(jobs, queue, events) && id !in Waiting(jobs, queue)
    ensures id !in Taken(events)
    decreases |events|
  {
    if events != [] {
      match events[0] {
        case Take(head, now) => NotClaimedAgain(Claimed(jobs, head, now), queue, events[1..], id);
        case Elsewhere(next) => NotClaimedAgain(next, queue, events[1..], id);
      }
    }
  }

  lemma {:induction false} TakenAndLeft(jobs: Table, queue: string, events: seq<Event>)
    requires Serving(jobs, queue, events)
    ensures forall x | x in Taken(events) :: x in Waiting(jobs, queue)
    ensures |Taken(events)| == |Waiting(jobs, queue)| ==> forall x | x in Waiting(jobs, queue) :: x in Taken(events)
    decreases |events|
  {
    if events != [] {
      match events[0] {
        case Take(head, now) =>
          ClaimShrinks(jobs, queue, head, now);
          TakenAndLeft(Claimed(jobs, head, now), queue, events[1..]);
        case Elsewhere(next) => TakenAndLeft(next, queue, events[1..]);
      }
    }
  }

  // Claiming a queue until none of its jobs is left yields every one of them
  // exactly once, by priority descending and then id ascending.
  lemma DrainIsSortedPermutation(jobs: Table, queue: string, events: seq<Event>)
    requires Serving(jobs, queue, events) && |Taken(events)| == |Waiting(jobs, queue)|
    ensures forall id :: id in Taken(events) <==> id in Waiting(jobs, queue)
    ensures var ids := Taken(events);
            forall i, j | 0 <= i < j < |ids| ::
              && ids[i] in jobs && ids[j] in jobs
              && (|| jobs[ids[i]].priority > jobs[ids[j]].priority
                  || (jobs[ids[i]].priority == jobs[ids[j]].priority && Less(ids[i], ids[j])))
  {
    var ids := Taken(events);
    TakenAndLeft(jobs, queue, events);
    forall i, j | 0 <= i < j < |ids|
      ensures ids[i] in jobs && ids[j] in jobs && Before(jobs, ids[i], ids[j])
    {
      assert ids[i] in ids && ids[j] in ids;
      PositionRefinesClaim(jobs, queue, events, ids[i]);
      PositionRefinesClaim(jobs, queue, events, ids[j]);
      if !Before(jobs, ids[i], ids[j]) {
        BeforeIsTotal(jobs, ids[i], ids[j]);
        SmallerPosition(jobs, queue, ids[j], ids[i]);
      }
    }
  }

  lemma SmallerPosition(jobs: Table, queue: string, a: string, b: string)
    requires InQueue(jobs, queue, a) && InQueue(jobs, queue, b) && Before(jobs, a, b)
    ensures Position(jobs, a) < Position(jobs, b)
  {
    Trichotomy(a, a);
    assert a in Ahead(jobs, b) - Ahead(jobs, a);
    forall x | x in Ahead(jobs, a) ensures x in Ahead(jobs, b) { BeforeIsTransitive(jobs, x, a, b); }
    Sets.SubsetSize(Ahead(jobs, a), Ahead(jobs, b) - {a});
  }
}
