// backend/internal/event: which receivers hear about what.
module Events {
  import opened Jobs

  datatype EventType =
    | JobSucceeded | JobFailed | JobNeedsInput | JobInterrupted | JobCancelled
    | AuthRequired | AuthExpiring | AuthRestored | BlockedUsage | QueueAutoPaused
  {
    predicate IsService()
    {
      this in {AuthRequired, AuthExpiring, AuthRestored, BlockedUsage, QueueAutoPaused}
    }
  }

  // The event a status emits; none for a job that has not ended.
  function ForStatus(s: Status): Option<EventType>
  {
    match s
    case Succeeded => Some(JobSucceeded)
    case Failed => Some(JobFailed)
    case NeedsInput => Some(JobNeedsInput)
    case Interrupted => Some(JobInterrupted)
    case Cancelled => Some(JobCancelled)
    case _ => None
  }

  lemma EveryEndHasItsOwnEvent(s: Status, t: Status)
    ensures ForStatus(s).Some? <==> s.Terminal()
    ensures ForStatus(s).None? <==> s == Queued || s == Running
    ensures ForStatus(s).Some? && ForStatus(s) == ForStatus(t) ==> s == t
    ensures ForStatus(s).Some? ==> !ForStatus(s).value.IsService()
    ensures ForStatus(s).Some? ==>
              var e := ForStatus(s).value;
              && (e == JobSucceeded <==> s == Succeeded) && (e == JobFailed <==> s == Failed)
              && (e == JobNeedsInput <==> s == NeedsInput) && (e == JobInterrupted <==> s == Interrupted)
              && (e == JobCancelled <==> s == Cancelled)
  {
  }

  // A queue definition, as far as scheduling and notifying need it.
  datatype Queue = Queue(weight: real, notify: set<EventType>)
  type QueueSet = map<string, Queue>

  // A receiver; an empty filter wants everything.
  datatype Webhook = Webhook(url: string, events: set<EventType>)
  {
    predicate Wants(t: EventType) { events == {} || t in events }
  }

  datatype RowState = Pending | Delivered | Dead

  // One outbox row: one event to one receiver. Row ids are positions.
  datatype Row = Row(event: EventType, queue: string, job: string, url: string,
                     attempts: nat, nextAt: int, state: RowState)

  // A job event concerns only queues that subscribe to it; a service event
  // concerns every receiver.
  predicate Subscribed(queues: QueueSet, queue: string, t: EventType)
  {
    t.IsService() || (queue in queues && t in queues[queue].notify)
  }

  function Wanting(hooks: seq<Webhook>, t: EventType): seq<string>
  {
    if hooks == [] then []
    else (if hooks[0].Wants(t) then [hooks[0].url] else []) + Wanting(hooks[1..], t)
  }

  // The URLs an event is routed to.
  function Route(queues: QueueSet, hooks: seq<Webhook>, queue: string, t: EventType): seq<string>
  {
    if Subscribed(queues, queue, t) then Wanting(hooks, t) else []
  }

  // Whom the end of a job is announced to.
  function EndRoute(queues: QueueSet, hooks: seq<Webhook>, queue: string, status: Status): seq<string>
  {
    match ForStatus(status)
    case None => []
    case Some(t) => Route(queues, hooks, queue, t)
  }

  function Rows(urls: seq<string>, t: EventType, queue: string, job: string, now: int): (r: seq<Row>)
    ensures |r| == |urls|
    ensures forall i | 0 <= i < |urls| :: r[i] == Row(t, queue, job, urls[i], 0, now, Pending)
  {
    seq(|urls|, i requires 0 <= i < |urls| => Row(t, queue, job, urls[i], 0, now, Pending))
  }

  function Urls(hooks: seq<Webhook>): seq<string> { seq(|hooks|, i requires 0 <= i < |hooks| => hooks[i].url) }

  lemma {:induction false} WantingSnoc(hooks: seq<Webhook>, w: Webhook, t: EventType)
    ensures Wanting(hooks + [w], t) == Wanting(hooks, t) + (if w.Wants(t) then [w.url] else [])
  {
    if hooks != [] {
      assert (hooks + [w])[1..] == hooks[1..] + [w];
      WantingSnoc(hooks[1..], w, t);
    }
  }

  // Deliveries walks the receivers in order.
  method Deliveries(queues: QueueSet, hooks: seq<Webhook>, queue: string, t: EventType) returns (urls: seq<string>)
    ensures urls == Route(queues, hooks, queue, t)
  {
    if !t.IsService() {
      if queue !in queues || t !in queues[queue].notify {
        return [];
      }
    }
    urls := [];
    for i := 0 to |hooks|
      invariant urls == Wanting(hooks[..i], t)
    {
      WantingSnoc(hooks[..i], hooks[i], t);
      assert hooks[..i + 1] == hooks[..i] + [hooks[i]];
      if hooks[i].Wants(t) {
        urls := urls + [hooks[i].url];
      }
    }
    assert hooks[..|hooks|] == hooks;
  }

  lemma {:induction false} WantingOnce(hooks: seq<Webhook>, t: EventType)
    ensures multiset(Wanting(hooks, t)) <= multiset(Urls(hooks))
  {
    if hooks != [] {
      WantingOnce(hooks[1..], t);
      assert Urls(hooks) == [hooks[0].url] + Urls(hooks[1..]);
    }
  }

  lemma {:induction false} WantingReceivers(hooks: seq<Webhook>, t: EventType)
    ensures forall u :: u in Wanting(hooks, t) <==> exists w :: w in hooks && w.url == u && w.Wants(t)
  {
    if hooks != [] {
      var w, rest := hooks[0], hooks[1..];
      WantingReceivers(rest, t);
      assert hooks == [w] + rest;
      forall u ensures u in Wanting(hooks, t) <==> exists x :: x in hooks && x.url == u && x.Wants(t) {
        if x :| x in hooks && x.url == u && x.Wants(t) { assert x == w || x in rest; }
      }
    }
  }

  // Routing selects exactly the receivers that want the event, if it is one of
  // the five service events or the queue is configured and subscribes to it, and
  // none of them twice.
  lemma RouteSelects(queues: QueueSet, hooks: seq<Webhook>, queue: string, t: EventType)
    ensures multiset(Route(queues, hooks, queue, t)) <= multiset(Urls(hooks))
    ensures forall u :: u in Route(queues, hooks, queue, t) <==>
              && (|| t == AuthRequired || t == AuthExpiring || t == AuthRestored || t == BlockedUsage
                  || t == QueueAutoPaused || (queue in queues && t in queues[queue].notify))
              && exists w :: w in hooks && w.url == u && (w.events == {} || t in w.events)
  {
    WantingOnce(hooks, t);
    WantingReceivers(hooks, t);
  }

  // In the order of the receivers, and each as often as it is configured: adding
  // a receiver at the end adds its URL at the end, if it wants the event.
  lemma RouteInOrder(queues: QueueSet, hooks: seq<Webhook>, w: Webhook, queue: string, t: EventType)
    ensures Route(queues, [], queue, t) == []
    ensures Route(queues, hooks + [w], queue, t) == Route(queues, hooks, queue, t) +
              if (t.IsService() || (queue in queues && t in queues[queue].notify)) && (w.events == {} || t in w.events)
              then [w.url] else []
  {
    WantingSnoc(hooks, w, t);
  }

  // A job event of a queue that is no longer configured reaches nobody.
  lemma RemovedQueueIsSilent(queues: QueueSet, hooks: seq<Webhook>, queue: string, s: Status)
    requires queue !in queues && s.Terminal()
    ensures Route(queues, hooks, queue, ForStatus(s).value) == []
  {
  }
}
