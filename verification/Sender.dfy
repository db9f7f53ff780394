// backend/internal/webhook/sender.go: the loop that posts the outbox. The HTTP
// exchange, the clock and the success of each write are inputs.
module Sender {
  import opened Events
  import opened RetryWindow
  import opened Outbox
  import S = Store

  const IDLE_POLL := 30_000

  class Sender {
    const st: S.Store
    const window: int
    ghost var posts: seq<Post>

    ghost function View(): State
      reads this, st
    {
      State(st.outbox, posts)
    }

    constructor (st: S.Store, window: int)
      ensures this.st == st && this.window == window && posts == []
    {
      this.st, this.window, posts := st, window, [];
    }

    // deliver posts one claimed row and records how it went. e is the row as it
    // was claimed.
    method Deliver(id: nat, e: Row, reply: Reply)
      requires id < |st.outbox| && st.outbox[id] == e && e.state.Pending?
      modifies st`outbox, this`posts
      ensures st.outbox == old(st.outbox)[id := Settle(e, window, reply)]
      ensures st.outbox[id] ==
                var n := e.attempts + 1;
                if !reply.db then e
                else if reply.ok then e.(state := Delivered, attempts := n)
                else if n >= 1000 || Scheduled(n) >= window then e.(state := Dead, attempts := n)
                else e.(nextAt := reply.at + Backoff(n), attempts := n)
      ensures posts == old(posts) + [Post(id, reply)]
    {
      posts := posts + [Post(id, reply)];
      if reply.ok {
        var _ := st.MarkDelivered(id, reply.db);
        return;
      }
      var next := reply.at + Backoff(e.attempts + 1);
      var limit := MaxAttempts(window);
      LimitDecides(window, limit, e.attempts + 1);
      if e.attempts + 1 >= limit {
        var _ := st.MarkDead(id, reply.db);
        return;
      }
      var _ := st.RescheduleDelivery(id, next, reply.db);
    }

    // step serves one batch, or says how long to sleep. later is the clock read
    // for the sleep; the context is cancelled when the replies run out.
    method Step(now: int, later: int, replies: seq<Reply>) returns (wait: int)
      modifies st`outbox, this`posts
      ensures View() == Do(old(View()), window, Batch(now, replies))
      ensures Due20(old(st.outbox), now) != [] ==> wait == 0
      ensures Due20(old(st.outbox), now) == [] ==>
                st.outbox == old(st.outbox) && Sleeps(st.outbox, later, wait)
    {
      DueFromShape(st.outbox, now, 0);
      ghost var rows := st.outbox;
      var due := st.ClaimDueDeliveries(now, BATCH);
      assert due == Due20(rows, now) && Within(due, rows) && Ascending(due);
      if |due| == 0 {
        assert Attempts(due, replies, 0) == [];
        wait := SleepFor(later);
        return;
      }
      ServeAll(due, rows, now, replies);
      wait := 0;
    }

    method ServeAll(due: seq<nat>, ghost rows: seq<Row>, ghost now: int, replies: seq<Reply>)
      requires st.outbox == rows && due == Due20(rows, now) && Within(due, rows) && Ascending(due)
      modifies st`outbox, this`posts
      ensures var n := Shorter(|due|, |replies|);
              st.outbox == Served(rows, window, due, replies, n) && posts == old(posts) + Attempts(due, replies, n)
    {
      var claimed := st.outbox;
      for i := 0 to |due|
        invariant i <= |replies|
        invariant st.outbox == Served(rows, window, due, replies, i)
        invariant posts == old(posts) + Attempts(due, replies, i)
      {
        if i == |replies| {
          return;
        }
        StillClaimed(rows, window, due, replies, i, now);
        Deliver(due[i], claimed[due[i]], replies[i]);
        assert Attempts(due, replies, i + 1) == Attempts(due, replies, i) + [Post(due[i], replies[i])];
      }
    }

    // Nothing is due: how long until something is.
    method SleepFor(later: int) returns (wait: int)
      ensures Sleeps(st.outbox, later, wait)
      ensures 0 <= wait <= 30_000
      ensures wait > 0 ==> forall k | 0 <= k < |st.outbox| && st.outbox[k].state == Pending ::
                later + wait <= st.outbox[k].nextAt
      ensures wait < 30_000 ==>
                exists k :: 0 <= k < |st.outbox| && st.outbox[k].state == Pending && st.outbox[k].nextAt <= later + wait
    {
      var next := st.NextDeliveryDue();
      if next.None? {
        return IDLE_POLL;
      }
      var d := next.value - later;
      if d > 0 {
        return if d <= IDLE_POLL then d else IDLE_POLL;
      }
      return 0;
    }
  }

  // A sleep lasts at most the idle poll and never passes the due time of a
  // pending row; one that is shorter ends exactly when the first row is due, and
  // there is none only if some row is due.
  ghost predicate Sleeps(rows: seq<Row>, later: int, wait: int)
  {
    && 0 <= wait <= IDLE_POLL
    && (wait > 0 ==> forall k | 0 <= k < |rows| && rows[k].state.Pending? :: later + wait <= rows[k].nextAt)
    && (0 < wait < IDLE_POLL ==> S.Earliest(rows, later + wait))
    && (wait == 0 ==> exists k :: 0 <= k < |rows| && S.Due(rows[k], later))
  }

  // The rows of a batch are distinct, so each is still as it was claimed.
  lemma StillClaimed(rows: seq<Row>, window: int, due: seq<nat>, replies: seq<Reply>, i: nat, now: int)
    requires due == Due20(rows, now) && Within(due, rows) && Ascending(due) && i < |due| && i < |replies|
    ensures Served(rows, window, due, replies, i)[due[i]] == rows[due[i]]
    ensures rows[due[i]].state.Pending?
  {
    DueFromShape(rows, now, 0);
    assert due[i] == S.DueFrom(rows, now, 0)[i];
    ServedAt(rows, window, due, replies, i, due[i]);
  }
}
