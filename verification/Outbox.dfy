// What the webhook sender does to the outbox, over whole runs.
module Outbox {
  import opened Events
  import opened RetryWindow
  import opened Store

  const BATCH: nat := 20

  // How one attempt went: whether the receiver accepted it, the clock read
  // after it, and whether the row's update was written.
  datatype Reply = Reply(ok: bool, at: int, db: bool)

  // History: one attempt on one row.
  datatype Post = Post(id: nat, reply: Reply)

  datatype State = State(rows: seq<Row>, posts: seq<Post>)

  // Enqueue is any producer of rows; Batch is one step of the sender, cut
  // short by shutdown when the replies run out.
  datatype Act = Enqueue(added: seq<Row>) | Batch(now: int, replies: seq<Reply>)

  ghost function Settle(r: Row, window: int, reply: Reply): Row
  {
    if !reply.db then r
    else if reply.ok then r.(state := Delivered, attempts := r.attempts + 1)
    else if Exhausted(window, r.attempts + 1) then r.(state := Dead, attempts := r.attempts + 1)
    else r.(nextAt := reply.at + Backoff(r.attempts + 1), attempts := r.attempts + 1)
  }

  ghost predicate Within(ids: seq<nat>, rows: seq<Row>)
  {
    forall k | 0 <= k < |ids| :: ids[k] < |rows|
  }

  ghost predicate Ascending(ids: seq<nat>)
  {
    forall j, k | 0 <= j < k < |ids| :: ids[j] < ids[k]
  }

  // The rows after the first n attempts of a batch.
  ghost function Served(rows: seq<Row>, window: int, ids: seq<nat>, replies: seq<Reply>, n: nat): (r: seq<Row>)
    requires n <= |ids| && n <= |replies| && Within(ids, rows)
    ensures |r| == |rows|
  {
    if n == 0 then rows
    else
      var k := ids[n - 1];
      var before := Served(rows, window, ids, replies, n - 1);
      before[k := Settle(rows[k], window, replies[n - 1])]
  }

  ghost function Attempts(ids: seq<nat>, replies: seq<Reply>, n: nat): seq<Post>
    requires n <= |ids| && n <= |replies|
  {
    seq(n, k requires 0 <= k < n => Post(ids[k], replies[k]))
  }

  ghost function Due20(rows: seq<Row>, now: int): seq<nat> { First(DueFrom(rows, now, 0), BATCH) }

  ghost function Shorter(a: nat, b: nat): nat { if a <= b then a else b }

  ghost function Do(s: State, window: int, a: Act): State
  {
    match a
    case Enqueue(added) => s.(rows := s.rows + added)
    case Batch(now, replies) =>
      DueFromShape(s.rows, now, 0);
      var ids := Due20(s.rows, now);
      var n := Shorter(|ids|, |replies|);
      State(Served(s.rows, window, ids, replies, n), s.posts + Attempts(ids, replies, n))
  }

  ghost predicate Legal(a: Act)
  {
    a.Enqueue? ==> forall k | 0 <= k < |a.added| :: a.added[k].state.Pending? && a.added[k].attempts == 0
  }

  ghost predicate Run(acts: seq<Act>) { forall k | 0 <= k < |acts| :: Legal(acts[k]) }

  ghost function After(s: State, window: int, acts: seq<Act>): State
  {
    if acts == [] then s else Do(After(s, window, acts[..|acts| - 1]), window, acts[|acts| - 1])
  }

  // ----- the batch -----

  lemma {:induction false} DueFromShape(rows: seq<Row>, now: int, i: nat)
    ensures var ids := DueFrom(rows, now, i);
            && Within(ids, rows) && Ascending(ids)
            && (forall k | 0 <= k < |ids| :: i <= ids[k])
            && (forall id: nat :: id in ids <==> i <= id < |rows| && Due(rows[id], now))
    decreases |rows| - i
  {
    if i < |rows| { DueFromShape(rows, now, i + 1); }
  }

  lemma {:induction false} ServedAt(rows: seq<Row>, window: int, ids: seq<nat>, replies: seq<Reply>, n: nat, k: nat)
    requires n <= |ids| && n <= |replies| && Within(ids, rows) && Ascending(ids) && k < |rows|
    ensures forall i | 0 <= i < n && ids[i] == k ::
              Served(rows, window, ids, replies, n)[k] == Settle(rows[k], window, replies[i])
    ensures k !in ids[..n] ==> Served(rows, window, ids, replies, n)[k] == rows[k]
  {
    if n != 0 {
      ServedAt(rows, window, ids, replies, n - 1, k);
      assert ids[..n] == ids[..n - 1] + [ids[n - 1]];
    }
  }

  // ----- one row over a run -----

  // Attempts on row k whose update was written.
  ghost function Tries(posts: seq<Post>, k: nat): nat
  {
    if posts == [] then 0
    else
      var p := posts[|posts| - 1];
      Tries(posts[..|posts| - 1], k) + if p.id == k && p.reply.db then 1 else 0
  }

  // When the last written attempt on row k ended.
  ghost function LastTry(posts: seq<Post>, k: nat): int
  {
    if posts == [] then 0
    else
      var p := posts[|posts| - 1];
      if p.id == k && p.reply.db then p.reply.at else LastTry(posts[..|posts| - 1], k)
  }

  // Some attempt on row k was accepted, and that was written.
  ghost predicate Accepted(posts: seq<Post>, k: nat)
  {
    posts != [] &&
    var p := posts[|posts| - 1];
    Accepted(posts[..|posts| - 1], k) || (p.id == k && p.reply.ok && p.reply.db)
  }

  // A row tells its own story: it counts its written attempts, it is delivered
  // exactly if one of them was accepted, it is dead exactly if they exhausted
  // the window, and until then the next one waits out its backoff.
  ghost predicate Told(r: Row, window: int, tries: nat, last: int, accepted: bool)
  {
    && r.attempts == tries
    && (r.state == Delivered <==> accepted)
    && (r.state == Delivered ==> tries >= 1 && !Exhausted(window, tries - 1))
    && (r.state == Dead ==> IsLimit(window, tries))
    && (r.state == Pending ==> !Exhausted(window, tries))
    && (r.state == Pending && tries > 0 ==> r.nextAt == last + Backoff(tries))
  }

  ghost predicate RowTold(s: State, window: int, k: nat)
    requires k < |s.rows|
  {
    Told(s.rows[k], window, Tries(s.posts, k), LastTry(s.posts, k), Accepted(s.posts, k))
  }

  ghost predicate Untried(posts: seq<Post>, n: nat) { forall i | 0 <= i < |posts| :: posts[i].id < n }

  ghost predicate AllTold(s: State, window: int)
  {
    Untried(s.posts, |s.rows|) && forall k | 0 <= k < |s.rows| :: RowTold(s, window, k)
  }

  lemma {:induction false} NoTries(posts: seq<Post>, n: nat, k: nat)
    requires Untried(posts, n) && k >= n
    ensures Tries(posts, k) == 0 && !Accepted(posts, k)
    decreases |posts|
  {
    if posts != [] { NoTries(posts[..|posts| - 1], n, k); }
  }

  lemma SettleTells(r: Row, window: int, reply: Reply, tries: nat, last: int, accepted: bool)
    requires Told(r, window, tries, last, accepted) && r.state == Pending
    ensures Told(Settle(r, window, reply), window, if reply.db then tries + 1 else tries,
                 if reply.db then reply.at else last, accepted || (reply.ok && reply.db))
  {
  }

  // One attempt added to the history of other rows changes nothing for row k.
  lemma {:induction false} AttemptsTell(posts: seq<Post>, ids: seq<nat>, replies: seq<Reply>, n: nat, k: nat)
    requires n <= |ids| && n <= |replies| && Ascending(ids)
    ensures var after := posts + Attempts(ids, replies, n);
            && (k !in ids[..n] ==>
                  Tries(after, k) == Tries(posts, k) && LastTry(after, k) == LastTry(posts, k)
                  && (Accepted(after, k) <==> Accepted(posts, k)))
            && (forall i | 0 <= i < n && ids[i] == k ::
                  && Tries(after, k) == Tries(posts, k) + (if replies[i].db then 1 else 0)
                  && LastTry(after, k) == (if replies[i].db then replies[i].at else LastTry(posts, k))
                  && (Accepted(after, k) <==> Accepted(posts, k) || (replies[i].ok && replies[i].db)))
    decreases n
  {
    var after := posts + Attempts(ids, replies, n);
    if n == 0 {
      assert after == posts;
    } else {
      AttemptsTell(posts, ids, replies, n - 1, k);
      assert after[..|after| - 1] == posts + Attempts(ids, replies, n - 1);
      assert ids[..n] == ids[..n - 1] + [ids[n - 1]];
    }
  }

  lemma BatchTells(s: State, window: int, now: int, replies: seq<Reply>, k: nat)
    requires k < |s.rows| && RowTold(s, window, k)
    ensures |Do(s, window, Batch(now, replies)).rows| == |s.rows|
    ensures RowTold(Do(s, window, Batch(now, replies)), window, k)
  {
    DueFromShape(s.rows, now, 0);
    var ids := Due20(s.rows, now);
    var n := Shorter(|ids|, |replies|);
    ServedAt(s.rows, window, ids, replies, n, k);
    AttemptsTell(s.posts, ids, replies, n, k);
    if k in ids[..n] {
      var i :| 0 <= i < n && ids[i] == k;
      assert DueFrom(s.rows, now, 0)[i] == k;
      SettleTells(s.rows[k], window, replies[i], Tries(s.posts, k), LastTry(s.posts, k), Accepted(s.posts, k));
    }
  }

  lemma DoTells(s: State, window: int, a: Act)
    requires AllTold(s, window) && Legal(a)
    ensures AllTold(Do(s, window, a), window)
  {
    var t := Do(s, window, a);
    match a {
      case Enqueue(added) =>
        forall k | 0 <= k < |t.rows| ensures RowTold(t, window, k) {
          if k < |s.rows| {
            assert RowTold(s, window, k);
          } else {
            NoTries(s.posts, |s.rows|, k);
            assert t.rows[k] == added[k - |s.rows|];
          }
        }
      case Batch(now, replies) =>
        DueFromShape(s.rows, now, 0);
        forall k | 0 <= k < |t.rows| ensures RowTold(t, window, k) { BatchTells(s, window, now, replies, k); }
    }
  }

  // Main result: every row of every run tells its own story.
  lemma {:induction false} RunTells(s: State, window: int, acts: seq<Act>)
    requires AllTold(s, window) && Run(acts)
    ensures AllTold(After(s, window, acts), window)
    decreases |acts|
  {
    if acts != [] {
      RunTells(s, window, acts[..|acts| - 1]);
      assert Legal(acts[|acts| - 1]);
      DoTells(After(s, window, acts[..|acts| - 1]), window, acts[|acts| - 1]);
    }
  }

  // An always-failing row is given up after exactly the limit of written
  // attempts, all told having waited less than the window.
  lemma DeadAtTheLimit(window: int, acts: seq<Act>, k: nat, limit: nat)
    requires Run(acts) && k < |After(State([], []), window, acts).rows| && IsLimit(window, limit)
    ensures var s := After(State([], []), window, acts); var tries := Tries(s.posts, k);
            && tries <= limit
            && (s.rows[k].state == Dead <==> tries == limit && !Accepted(s.posts, k))
            && (s.rows[k].state == Pending <==> tries < limit && !Accepted(s.posts, k))
  {
    RunTells(State([], []), window, acts);
    var s := After(State([], []), window, acts);
    assert RowTold(s, window, k);
    var tries := Tries(s.posts, k);
    LimitDecides(window, limit, tries);
    if tries > 0 { LimitDecides(window, limit, tries - 1); }
  }

  // ----- settled rows -----

  lemma StillSettled(s: State, window: int, a: Act, k: nat)
    requires k < |s.rows| && s.rows[k].state != Pending
    ensures var t := Do(s, window, a);
            && k < |t.rows| && t.rows[k] == s.rows[k]
            && |s.posts| <= |t.posts| && t.posts[..|s.posts|] == s.posts
            && forall i | |s.posts| <= i < |t.posts| :: t.posts[i].id != k
  {
    match a {
      case Enqueue(added) =>
      case Batch(now, replies) =>
        DueFromShape(s.rows, now, 0);
        var ids := Due20(s.rows, now);
        var n := Shorter(|ids|, |replies|);
        forall i | 0 <= i < n ensures ids[i] != k { assert DueFrom(s.rows, now, 0)[i] == ids[i]; }
        ServedAt(s.rows, window, ids, replies, n, k);
    }
  }

  // A delivered or dead row is never posted again and never changes.
  lemma {:induction false} SettledForEver(s: State, window: int, acts: seq<Act>, k: nat)
    requires k < |s.rows| && s.rows[k].state != Pending
    ensures var t := After(s, window, acts);
            && k < |t.rows| && t.rows[k] == s.rows[k]
            && |s.posts| <= |t.posts| && t.posts[..|s.posts|] == s.posts
            && forall i | |s.posts| <= i < |t.posts| :: t.posts[i].id != k
    decreases |acts|
  {
    if acts != [] {
      var mid := After(s, window, acts[..|acts| - 1]);
      SettledForEver(s, window, acts[..|acts| - 1], k);
      StillSettled(mid, window, acts[|acts| - 1], k);
      var t := After(s, window, acts);
      assert t.posts[..|s.posts|] == t.posts[..|mid.posts|][..|s.posts|];
      forall i | |s.posts| <= i < |t.posts| ensures t.posts[i].id != k {
        if i < |mid.posts| { assert t.posts[..|mid.posts|][i] == mid.posts[i]; }
      }
    }
  }

  // A retry is never made before the backoff of the last attempt is over.
  lemma RetriesKeepTheirDistance(window: int, acts: seq<Act>, now: int, replies: seq<Reply>, k: nat)
    requires Run(acts)
    requires var s := After(State([], []), window, acts);
             k < |s.rows| && Tries(s.posts, k) > 0 && k in Due20(s.rows, now)
    ensures var s := After(State([], []), window, acts);
            now >= LastTry(s.posts, k) + Backoff(Tries(s.posts, k))
  {
    RunTells(State([], []), window, acts);
    var s := After(State([], []), window, acts);
    assert RowTold(s, window, k);
    DueFromShape(s.rows, now, 0);
    assert k in DueFrom(s.rows, now, 0);
  }

  // ----- draining at a fixed clock -----

  // From row i on, exactly the rows gone have stopped being due.
  ghost predicate Stopped(rows: seq<Row>, after: seq<Row>, now: int, i: nat, gone: seq<nat>)
  {
    |after| == |rows| && forall k | i <= k < |rows| :: Due(after[k], now) <==> Due(rows[k], now) && k !in gone
  }

  // If these are the first due rows, the rest remain, in order.
  lemma {:induction false} DueRest(rows: seq<Row>, after: seq<Row>, now: int, i: nat, gone: seq<nat>)
    requires Stopped(rows, after, now, i, gone) && gone <= DueFrom(rows, now, i)
    ensures DueFrom(after, now, i) == DueFrom(rows, now, i)[|gone|..]
    decreases |rows| - i
  {
    if i < |rows| {
      var rest := DueFrom(rows, now, i + 1);
      if !Due(rows[i], now) || gone == [] {
        DueRest(rows, after, now, i + 1, gone);
      } else {
        FirstGone(rows, after, now, i, gone);
        DueRest(rows, after, now, i + 1, gone[1..]);
        assert ([i] + rest)[|gone|..] == rest[|gone| - 1..];
      }
    }
  }

  lemma FirstGone(rows: seq<Row>, after: seq<Row>, now: int, i: nat, gone: seq<nat>)
    requires Stopped(rows, after, now, i, gone) && gone <= DueFrom(rows, now, i) && gone != []
    requires i < |rows| && Due(rows[i], now)
    ensures Stopped(rows, after, now, i + 1, gone[1..]) && gone[1..] <= DueFrom(rows, now, i + 1)
    ensures !Due(after[i], now)
  {
    assert gone[0] == DueFrom(rows, now, i)[0] == i;
    assert gone == [i] + gone[1..];
    assert DueFrom(rows, now, i)[1..] == DueFrom(rows, now, i + 1);
  }

  // A step in which every attempt is written and the clock does not run back.
  ghost predicate Full(a: Act, now: int)
  {
    && a.Batch? && a.now == now && |a.replies| >= BATCH
    && forall k | 0 <= k < |a.replies| :: a.replies[k].db && a.replies[k].at >= now
  }

  ghost function Ids(posts: seq<Post>): seq<nat> { seq(|posts|, k requires 0 <= k < |posts| => posts[k].id) }

  lemma AttemptIds(posts: seq<Post>, ids: seq<nat>, replies: seq<Reply>, n: nat)
    requires n <= |ids| && n <= |replies|
    ensures Ids(posts + Attempts(ids, replies, n)) == Ids(posts) + ids[..n]
  {
  }

  lemma NotDueAfterwards(r: Row, window: int, reply: Reply, now: int)
    requires reply.db && reply.at >= now && Due(r, now)
    ensures !Due(Settle(r, window, reply), now)
  {
  }

  lemma ServedRowsAreNotDue(rows: seq<Row>, window: int, replies: seq<Reply>, now: int, n: nat, k: nat)
    requires Full(Batch(now, replies), now) && k < |rows|
    requires n <= |DueFrom(rows, now, 0)| && n <= |replies| && Within(DueFrom(rows, now, 0), rows)
    ensures var due := DueFrom(rows, now, 0);
            Due(Served(rows, window, due, replies, n)[k], now) <==> Due(rows[k], now) && k !in due[..n]
  {
    DueFromShape(rows, now, 0);
    var due := DueFrom(rows, now, 0);
    ServedAt(rows, window, due, replies, n, k);
    if k in due[..n] {
      var i :| 0 <= i < n && due[i] == k;
      NotDueAfterwards(rows[k], window, replies[i], now);
    }
  }

  lemma {:induction false} ServedPrefix(rows: seq<Row>, window: int, ids: seq<nat>, replies: seq<Reply>, m: nat, n: nat)
    requires n <= m <= |ids| && n <= |replies| && Within(ids, rows)
    ensures Within(ids[..m], rows)
    ensures Served(rows, window, ids[..m], replies, n) == Served(rows, window, ids, replies, n)
    ensures Attempts(ids[..m], replies, n) == Attempts(ids, replies, n)
  {
    if n > 0 { ServedPrefix(rows, window, ids, replies, m, n - 1); }
  }

  // From s to t the first n due rows were posted, in order, and no other.
  ghost predicate Drains(s: State, t: State, now: int, n: nat)
  {
    var due := DueFrom(s.rows, now, 0);
    n <= |due| && DueFrom(t.rows, now, 0) == due[n..] && Ids(t.posts) == Ids(s.posts) + due[..n]
  }

  lemma DrainsOn(s: State, t: State, u: State, now: int, n: nat, m: nat)
    requires Drains(s, t, now, n) && Drains(t, u, now, m)
    ensures Drains(s, u, now, n + m)
  {
    var due := DueFrom(s.rows, now, 0);
    assert due[n..][m..] == due[n + m..];
    assert due[..n] + due[n..][..m] == due[..n + m];
  }

  // Each step takes the next twenty due rows off the list.
  lemma BatchDrains(s: State, window: int, a: Act, now: int)
    requires Full(a, now)
    ensures Drains(s, Do(s, window, a), now, Shorter(|DueFrom(s.rows, now, 0)|, BATCH))
  {
    DueFromShape(s.rows, now, 0);
    var rows, due, replies := s.rows, DueFrom(s.rows, now, 0), a.replies;
    var n := Shorter(|due|, BATCH);
    assert Due20(rows, now) == due[..n];
    ServedPrefix(rows, window, due, replies, n, n);
    AttemptIds(s.posts, due, replies, n);
    var after := Served(rows, window, due, replies, n);
    forall k | 0 <= k < |rows| ensures Due(after[k], now) <==> Due(rows[k], now) && k !in due[..n] {
      ServedRowsAreNotDue(rows, window, replies, now, n, k);
    }
    assert Stopped(rows, after, now, 0, due[..n]);
    DueRest(rows, after, now, 0, due[..n]);
  }

  lemma OneBatchMore(d: nat, c: nat)
    ensures Shorter(d, BATCH * c) + Shorter(d - Shorter(d, BATCH * c), BATCH) == Shorter(d, BATCH * (c + 1))
  {
  }

  lemma DrainsOneMore(s: State, mid: State, window: int, a: Act, now: int, c: nat)
    requires Full(a, now) && Drains(s, mid, now, Shorter(|DueFrom(s.rows, now, 0)|, BATCH * c))
    ensures Drains(s, Do(mid, window, a), now, Shorter(|DueFrom(s.rows, now, 0)|, BATCH * (c + 1)))
  {
    var d := |DueFrom(s.rows, now, 0)|;
    var n := Shorter(d, BATCH * c);
    BatchDrains(mid, window, a, now);
    DrainsOn(s, mid, Do(mid, window, a), now, n, Shorter(d - n, BATCH));
    OneBatchMore(d, c);
  }

  // Main result: with d rows due, c steps at that clock post exactly the first
  // 20 * c of them, each once and in order; so d/20 steps, rounded up, leave
  // none due, having posted each due row exactly once.
  lemma {:induction false} Drained(s: State, window: int, acts: seq<Act>, now: int)
    requires forall k | 0 <= k < |acts| :: Full(acts[k], now)
    ensures Drains(s, After(s, window, acts), now, Shorter(|DueFrom(s.rows, now, 0)|, 20 * |acts|))
    decreases |acts|
  {
    var d := |DueFrom(s.rows, now, 0)|;
    if acts == [] {
      assert Ids(s.posts) + DueFrom(s.rows, now, 0)[..0] == Ids(s.posts);
    } else {
      var front, last := acts[..|acts| - 1], acts[|acts| - 1];
      assert Full(last, now);
      Drained(s, window, front, now);
      DrainsOneMore(s, After(s, window, front), window, last, now, |front|);
    }
  }

  lemma DrainedEmpty(s: State, window: int, acts: seq<Act>, now: int)
    requires forall k | 0 <= k < |acts| :: Full(acts[k], now)
    requires 20 * |acts| >= |DueFrom(s.rows, now, 0)|
    ensures DueFrom(After(s, window, acts).rows, now, 0) == []
    ensures Ids(After(s, window, acts).posts) == Ids(s.posts) + DueFrom(s.rows, now, 0)
    ensures Ascending(DueFrom(s.rows, now, 0))
  {
    Drained(s, window, acts, now);
    DueFromShape(s.rows, now, 0);
  }
}
