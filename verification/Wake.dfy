// The wake protocol between the scheduling loop (backend/internal/executor) and
// the handlers that give it work (backend/internal/api, backend/internal/auth).
// Each read and write of the store, and each send on the one-slot channel, is
// one step.
module Wake {
  import opened Runtime

  // Where the scheduling loop is. Decided has read which queues hold queued
  // jobs; Picked has chosen a queue; Parked waits for the channel or a timer.
  datatype Loop = Top | Open | Decided(depths: set<string>) | Picked(queue: string) | Busy | Parked

  // A handler that has made its write and not yet called Wake.
  datatype Handler = Submitted(id: string) | Unpaused(queue: string) | Unblocked

  // queued: the queued jobs and their queues. configured is fixed.
  datatype State = State(
    loop: Loop, slot: bool, gate: Gate, queued: map<string, string>, paused: set<string>,
    configured: set<string>, pending: multiset<Handler>)

  datatype Action =
    // the loop
    | ReadState(now: int)
    | ReadDepths
    | Decide(winner: string)
    | Claim(id: string)
    | Finish
    | Requeue(id: string, queue: string)
    | Receive
    | Timeout
    // everybody else
    | Insert(id: string, queue: string)
    | Cancel(id: string)
    | Pause(queue: string)
    | Unpause(queue: string)
    | Block(gate: Gate)
    | Unblock
    | CallWake(h: Handler)

  ghost function DepthsOf(s: State): set<string> { set id | id in s.queued :: s.queued[id] }

  ghost function Candidates(s: State, depths: set<string>): set<string> { depths * s.configured - s.paused }

  ghost predicate Enabled(s: State, a: Action)
  {
    match a
    case ReadState(_) => s.loop.Top?
    case ReadDepths => s.loop.Open?
    case Decide(w) => s.loop.Decided? && (Candidates(s, s.loop.depths) != {} ==> w in Candidates(s, s.loop.depths))
    case Claim(id) => s.loop.Picked? && (s.loop.queue in DepthsOf(s) ==> id in s.queued && s.queued[id] == s.loop.queue)
    case Finish => s.loop.Busy?
    case Requeue(id, q) => s.loop.Busy? && id !in s.queued
    case Receive => s.loop.Parked? && s.slot
    case Timeout => s.loop.Parked?
    case Insert(id, _) => id !in s.queued
    case Cancel(id) => id in s.queued
    case Pause(_) => true
    case Unpause(_) => true
    case Block(g) => g.state != Ready
    case Unblock => true
    case CallWake(h) => h in s.pending
  }

  ghost function Do(s: State, a: Action): State
  {
    if !Enabled(s, a) then s else
    match a
    case ReadState(now) =>
      if s.gate.Runnable(now) then s.(loop := Open)
      else if s.gate.state == BlockedUsage && s.gate.until.Some? && s.gate.until.value - now <= 0 then s.(gate := READY)
      else s.(loop := Parked)
    case ReadDepths => s.(loop := if s.queued == map[] then Parked else Decided(DepthsOf(s)))
    case Decide(w) => s.(loop := if Candidates(s, s.loop.depths) == {} then Parked else Picked(w))
    case Claim(id) =>
      if s.loop.queue in DepthsOf(s) then s.(loop := Busy, queued := s.queued - {id}) else s.(loop := Top)
    case Finish => s.(loop := Top)
    case Requeue(id, q) => s.(loop := Top, queued := s.queued[id := q])
    case Receive => s.(loop := Top, slot := false)
    case Timeout => s.(loop := Top)
    case Insert(id, q) => s.(queued := s.queued[id := q], pending := s.pending + multiset{Submitted(id)})
    case Cancel(id) => s.(queued := s.queued - {id})
    case Pause(q) => s.(paused := s.paused + {q})
    case Unpause(q) => s.(paused := s.paused - {q}, pending := s.pending + multiset{Unpaused(q)})
    case Block(g) => s.(gate := g)
    case Unblock => s.(gate := READY, pending := s.pending + multiset{Unblocked})
    case CallWake(h) => s.(slot := true, pending := s.pending - multiset{h})
  }

  ghost predicate Run(s: State, run: seq<Action>)
    decreases |run|
  {
    run == [] || (Enabled(s, run[0]) && Run(Do(s, run[0]), run[1..]))
  }

  ghost function After(s: State, run: seq<Action>): State
    decreases |run|
  {
    if run == [] then s else After(Do(s, run[0]), run[1..])
  }

  // ----- the invariant -----

  // The job could be claimed now.
  ghost predicate Available(s: State, id: string)
  {
    s.gate.state == Ready && id in s.queued && s.queued[id] in s.configured && s.queued[id] !in s.paused
  }

  // The loop is still going to see it without being woken.
  predicate WillLook(loop: Loop, queue: string)
  {
    !loop.Parked? && (loop.Decided? ==> queue in loop.depths)
  }

  // A handler that made it available has still to call Wake.
  predicate Promised(s: State, id: string)
    requires id in s.queued
  {
    Submitted(id) in s.pending || Unpaused(s.queued[id]) in s.pending || Unblocked in s.pending
  }

  ghost predicate Attended(s: State, id: string)
  {
    Available(s, id) ==> WillLook(s.loop, s.queued[id]) || s.slot || Promised(s, id)
  }

  ghost predicate AllAttended(s: State) { forall id | id in s.queued :: Attended(s, id) }

  lemma LoopStepAttends(s: State, a: Action, id: string)
    requires AllAttended(s) && Enabled(s, a) && id in Do(s, a).queued
    requires || a.ReadState? || a.ReadDepths? || a.Decide? || a.Claim? || a.Finish? || a.Requeue?
             || a.Receive? || a.Timeout?
    ensures Attended(Do(s, a), id)
  {
    match a {
      case ReadState(now) => assert Attended(s, id);
      case ReadDepths => assert s.queued[id] in DepthsOf(s);
      case Decide(w) =>
        assert Attended(s, id);
        if Available(s, id) && s.queued[id] in s.loop.depths { assert s.queued[id] in Candidates(s, s.loop.depths); }
      case Claim(x) =>
      case Finish =>
      case Requeue(x, q) =>
      case Receive =>
      case Timeout =>
    }
  }

  lemma HandlerStepAttends(s: State, a: Action, id: string)
    requires AllAttended(s) && Enabled(s, a) && id in Do(s, a).queued
    requires a.Insert? || a.Cancel? || a.Pause? || a.Unpause? || a.Block? || a.Unblock? || a.CallWake?
    ensures Attended(Do(s, a), id)
  {
    assert id in s.queued ==> Attended(s, id);
    match a {
      case Insert(x, q) =>
      case Cancel(x) =>
      case Pause(q) =>
      case Unpause(q) =>
      case Block(g) =>
      case Unblock =>
      case CallWake(h) =>
    }
  }

  lemma StepKeepsAttended(s: State, a: Action)
    requires AllAttended(s) && Enabled(s, a)
    ensures AllAttended(Do(s, a))
  {
    forall id | id in Do(s, a).queued ensures Attended(Do(s, a), id) {
      if a.Insert? || a.Cancel? || a.Pause? || a.Unpause? || a.Block? || a.Unblock? || a.CallWake? {
        HandlerStepAttends(s, a, id);
      } else {
        LoopStepAttends(s, a, id);
      }
    }
  }

  lemma {:induction false} RunKeepsAttended(s: State, run: seq<Action>)
    requires AllAttended(s) && Run(s, run)
    ensures AllAttended(After(s, run))
    decreases |run|
  {
    if run != [] {
      StepKeepsAttended(s, run[0]);
      RunKeepsAttended(Do(s, run[0]), run[1..]);
    }
  }

  // The loop starts at its top, whatever the database holds.
  predicate Starting(s: State) { s.loop.Top? && s.pending == multiset{} }

  // Main result, for every interleaving: the loop is never parked with an empty
  // slot while a job could be claimed, unless a handler that made it so (its
  // submitter, or one that resumed its queue or the executor) has still to call
  // Wake.
  lemma NoLostWakeup(s: State, run: seq<Action>, id: string)
    requires Starting(s) && Run(s, run)
    requires var t := After(s, run); t.loop.Parked? && !t.slot && Available(t, id)
    ensures var t := After(s, run);
            Submitted(id) in t.pending || Unpaused(t.queued[id]) in t.pending || Unblocked in t.pending
  {
    assert AllAttended(s);
    RunKeepsAttended(s, run);
    assert Attended(After(s, run), id);
  }

  // ----- the submitter's Wake alone -----

  // The loop sleeps on a job that could be claimed and whose submitter's Wake
  // has returned.
  ghost predicate Missed(s: State, id: string)
  {
    s.loop.Parked? && !s.slot && Available(s, id) && Submitted(id) !in s.pending
  }

  // Between reading the depths and deciding, the loop has seen every job, or
  // will be woken for it.
  ghost predicate Knows(s: State)
  {
    s.loop.Decided? ==>
      forall id | id in s.queued :: s.queued[id] in s.loop.depths || s.slot || Submitted(id) in s.pending
  }

  lemma StepKeepsKnows(s: State, a: Action)
    requires Knows(s) && Enabled(s, a)
    ensures Knows(Do(s, a))
  {
    match a {
      case ReadState(now) =>
      case ReadDepths => forall id | id in s.queued ensures s.queued[id] in DepthsOf(s) {}
      case Decide(w) =>
      case Claim(x) =>
      case Finish =>
      case Requeue(x, q) =>
      case Receive =>
      case Timeout =>
      case Insert(x, q) =>
      case Cancel(x) =>
      case Pause(q) =>
      case Unpause(q) =>
      case Block(g) =>
      case Unblock =>
      case CallWake(h) =>
    }
  }

  // The step makes a job claimable that the loop is already asleep on: it
  // resumes the job's queue, or the executor.
  ghost predicate WakesTooLate(s: State, a: Action, id: string)
  {
    && s.loop.Parked? && !s.slot && id in s.queued && Submitted(id) !in s.pending && s.queued[id] in s.configured
    && ((a == Unpause(s.queued[id]) && s.gate.state == Ready) || (a == Unblock && s.queued[id] !in s.paused))
  }

  lemma DecideMissesNothing(s: State, w: string, id: string)
    requires Knows(s) && Enabled(s, Decide(w))
    ensures !Missed(Do(s, Decide(w)), id)
  {
    if id in s.queued && s.queued[id] in s.loop.depths && s.queued[id] in s.configured && s.queued[id] !in s.paused {
      assert s.queued[id] in Candidates(s, s.loop.depths);
    }
  }

  // A job comes to be missed exactly by such a step.
  lemma MissedArises(s: State, a: Action, id: string)
    requires Knows(s) && Enabled(s, a) && !Missed(s, id)
    ensures Missed(Do(s, a), id) <==> WakesTooLate(s, a, id)
  {
    match a {
      case ReadState(now) =>
      case ReadDepths =>
      case Decide(w) => DecideMissesNothing(s, w, id);
      case Claim(x) =>
      case Finish =>
      case Requeue(x, q) =>
      case Receive =>
      case Timeout =>
      case Insert(x, q) =>
      case Cancel(x) =>
      case Pause(q) =>
      case Unpause(q) =>
      case Block(g) =>
      case Unblock =>
      case CallWake(h) =>
    }
  }

  ghost predicate InTime(s: State, run: seq<Action>, id: string)
    decreases |run|
  {
    run == [] || (!WakesTooLate(s, run[0], id) && InTime(Do(s, run[0]), run[1..], id))
  }

  lemma {:induction false} StaysInSight(s: State, run: seq<Action>, id: string)
    requires Knows(s) && Run(s, run) && !Missed(s, id) && InTime(s, run, id)
    ensures !Missed(After(s, run), id)
    decreases |run|
  {
    if run != [] {
      MissedArises(s, run[0], id);
      StepKeepsKnows(s, run[0]);
      StaysInSight(Do(s, run[0]), run[1..], id);
    }
  }

  // In every run without such a step the submitter's own Wake is enough.
  lemma SubmittersWakeSuffices(s: State, run: seq<Action>, id: string)
    requires Starting(s) && Run(s, run) && InTime(s, run, id)
    ensures !Missed(After(s, run), id)
  {
    StaysInSight(s, run, id);
  }

  // With one it is not: the queue was paused when the loop looked, and the
  // operator who resumes it has yet to call Wake.
  lemma SubmittersWakeIsNotEnough() returns (s: State, run: seq<Action>)
    ensures Starting(s) && Run(s, run) && Missed(After(s, run), "j")
  {
    s := State(Top, false, READY, map["j" := "q"], {"q"}, {"q"}, multiset{});
    var s1, s2, s3 := s.(loop := Open), s.(loop := Decided({"q"})), s.(loop := Parked);
    assert DepthsOf(s) == {"q"} by { assert "j" in s.queued; }
    assert Do(s, ReadState(0)) == s1 && DepthsOf(s1) == {"q"} && Do(s1, ReadDepths) == s2;
    assert Candidates(s2, {"q"}) == {} && Do(s2, Decide("q")) == s3;
    run := Then(s3, Unpause("q"), []);
    run := Then(s2, Decide("q"), run);
    run := Then(s1, ReadDepths, run);
    run := Then(s, ReadState(0), run);
  }

  ghost predicate Misses(s: State, run: seq<Action>) { Run(s, run) && Missed(After(s, run), "j") }

  lemma Then(s: State, a: Action, rest: seq<Action>) returns (run: seq<Action>)
    requires Enabled(s, a) && Misses(Do(s, a), rest)
    ensures Misses(s, run)
  {
    run := [a] + rest;
    assert run[1..] == rest;
  }

  // A look at the store while a job is available, with nothing in between, ends
  // in the claim of an available job.
  lemma LookClaims(s: State, id: string, now: int) returns (winner: string, claimed: string)
    requires s.loop.Top? && Available(s, id)
    ensures claimed in s.queued && s.queued[claimed] == winner && Available(s, claimed)
    ensures var s1 := Do(s, ReadState(now));
            var s2 := Do(s1, ReadDepths);
            var s3 := Do(s2, Decide(winner));
            && Enabled(s, ReadState(now)) && Enabled(s1, ReadDepths)
            && Enabled(s2, Decide(winner)) && Enabled(s3, Claim(claimed))
            && Do(s3, Claim(claimed)) == s.(loop := Busy, queued := s.queued - {claimed})
  {
    assert s.queued[id] in DepthsOf(s);
    assert s.queued[id] in Candidates(s, DepthsOf(s));
    winner :| winner in Candidates(s, DepthsOf(s));
    claimed :| claimed in s.queued && s.queued[claimed] == winner;
    assert Do(Do(s, ReadState(now)), ReadDepths) == s.(loop := Decided(DepthsOf(s)));
  }

  // ----- every wake-up is paid for -----

  function Looks(run: seq<Action>): nat
  {
    if run == [] then 0 else (if run[0].Receive? then 1 else 0) + Looks(run[1..])
  }

  // The handlers that a run begins.
  function Begun(run: seq<Action>): nat
  {
    if run == [] then 0
    else (if run[0].Insert? || run[0].Unpause? || run[0].Unblock? then 1 else 0) + Begun(run[1..])
  }

  function Token(slot: bool): nat { if slot then 1 else 0 }

  lemma StepIsPaidFor(s: State, a: Action)
    requires Enabled(s, a)
    ensures Looks([a]) + Token(Do(s, a).slot) + |Do(s, a).pending| <= Begun([a]) + Token(s.slot) + |s.pending|
  {
    match a {
      case ReadState(now) =>
      case ReadDepths =>
      case Decide(w) =>
      case Claim(x) =>
      case Finish =>
      case Requeue(x, q) =>
      case Receive =>
      case Timeout =>
      case Insert(x, q) =>
      case Cancel(x) =>
      case Pause(q) =>
      case Unpause(q) =>
      case Block(g) =>
      case Unblock =>
      case CallWake(h) =>
    }
  }

  // In every run the loop is woken no more often than handlers have called
  // Wake: each handler calls once, and a call while the slot is full is lost in it.
  lemma {:induction false} WakesArePaidFor(s: State, run: seq<Action>)
    requires Run(s, run)
    ensures var t := After(s, run);
            Looks(run) + Token(t.slot) + |t.pending| <= Begun(run) + Token(s.slot) + |s.pending|
    decreases |run|
  {
    if run != [] {
      StepIsPaidFor(s, run[0]);
      assert [run[0]][1..] == [];
      assert Looks([run[0]]) + Looks(run[1..]) == Looks(run) && Begun([run[0]]) + Begun(run[1..]) == Begun(run);
      WakesArePaidFor(Do(s, run[0]), run[1..]);
    }
  }

  // ----- what is left alone -----

  // The loop looks at the queues only with an open gate.
  lemma LooksOnlyWhenOpen(s: State, now: int)
    requires s.loop.Top?
    ensures Do(s, ReadState(now)).loop.Open? <==>
              || s.gate.state == Ready
              || (s.gate.state == BlockedUsage && s.gate.until.Some? && now > s.gate.until.value)
    ensures Do(s, ReadState(now)).loop.Parked? <==>
              && s.gate.state != Ready
              && !(s.gate.state == BlockedUsage && s.gate.until.Some? && now >= s.gate.until.value)
  {
  }

  ghost predicate ClaimsFrom(s: State, a: Action, queue: string)
  {
    a.Claim? && s.loop.Picked? && s.loop.queue == queue && a.id in s.queued && s.queued[a.id] == queue
  }

  // How many jobs of a queue a run claims.
  ghost function ClaimsOf(s: State, run: seq<Action>, queue: string): nat
    decreases |run|
  {
    if run == [] then 0
    else (if ClaimsFrom(s, run[0], queue) then 1 else 0) + ClaimsOf(Do(s, run[0]), run[1..], queue)
  }

  lemma PausedStep(s: State, a: Action, queue: string)
    requires Enabled(s, a) && queue in s.paused && a != Unpause(queue)
    ensures queue in Do(s, a).paused
    ensures !(s.loop.Picked? && s.loop.queue == queue) ==>
              !ClaimsFrom(s, a, queue) && !(Do(s, a).loop.Picked? && Do(s, a).loop.queue == queue)
    ensures ClaimsFrom(s, a, queue) ==> !Do(s, a).loop.Picked?
  {
    match a {
      case ReadState(now) =>
      case ReadDepths =>
      case Decide(w) =>
      case Claim(x) =>
      case Finish =>
      case Requeue(x, q) =>
      case Receive =>
      case Timeout =>
      case Insert(x, q) =>
      case Cancel(x) =>
      case Pause(q) =>
      case Unpause(q) =>
      case Block(g) =>
      case Unblock =>
      case CallWake(h) =>
    }
  }

  lemma {:induction false} PausedRests(s: State, run: seq<Action>, queue: string)
    requires Run(s, run) && queue in s.paused && Unpause(queue) !in run
    ensures ClaimsOf(s, run, queue) <= if s.loop.Picked? && s.loop.queue == queue then 1 else 0
    decreases |run|
  {
    if run != [] {
      PausedStep(s, run[0], queue);
      assert forall a | a in run[1..] :: a in run;
      PausedRests(Do(s, run[0]), run[1..], queue);
    }
  }

  // From a pause of a queue until it is resumed at most one of its jobs is
  // claimed, however the steps interleave; and that one only if the loop had
  // picked the queue when it was paused.
  lemma PauseTakesEffect(s: State, run: seq<Action>, queue: string)
    requires Run(Do(s, Pause(queue)), run) && Unpause(queue) !in run
    ensures ClaimsOf(Do(s, Pause(queue)), run, queue) <= if s.loop.Picked? && s.loop.queue == queue then 1 else 0
  {
    PausedRests(Do(s, Pause(queue)), run, queue);
  }
}
