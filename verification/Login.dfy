// backend/internal/auth/login.go: login attempts, composed with the claude
// lock each of them holds. Requests, the expiry timers and everything else that
// uses the lock interleave step by step.
module Login {
  import opened Jobs
  import L = ClaudeLock

  // The life of an attempt.
  //   Open     unfinished
  //   Closing  finished is set; whoever set it is stopping the process
  //   Freeing  that thread has called the lock's release function
  //   Closed   the manager has also let go of it
  datatype Stage = Open | Closing | Freeing | Closed

  // An attempt is named after the lock call that it made. current is the
  // manager's attempt; registered says which attempts StartLogin has stored there.
  datatype State = State(lock: L.State, attempts: map<nat, Stage>, current: Option<nat>, registered: set<nat>)

  datatype Action =
    | Lock(step: L.Action)
    | Create(t: nat)
    | Finish(t: nat)
    | Free(t: nat)
    | Unregister(t: nat)
    | Register(t: nat)

  predicate At(s: State, t: nat, stage: Stage) { t in s.attempts && s.attempts[t] == stage }

  // Only the thread that finished an attempt calls the release function of an
  // attempt; Finish is what SubmitCode, CancelLogin, a missing URL, a stale
  // attempt and the expiry timer all call, at any time.
  predicate Enabled(s: State, a: Action)
  {
    match a
    case Lock(step) => L.Enabled(s.lock, step) && !(step.Release? && step.t in s.attempts)
    case Create(t) => L.In(s.lock, t, {L.Holding}) && s.lock.calls[t].who == "login" && t !in s.attempts
    case Finish(t) => t in s.attempts
    case Free(t) => At(s, t, Closing)
    case Unregister(t) => At(s, t, Freeing) && L.In(s.lock, t, {L.Released})
    case Register(t) => t in s.attempts && t !in s.registered
  }

  function Do(s: State, a: Action): State
  {
    if !Enabled(s, a) then s else
    match a
    case Lock(step) => s.(lock := L.Do(s.lock, step))
    case Create(t) => s.(attempts := s.attempts[t := Open])
    case Finish(t) => if s.attempts[t] == Open then s.(attempts := s.attempts[t := Closing]) else s
    case Free(t) => s.(lock := L.Do(s.lock, L.Release(t)), attempts := s.attempts[t := Freeing])
    case Unregister(t) =>
      s.(attempts := s.attempts[t := Closed], current := if s.current == Some(t) then None else s.current)
    case Register(t) => s.(current := Some(t), registered := s.registered + {t})
  }

  const IDLE := State(L.FREE, map[], None, {})

  predicate Run(s: State, run: seq<Action>)
    decreases |run|
  {
    run == [] || (Enabled(s, run[0]) && Run(Do(s, run[0]), run[1..]))
  }

  function After(s: State, run: seq<Action>): State
    decreases |run|
  {
    if run == [] then s else After(Do(s, run[0]), run[1..])
  }

  // ----- attempts and their lock -----

  // Where an attempt's lock call is, at each stage.
  predicate Backed(lock: L.State, t: nat, stage: Stage)
  {
    && t in lock.calls
    && lock.calls[t].who == "login"
    && match stage
       case Open => lock.calls[t].phase.Holding?
       case Closing => lock.calls[t].phase.Holding?
       case Freeing => lock.calls[t].phase in {L.Clearing, L.Cleared, L.Released}
       case Closed => lock.calls[t].phase.Released?
  }

  ghost predicate AllBacked(s: State) { forall t | t in s.attempts :: Backed(s.lock, t, s.attempts[t]) }

  ghost predicate Sound(s: State)
  {
    L.Sound(s.lock) && AllBacked(s) && (s.current.Some? ==> s.current.value in s.attempts)
  }

  lemma LockStepKeepsBacked(s: State, step: L.Action, t: nat)
    requires L.Enabled(s.lock, step) && !(step.Release? && step.t in s.attempts)
    requires t in s.attempts && Backed(s.lock, t, s.attempts[t])
    ensures Backed(L.Do(s.lock, step), t, s.attempts[t])
  {
    match step {
      case Begin(u, name) =>
      case Win(u) =>
      case Take(u) =>
      case Abandon(u) =>
      case HandBack(u) =>
      case Try(u, name) =>
      case Record(u) =>
      case Release(u) =>
      case Clear(u) =>
      case Unlock(u) =>
      case ReleaseAgain(u) =>
    }
  }

  lemma StepKeepsSound(s: State, a: Action)
    requires Sound(s) && Enabled(s, a)
    ensures Sound(Do(s, a))
  {
    var t := Do(s, a);
    match a {
      case Lock(step) =>
        L.StepKeepsSound(s.lock, step);
        forall x | x in t.attempts ensures Backed(t.lock, x, t.attempts[x]) {
          assert Backed(s.lock, x, s.attempts[x]);
          LockStepKeepsBacked(s, step, x);
        }
      case Create(u) =>
        forall x | x in t.attempts ensures Backed(t.lock, x, t.attempts[x]) {
          if x != u { assert Backed(s.lock, x, s.attempts[x]); }
        }
      case Finish(u) =>
        forall x | x in t.attempts ensures Backed(t.lock, x, t.attempts[x]) { assert Backed(s.lock, x, s.attempts[x]); }
      case Free(u) =>
        assert Backed(s.lock, u, s.attempts[u]);
        L.StepKeepsSound(s.lock, L.Release(u));
        forall x | x in t.attempts ensures Backed(t.lock, x, t.attempts[x]) { assert Backed(s.lock, x, s.attempts[x]); }
      case Unregister(u) =>
        forall x | x in t.attempts ensures Backed(t.lock, x, t.attempts[x]) { assert Backed(s.lock, x, s.attempts[x]); }
      case Register(u) =>
        forall x | x in t.attempts ensures Backed(t.lock, x, t.attempts[x]) { assert Backed(s.lock, x, s.attempts[x]); }
    }
  }

  lemma {:induction false} RunKeepsSound(s: State, run: seq<Action>)
    requires Sound(s) && Run(s, run)
    ensures Sound(After(s, run))
    decreases |run|
  {
    if run != [] {
      StepKeepsSound(s, run[0]);
      RunKeepsSound(Do(s, run[0]), run[1..]);
    }
  }

  // Main result: however StartLogin races itself and every request and timer
  // races it, at most one attempt is unfinished, and until its teardown frees
  // the lock nobody else has it.
  lemma AtMostOneUnfinished(run: seq<Action>, t: nat, u: nat)
    requires Run(IDLE, run) && (At(After(IDLE, run), t, Open) || At(After(IDLE, run), t, Closing))
    ensures At(After(IDLE, run), u, Open) || At(After(IDLE, run), u, Closing) ==> u == t
    ensures After(IDLE, run).lock.locked && After(IDLE, run).lock.who == "login"
    ensures L.Owner(After(IDLE, run).lock.calls, u) ==> u == t
  {
    assert L.Sound(IDLE.lock);
    RunKeepsSound(IDLE, run);
    var s := After(IDLE, run);
    assert Backed(s.lock, t, s.attempts[t]) && L.Owner(s.lock.calls, t);
    if At(s, u, Open) || At(s, u, Closing) { assert Backed(s.lock, u, s.attempts[u]) && L.Owner(s.lock.calls, u); }
  }

  // ----- the release runs once -----

  function Releases(run: seq<Action>, t: nat): nat
  {
    if run == [] then 0
    else (if run[0] == Free(t) || run[0] == Lock(L.Release(t)) then 1 else 0) + Releases(run[1..], t)
  }

  // The release function of a call is still to be called.
  predicate Unreleased(s: State, t: nat)
  {
    t !in s.lock.calls || s.lock.calls[t].phase in {L.Waiting, L.Won, L.Abandoned, L.Returning, L.Got, L.Holding}
  }

  predicate IsRelease(a: Action, t: nat) { a == Free(t) || a == Lock(L.Release(t)) }

  lemma ReleaseSpends(s: State, a: Action, t: nat)
    requires Sound(s) && Enabled(s, a)
    ensures IsRelease(a, t) ==> Unreleased(s, t) && !Unreleased(Do(s, a), t)
    ensures !Unreleased(s, t) ==> !Unreleased(Do(s, a), t)
  {
    match a {
      case Lock(step) =>
        match step {
          case Begin(u, name) =>
          case Win(u) =>
          case Take(u) =>
          case Abandon(u) =>
          case HandBack(u) =>
          case Try(u, name) =>
          case Record(u) =>
          case Release(u) =>
          case Clear(u) =>
          case Unlock(u) =>
          case ReleaseAgain(u) =>
        }
      case Create(u) =>
      case Finish(u) =>
      case Free(u) => assert Backed(s.lock, u, s.attempts[u]);
      case Unregister(u) =>
      case Register(u) =>
    }
  }

  lemma {:induction false} ReleasesAtMost(s: State, run: seq<Action>, t: nat)
    requires Sound(s) && Run(s, run)
    ensures Releases(run, t) <= if Unreleased(s, t) then 1 else 0
    decreases |run|
  {
    if run != [] {
      ReleaseSpends(s, run[0], t);
      StepKeepsSound(s, run[0]);
      ReleasesAtMost(Do(s, run[0]), run[1..], t);
    }
  }

  lemma ReleasedAtMostOnce(run: seq<Action>, t: nat)
    requires Run(IDLE, run)
    ensures Releases(run, t) <= 1
  {
    assert L.Sound(IDLE.lock);
    ReleasesAtMost(IDLE, run, t);
  }

  // An attempt is finished exactly when some thread has claimed its release,
  // and then it never becomes unfinished again.
  lemma FinishedForEver(s: State, a: Action, t: nat)
    requires Enabled(s, a) && t in s.attempts && s.attempts[t] != Open
    ensures t in Do(s, a).attempts && Do(s, a).attempts[t] != Open
    ensures a == Finish(t) ==> Do(s, a) == s
  {
    match a {
      case Lock(step) =>
      case Create(u) =>
      case Finish(u) =>
      case Free(u) =>
      case Unregister(u) =>
      case Register(u) =>
    }
  }

  // The steps an attempt still has before it.
  function Left(s: State, t: nat): nat
  {
    if t !in s.attempts || t !in s.lock.calls then 0
    else
      match s.attempts[t]
      case Open => 5
      case Closing => 4
      case Freeing =>
        if s.lock.calls[t].phase.Clearing? then 3 else if s.lock.calls[t].phase.Cleared? then 2 else 1
      case Closed => 0
  }

  // Whatever an attempt's stage, its teardown has a next step, which brings it
  // nearer to its end.
  lemma TeardownProceeds(s: State, t: nat) returns (a: Action)
    requires Sound(s) && t in s.attempts && s.attempts[t] != Closed
    ensures Enabled(s, a) && Left(Do(s, a), t) < Left(s, t)
    ensures a in {Finish(t), Free(t), Lock(L.Clear(t)), Lock(L.Unlock(t)), Unregister(t)}
  {
    assert Backed(s.lock, t, s.attempts[t]);
    match s.attempts[t] {
      case Open => a := Finish(t); assert Do(s, a).attempts[t] == Closing;
      case Closing => a := Free(t); assert Do(s, a).attempts[t] == Freeing;
      case Freeing =>
        if s.lock.calls[t].phase.Clearing? {
          a := Lock(L.Clear(t));
          assert Do(s, a).lock.calls[t].phase.Cleared?;
        } else if s.lock.calls[t].phase.Cleared? {
          a := Lock(L.Unlock(t));
          assert Do(s, a).lock.calls[t].phase.Released?;
        } else {
          a := Unregister(t);
          assert Do(s, a).attempts[t] == Closed;
        }
    }
  }

  // And no step of anybody takes it further away.
  lemma NothingSetsBack(s: State, a: Action, t: nat)
    requires Sound(s) && Enabled(s, a) && t in s.attempts
    ensures t in Do(s, a).attempts && Left(Do(s, a), t) <= Left(s, t)
  {
    assert Backed(s.lock, t, s.attempts[t]);
    match a {
      case Lock(step) =>
        match step {
          case Begin(u, name) =>
          case Win(u) =>
          case Take(u) =>
          case Abandon(u) =>
          case HandBack(u) =>
          case Try(u, name) =>
          case Record(u) =>
          case Release(u) =>
          case Clear(u) =>
          case Unlock(u) =>
          case ReleaseAgain(u) =>
        }
      case Create(u) =>
      case Finish(u) =>
      case Free(u) =>
      case Unregister(u) =>
      case Register(u) =>
    }
  }

  // The end of a teardown, done as an uninterrupted run of its own steps.
  lemma {:induction false} TeardownEnds(s: State, t: nat) returns (run: seq<Action>)
    requires Sound(s) && t in s.attempts
    ensures Run(s, run) && |run| <= Left(s, t)
    ensures t in After(s, run).attempts && After(s, run).attempts[t] == Closed
    decreases Left(s, t)
  {
    if s.attempts[t] == Closed {
      run := [];
    } else {
      var a := TeardownProceeds(s, t);
      StepKeepsSound(s, a);
      NothingSetsBack(s, a, t);
      var rest := TeardownEnds(Do(s, a), t);
      run := [a] + rest;
      assert run[1..] == rest;
    }
  }

  // ----- the manager's current attempt -----

  // The current attempt is over and done with: the keep-alive
  // believes for ever that a login is in progress.
  predicate Stale(s: State) { s.current.Some? && At(s, s.current.value, Closed) }

  // Nothing but storing another attempt gets rid of a stale one.
  lemma StaleStays(s: State, a: Action)
    requires Stale(s) && Enabled(s, a) && !a.Register?
    ensures Stale(Do(s, a)) && Do(s, a).current == s.current
  {
    match a {
      case Lock(step) =>
      case Create(u) =>
      case Finish(u) =>
      case Free(u) =>
      case Unregister(u) =>
    }
  }

  // It comes about exactly when StartLogin stores an attempt whose teardown is
  // already over.
  lemma StaleArises(s: State, a: Action)
    requires Sound(s) && Enabled(s, a) && !Stale(s)
    ensures Stale(Do(s, a)) <==> a.Register? && At(s, a.t, Closed)
  {
    match a {
      case Lock(step) =>
      case Create(u) =>
      case Finish(u) =>
      case Free(u) =>
      case Unregister(u) =>
      case Register(u) =>
    }
  }

  // Every attempt that StartLogin stores is still to be torn down.
  ghost predicate InTime(s: State, run: seq<Action>)
    decreases |run|
  {
    run == [] || (!(run[0].Register? && At(s, run[0].t, Closed)) && InTime(Do(s, run[0]), run[1..]))
  }

  lemma {:induction false} StaysFresh(s: State, run: seq<Action>)
    requires Sound(s) && !Stale(s) && Run(s, run) && InTime(s, run)
    ensures !Stale(After(s, run))
    decreases |run|
  {
    if run != [] {
      StaleArises(s, run[0]);
      StepKeepsSound(s, run[0]);
      StaysFresh(Do(s, run[0]), run[1..]);
    }
  }

  // So a run in which every attempt is stored before its teardown is over never
  // gets there.
  lemma NeverStale(run: seq<Action>)
    requires Run(IDLE, run) && InTime(IDLE, run)
    ensures !Stale(After(IDLE, run))
  {
    StaysFresh(IDLE, run);
  }

  ghost predicate GoesStale(s: State, run: seq<Action>)
  {
    Run(s, run) && Stale(After(s, run)) && !After(s, run).lock.locked
  }

  lemma Then(s: State, a: Action, rest: seq<Action>) returns (run: seq<Action>)
    requires Enabled(s, a) && GoesStale(Do(s, a), rest)
    ensures GoesStale(s, run)
  {
    run := [a] + rest;
    assert run[1..] == rest;
  }

  // With one lock call, "login", of thread 0.
  function Scene(locked: bool, who: string, phase: L.Phase, attempts: map<nat, Stage>): State
  {
    State(L.State(locked, who, map[0 := L.Call("login", phase)]), attempts, None, {})
  }

  lemma RegisteredLast(s: State) returns (run: seq<Action>)
    requires s == Scene(false, "", L.Released, map[0 := Freeing])
    ensures GoesStale(s, run)
  {
    var s1 := Scene(false, "", L.Released, map[0 := Closed]);
    var s2 := s1.(current := Some(0), registered := {0});
    assert Do(s1, Register(0)) == s2;
    assert GoesStale(s2, []);
    run := Then(s1, Register(0), []);
    assert Do(s, Unregister(0)) == s1;
    run := Then(s, Unregister(0), run);
  }

  lemma TornDownThenRegistered(s: State) returns (run: seq<Action>)
    requires s == Scene(true, "login", L.Clearing, map[0 := Freeing])
    ensures GoesStale(s, run)
  {
    var s1, s2 := Scene(true, "", L.Cleared, map[0 := Freeing]), Scene(false, "", L.Released, map[0 := Freeing]);
    run := RegisteredLast(s2);
    assert Do(s1, Lock(L.Unlock(0))) == s2;
    run := Then(s1, Lock(L.Unlock(0)), run);
    assert Do(s, Lock(L.Clear(0))) == s1;
    run := Then(s, Lock(L.Clear(0)), run);
  }

  lemma ExpiresWhileStarting(s: State) returns (run: seq<Action>)
    requires s == Scene(true, "login", L.Holding, map[])
    ensures GoesStale(s, run)
  {
    var s1, s2 := Scene(true, "login", L.Holding, map[0 := Open]), Scene(true, "login", L.Holding, map[0 := Closing]);
    var s3 := Scene(true, "login", L.Clearing, map[0 := Freeing]);
    run := TornDownThenRegistered(s3);
    assert Do(s2, Free(0)) == s3;
    run := Then(s2, Free(0), run);
    assert Do(s1, Finish(0)) == s2;
    run := Then(s1, Finish(0), run);
    assert Do(s, Create(0)) == s1;
    run := Then(s, Create(0), run);
  }

  // A run in which it does: the expiry timer finishes the attempt after the URL
  // has been read and before StartLogin stores the attempt.
  lemma LateRegistrationIsStale() returns (run: seq<Action>)
    ensures Run(IDLE, run) && Stale(After(IDLE, run)) && !After(IDLE, run).lock.locked
  {
    var s1, s2 := Scene(false, "", L.Waiting, map[]), Scene(true, "", L.Won, map[]);
    var s3, s4 := Scene(true, "", L.Got, map[]), Scene(true, "login", L.Holding, map[]);
    run := ExpiresWhileStarting(s4);
    assert Do(s3, Lock(L.Record(0))) == s4;
    run := Then(s3, Lock(L.Record(0)), run);
    assert Do(s2, Lock(L.Take(0))) == s3;
    run := Then(s2, Lock(L.Take(0)), run);
    assert Do(s1, Lock(L.Win(0))) == s2;
    run := Then(s1, Lock(L.Win(0)), run);
    assert Do(IDLE, Lock(L.Begin(0, "login"))) == s1;
    run := Then(IDLE, Lock(L.Begin(0, "login")), run);
  }
}
