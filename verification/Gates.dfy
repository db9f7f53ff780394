// The credential state, kept in memory, and the executor's gate, kept in the
// database: backend/internal/auth/manager.go, backend/internal/api/queues.go and
// the executor's block and step. Each operation of the manager and of the
// executor is one step; resuming is two, as the handler reads and then writes.
module Gates {
  import opened Jobs
  import opened Runtime

  datatype Credential = Unknown | Good | Expired

  // History.
  datatype Entry = Required | Restored | OkSeen | UsageNotice | Claimed(now: int) | Accepted | Started

  // resumes counts the resume handlers between their read and their write.
  datatype State = State(cred: Credential, gate: Gate, resumes: nat, log: seq<Entry>)

  // db says whether the operation's write to executor_state succeeds.
  datatype Op =
    | ProbeOk
    | Expire(db: bool)
    | Restore(read: bool, db: bool)
    | Pause(db: bool)
    | ResumeRead
    | ResumeWrite(db: bool)
    | Usage(resetAt: Option<int>, now: int, db: bool)
    | Schedule(now: int, db: bool)
    | Submit
    | Restart

  const HOUR := 3_600_000

  // observeExpired: one auth.required per incident.
  function Observed(s: State, db: bool): State
  {
    if s.cred == Expired then s
    else s.(cred := Expired, log := s.log + [Required],
            gate := if s.gate.state == BlockedAuth || !db then s.gate else Gate(BlockedAuth, None))
  }

  // transitionToOK
  function Passed(s: State, read: bool, db: bool): State
  {
    var seen := s.(cred := Good, log := s.log + [OkSeen]);
    if !read || (s.cred != Expired && s.gate.state != BlockedAuth) then seen
    else if s.gate.state != BlockedAuth then seen.(log := seen.log + [Restored])
    else if !db then seen
    else seen.(gate := READY, log := seen.log + [Restored])
  }

  // block, for a usage limit: an hour if the reset time is not known.
  function UsageGate(resetAt: Option<int>, now: int): Gate
  {
    Gate(BlockedUsage, if resetAt.Some? then resetAt else Some(now + HOUR))
  }

  // The scheduling step up to the claim, some unpaused queue having work.
  function Scheduled(s: State, now: int, db: bool): State
  {
    if s.gate.Runnable(now) then s.(log := s.log + [Claimed(now)])
    else if s.gate.state == BlockedUsage && s.gate.until.Some? && s.gate.until.value - now <= 0 && db then
      s.(gate := READY)
    else s
  }

  function Do(s: State, op: Op): State
  {
    match op
    case ProbeOk => s.(cred := Good, log := s.log + [OkSeen])
    case Expire(db) => Observed(s, db)
    case Restore(read, db) => Passed(s, read, db)
    case Pause(db) => if db then s.(gate := Gate(Paused, None)) else s
    case ResumeRead => if s.gate.state == BlockedAuth then s else s.(resumes := s.resumes + 1)
    case ResumeWrite(db) =>
      if s.resumes == 0 then s
      else s.(resumes := s.resumes - 1, gate := if db then READY else s.gate)
    case Usage(resetAt, now, db) =>
      if !db then s
      else s.(gate := UsageGate(resetAt, now),
              log := s.log + if s.gate.state == BlockedUsage then [] else [UsageNotice])
    case Schedule(now, db) => Scheduled(s, now, db)
    case Submit => s.(log := s.log + [Accepted])
    case Restart => State(Unknown, s.gate, 0, s.log + [Started])
  }

  const INITIAL := State(Unknown, READY, 0, [])

  function After(s: State, run: seq<Op>): State
    decreases |run|
  {
    if run == [] then s else After(Do(s, run[0]), run[1..])
  }

  // ----- the gate is shut while the credential is known to have expired -----

  predicate Guarded(s: State) { s.cred == Expired ==> s.gate.state == BlockedAuth }

  // The operations that write over blocked_auth, or fail to write it.
  predicate Breaks(s: State, op: Op)
  {
    match op
    case Expire(db) => s.cred != Expired && s.gate.state != BlockedAuth && !db
    case Pause(db) => s.cred == Expired && db
    case Usage(_, _, db) => s.cred == Expired && db
    case ResumeWrite(db) => s.cred == Expired && db && s.resumes > 0
    case _ => false
  }

  // Exactly these operations leave the gate unguarded.
  lemma GuardBreaks(s: State, op: Op)
    requires Guarded(s)
    ensures Guarded(Do(s, op)) <==> !Breaks(s, op)
  {
    match op {
      case ProbeOk =>
      case Expire(db) =>
      case Restore(read, db) =>
      case Pause(db) =>
      case ResumeRead =>
      case ResumeWrite(db) =>
      case Usage(resetAt, now, db) =>
      case Schedule(now, db) =>
      case Submit =>
      case Restart =>
    }
  }

  predicate Unbroken(s: State, run: seq<Op>)
    decreases |run|
  {
    run == [] || (!Breaks(s, run[0]) && Unbroken(Do(s, run[0]), run[1..]))
  }

  lemma {:induction false} RunKeepsGuard(s: State, run: seq<Op>)
    requires Guarded(s) && Unbroken(s, run)
    ensures Guarded(After(s, run))
    decreases |run|
  {
    if run != [] {
      GuardBreaks(s, run[0]);
      RunKeepsGuard(Do(s, run[0]), run[1..]);
    }
  }

  // Gate safety: in such a run nothing is claimed while the credential is known
  // to have expired.
  lemma NoClaimWhileExpired(run: seq<Op>, now: int, db: bool)
    requires Unbroken(INITIAL, run) && After(INITIAL, run).cred == Expired
    ensures Do(After(INITIAL, run), Schedule(now, db)) == After(INITIAL, run)
  {
    RunKeepsGuard(INITIAL, run);
  }

  // Otherwise something can be: an operator pauses and resumes.
  lemma PauseAndResumeOpenTheGate(s: State, now: int)
    requires s.cred != Expired && s.resumes == 0
    ensures var t := Do(Do(Do(Do(s, Expire(true)), Pause(true)), ResumeRead), ResumeWrite(true));
            t.cred == Expired && Do(t, Schedule(now, true)).log == t.log + [Claimed(now)]
  {
  }

  lemma Onward(s: State, op: Op, rest: seq<Op>)
    ensures After(s, [op] + rest) == After(Do(s, op), rest)
  {
    assert ([op] + rest)[1..] == rest;
  }

  // ----- from the block until it is lifted -----

  predicate Lifts(s: State, op: Op)
  {
    match op
    case Restore(read, db) => read && db
    case Pause(db) => db
    case Usage(_, _, db) => db
    case ResumeWrite(db) => db && s.resumes > 0
    case _ => false
  }

  // Exactly these operations end an auth block; a restart does not.
  lemma BlockEnds(s: State, op: Op)
    requires s.gate.state == BlockedAuth
    ensures Do(s, op).gate != s.gate <==> Lifts(s, op)
    ensures !Lifts(s, op) ==> |s.log| <= |Do(s, op).log| && Do(s, op).log[..|s.log|] == s.log
    ensures !Lifts(s, op) ==> forall i | |s.log| <= i < |Do(s, op).log| :: !Do(s, op).log[i].Claimed?
    ensures op == Submit ==> Do(s, op).log == s.log + [Accepted]
  {
    match op {
      case ProbeOk =>
      case Expire(db) =>
      case Restore(read, db) =>
      case Pause(db) =>
      case ResumeRead =>
      case ResumeWrite(db) =>
      case Usage(resetAt, now, db) =>
      case Schedule(now, db) =>
      case Submit =>
      case Restart =>
    }
  }

  predicate Unlifted(s: State, run: seq<Op>)
    decreases |run|
  {
    run == [] || (!Lifts(s, run[0]) && Unlifted(Do(s, run[0]), run[1..]))
  }

  function Submissions(run: seq<Op>): nat
  {
    if run == [] then 0 else (if run[0] == Submit then 1 else 0) + Submissions(run[1..])
  }

  function Acceptances(log: seq<Entry>): nat
  {
    if log == [] then 0
    else Acceptances(log[..|log| - 1]) + if log[|log| - 1] == Accepted then 1 else 0
  }

  lemma OneAcceptance(s: State, op: Op)
    requires s.gate.state == BlockedAuth && !Lifts(s, op)
    ensures Acceptances(Do(s, op).log) == Acceptances(s.log) + if op == Submit then 1 else 0
  {
    var t := Do(s, op);
    assert |t.log| == |s.log| + 1 ==> t.log[..|t.log| - 1] == s.log;
    match op {
      case ProbeOk =>
      case Expire(db) =>
      case Restore(read, db) =>
      case Pause(db) =>
      case ResumeRead =>
      case ResumeWrite(db) =>
      case Usage(resetAt, now, db) =>
      case Schedule(now, db) =>
      case Submit =>
      case Restart =>
    }
  }

  // From the block until it is lifted nothing is claimed, and every submission
  // is accepted, through any number of restarts.
  lemma {:induction false} BlockedStretch(s: State, run: seq<Op>)
    requires s.gate.state == BlockedAuth && Unlifted(s, run)
    ensures var t := After(s, run);
            && t.gate == s.gate
            && |s.log| <= |t.log| && t.log[..|s.log|] == s.log
            && (forall i | |s.log| <= i < |t.log| :: !t.log[i].Claimed?)
            && Acceptances(t.log) == Acceptances(s.log) + Submissions(run)
    decreases |run|
  {
    if run != [] {
      var mid, t := Do(s, run[0]), After(s, run);
      BlockEnds(s, run[0]);
      OneAcceptance(s, run[0]);
      BlockedStretch(mid, run[1..]);
      assert t.log[..|s.log|] == t.log[..|mid.log|][..|s.log|];
      forall i | |s.log| <= i < |t.log| ensures !t.log[i].Claimed? {
        if i < |mid.log| { assert t.log[..|mid.log|][i] == mid.log[i]; }
      }
    }
  }

  // ----- from a pause or a usage block until the gate opens -----

  // Exactly a ready gate, and a usage block past its reset time, let a job be
  // claimed; a usage block is lifted exactly at its reset time.
  lemma ClaimsExactly(s: State, now: int, db: bool)
    ensures Do(s, Schedule(now, db)).log == s.log + [Claimed(now)] <==>
              || s.gate.state == Ready
              || (s.gate.state == BlockedUsage && s.gate.until.Some? && now > s.gate.until.value)
    ensures Do(s, Schedule(now, db)).gate ==
              if s.gate == Gate(BlockedUsage, Some(now)) && db then Gate(Ready, None) else s.gate
  {
  }

  // The operations that write the gate, and a look at a usage block whose time
  // is up.
  predicate Touches(s: State, op: Op)
  {
    match op
    case Expire(db) => db && s.cred != Expired && s.gate.state != BlockedAuth
    case Restore(read, db) => read && db && s.gate.state == BlockedAuth
    case Pause(db) => db
    case Usage(_, _, db) => db
    case ResumeWrite(db) => db && s.resumes > 0
    case Schedule(now, _) => s.gate.state == BlockedUsage && s.gate.until.Some? && s.gate.until.value <= now
    case _ => false
  }

  predicate Untouched(s: State, run: seq<Op>)
    decreases |run|
  {
    run == [] || (!Touches(s, run[0]) && Untouched(Do(s, run[0]), run[1..]))
  }

  lemma StaysShut(s: State, op: Op)
    requires s.gate.state != Ready && !Touches(s, op)
    ensures Do(s, op).gate == s.gate
    ensures |s.log| <= |Do(s, op).log| && Do(s, op).log[..|s.log|] == s.log
    ensures forall i | |s.log| <= i < |Do(s, op).log| :: !Do(s, op).log[i].Claimed?
  {
    match op {
      case ProbeOk =>
      case Expire(db) =>
      case Restore(read, db) =>
      case Pause(db) =>
      case ResumeRead =>
      case ResumeWrite(db) =>
      case Usage(resetAt, now, db) =>
      case Schedule(now, db) =>
      case Submit =>
      case Restart =>
    }
  }

  // While the gate is not ready and nothing touches it, nothing is claimed,
  // through any number of restarts.
  lemma {:induction false} ShutStretch(s: State, run: seq<Op>)
    requires s.gate.state != Ready && Untouched(s, run)
    ensures var t := After(s, run);
            && t.gate == s.gate
            && |s.log| <= |t.log| && t.log[..|s.log|] == s.log
            && (forall i | |s.log| <= i < |t.log| :: !t.log[i].Claimed?)
    decreases |run|
  {
    if run != [] {
      var mid, t := Do(s, run[0]), After(s, run);
      StaysShut(s, run[0]);
      ShutStretch(mid, run[1..]);
      assert t.log[..|s.log|] == t.log[..|mid.log|][..|s.log|];
      forall i | |s.log| <= i < |t.log| ensures !t.log[i].Claimed? {
        if i < |mid.log| { assert t.log[..|mid.log|][i] == mid.log[i]; }
      }
    }
  }

  // From a successful pause until an operation writes the gate nothing is
  // claimed.
  lemma NothingWhilePaused(s: State, run: seq<Op>)
    requires Untouched(Do(s, Pause(true)), run)
    ensures var t := After(Do(s, Pause(true)), run);
            && t.gate.state == Paused && |s.log| <= |t.log|
            && forall i | |s.log| <= i < |t.log| :: !t.log[i].Claimed?
  {
    ShutStretch(Do(s, Pause(true)), run);
  }

  // From a usage limit until its reset time, an hour later if none is known,
  // nothing is claimed either.
  lemma NothingBeforeTheReset(s: State, resetAt: Option<int>, now: int, run: seq<Op>)
    requires Untouched(Do(s, Usage(resetAt, now, true)), run)
    ensures var t := After(Do(s, Usage(resetAt, now, true)), run);
            && t.gate == Gate(BlockedUsage, Some(if resetAt.Some? then resetAt.value else now + 3_600_000))
            && |s.log| <= |t.log|
            && forall i | |s.log| <= i < |t.log| :: !t.log[i].Claimed?
  {
    ShutStretch(Do(s, Usage(resetAt, now, true)), run);
  }

  // ----- incidents -----

  // An incident is open: required since the last restored.
  predicate OpenIncident(log: seq<Entry>)
  {
    log != [] &&
    var e := log[|log| - 1];
    e.Required? || (!e.Restored? && OpenIncident(log[..|log| - 1]))
  }

  // Required, and since then no sight of a working credential and no restart.
  predicate Unseen(log: seq<Entry>)
  {
    log != [] &&
    var e := log[|log| - 1];
    e.Required? || (!e.OkSeen? && !e.Started? && Unseen(log[..|log| - 1]))
  }

  // restored closes an open incident; required never repeats one.
  predicate Orderly(log: seq<Entry>)
  {
    log == [] ||
    var e, before := log[|log| - 1], log[..|log| - 1];
    && Orderly(before)
    && (e.Restored? ==> OpenIncident(before))
    && (e.Required? ==> !Unseen(before))
  }

  predicate Consistent(s: State)
  {
    && Orderly(s.log)
    && (!OpenIncident(s.log) ==> s.cred != Expired && s.gate.state != BlockedAuth)
    && (Unseen(s.log) <==> s.cred == Expired)
  }

  lemma Appended(log: seq<Entry>, e: Entry)
    ensures OpenIncident(log + [e]) <==> e.Required? || (!e.Restored? && OpenIncident(log))
    ensures Unseen(log + [e]) <==> e.Required? || (!e.OkSeen? && !e.Started? && Unseen(log))
    ensures Orderly(log + [e]) <==>
              Orderly(log) && (e.Restored? ==> OpenIncident(log)) && (e.Required? ==> !Unseen(log))
  {
    assert (log + [e])[..|log|] == log;
  }

  lemma StepKeepsConsistent(s: State, op: Op)
    requires Consistent(s)
    ensures Consistent(Do(s, op))
  {
    match op {
      case ProbeOk => Appended(s.log, OkSeen);
      case Expire(db) => Appended(s.log, Required);
      case Restore(read, db) => Appended(s.log, OkSeen); Appended(s.log + [OkSeen], Restored);
      case Pause(db) =>
      case ResumeRead =>
      case ResumeWrite(db) =>
      case Usage(resetAt, now, db) =>
        Appended(s.log, UsageNotice);
        assert s.log + [] == s.log;
      case Schedule(now, db) => Appended(s.log, Claimed(now));
      case Submit => Appended(s.log, Accepted);
      case Restart => Appended(s.log, Started);
    }
  }

  lemma {:induction false} RunKeepsConsistent(s: State, run: seq<Op>)
    requires Consistent(s)
    ensures Consistent(After(s, run))
    decreases |run|
  {
    if run != [] {
      StepKeepsConsistent(s, run[0]);
      RunKeepsConsistent(Do(s, run[0]), run[1..]);
    }
  }

  lemma {:induction false} OrderlyPrefix(log: seq<Entry>, n: nat)
    requires Orderly(log) && n <= |log|
    ensures Orderly(log[..n])
    decreases |log|
  {
    if n == |log| {
      assert log[..n] == log;
    } else {
      OrderlyPrefix(log[..|log| - 1], n);
      assert log[..|log| - 1][..n] == log[..n];
    }
  }

  lemma {:induction false} IncidentOpened(log: seq<Entry>) returns (k: nat)
    requires OpenIncident(log)
    ensures k < |log| && log[k] == Required && forall i | k < i < |log| :: log[i] != Restored
  {
    if log[|log| - 1].Required? {
      k := |log| - 1;
    } else {
      k := IncidentOpened(log[..|log| - 1]);
    }
  }

  lemma {:induction false} SeenSince(log: seq<Entry>, i: nat) returns (k: nat)
    requires !Unseen(log) && i < |log| && log[i] == Required
    ensures i < k < |log| && (log[k] == OkSeen || log[k] == Started)
  {
    var e := log[|log| - 1];
    if e.OkSeen? || e.Started? {
      k := |log| - 1;
    } else {
      k := SeenSince(log[..|log| - 1], i);
    }
  }

  // Every auth.restored closes an incident of its own: some auth.required
  // before it has no other auth.restored in between, in any run, restarts included.
  lemma RestoredClosesAnIncident(run: seq<Op>, j: nat) returns (k: nat)
    requires var log := After(INITIAL, run).log; j < |log| && log[j] == Restored
    ensures var log := After(INITIAL, run).log;
            k < j < |log| && log[k] == Required && forall i | k < i < j :: log[i] != Restored
  {
    RunKeepsConsistent(INITIAL, run);
    var log := After(INITIAL, run).log;
    OrderlyPrefix(log, j + 1);
    assert log[..j + 1][..j] == log[..j];
    k := IncidentOpened(log[..j]);
    assert log[..j][k] == log[k];
    forall i | k < i < j ensures log[i] != Restored { assert log[..j][i] == log[i]; }
  }

  // Between two auth.required the credential was seen to work, or the process
  // started anew.
  lemma RequiredOncePerIncident(run: seq<Op>, i: nat, j: nat) returns (k: nat)
    requires var log := After(INITIAL, run).log; i < j < |log| && log[i] == log[j] == Required
    ensures var log := After(INITIAL, run).log;
            i < k < j < |log| && (log[k] == OkSeen || log[k] == Started)
  {
    RunKeepsConsistent(INITIAL, run);
    var log := After(INITIAL, run).log;
    OrderlyPrefix(log, j + 1);
    assert log[..j + 1][..j] == log[..j];
    k := SeenSince(log[..j], i);
  }

  // ----- alternation -----

  // Exactly a transition to OK that finds something to restore, and can, closes
  // an incident; in particular a probe does not.
  lemma IncidentCloses(s: State, op: Op)
    requires OpenIncident(s.log)
    ensures !OpenIncident(Do(s, op).log) <==>
              op.Restore? && op.read && if s.gate.state == BlockedAuth then op.db else s.cred == Expired
  {
    match op {
      case ProbeOk => Appended(s.log, OkSeen);
      case Expire(db) => Appended(s.log, Required);
      case Restore(read, db) => Appended(s.log, OkSeen); Appended(s.log + [OkSeen], Restored);
      case Pause(db) =>
      case ResumeRead =>
      case ResumeWrite(db) =>
      case Usage(resetAt, now, db) => Appended(s.log, UsageNotice); assert s.log + [] == s.log;
      case Schedule(now, db) => Appended(s.log, Claimed(now));
      case Submit => Appended(s.log, Accepted);
      case Restart => Appended(s.log, Started);
    }
  }

  // Every auth.required opens an incident, and every auth.restored closes one.
  predicate Alternates(log: seq<Entry>)
  {
    log == [] ||
    var e, before := log[|log| - 1], log[..|log| - 1];
    Alternates(before) && (e.Required? ==> !OpenIncident(before)) && (e.Restored? ==> OpenIncident(before))
  }

  // auth.required is sent while an incident is open.
  predicate AsksAgain(s: State, op: Op)
  {
    op.Expire? && s.cred != Expired && OpenIncident(s.log)
  }

  lemma AppendAlternates(log: seq<Entry>, e: Entry)
    ensures Alternates(log + [e]) <==>
              Alternates(log) && (e.Required? ==> !OpenIncident(log)) && (e.Restored? ==> OpenIncident(log))
  {
    assert (log + [e])[..|log|] == log;
  }

  lemma AlternatesUnlessAskedAgain(s: State, op: Op)
    requires Consistent(s)
    ensures Alternates(Do(s, op).log) <==> Alternates(s.log) && !AsksAgain(s, op)
  {
    match op {
      case ProbeOk => AppendAlternates(s.log, OkSeen);
      case Expire(db) => AppendAlternates(s.log, Required);
      case Restore(read, db) =>
        AppendAlternates(s.log, OkSeen);
        Appended(s.log, OkSeen);
        AppendAlternates(s.log + [OkSeen], Restored);
      case Pause(db) =>
      case ResumeRead =>
      case ResumeWrite(db) =>
      case Usage(resetAt, now, db) => AppendAlternates(s.log, UsageNotice); assert s.log + [] == s.log;
      case Schedule(now, db) => AppendAlternates(s.log, Claimed(now));
      case Submit => AppendAlternates(s.log, Accepted);
      case Restart => AppendAlternates(s.log, Started);
    }
  }

  predicate NeverAsksAgain(s: State, run: seq<Op>)
    decreases |run|
  {
    run == [] || (!AsksAgain(s, run[0]) && NeverAsksAgain(Do(s, run[0]), run[1..]))
  }

  lemma {:induction false} RunAlternates(s: State, run: seq<Op>)
    requires Consistent(s)
    ensures Alternates(After(s, run).log) <==> Alternates(s.log) && NeverAsksAgain(s, run)
    decreases |run|
  {
    if run != [] {
      AlternatesUnlessAskedAgain(s, run[0]);
      StepKeepsConsistent(s, run[0]);
      RunAlternates(Do(s, run[0]), run[1..]);
    }
  }

  // A hidden incident: it is open, but the credential is not known to have
  // expired any more. An expiry observed then is exactly what asks again.
  predicate Hidden(s: State) { s.cred != Expired && OpenIncident(s.log) }

  // Seeing the credential work, or starting anew, hides an expiry, unless it
  // restores what was blocked.
  predicate Hides(s: State, op: Op)
  {
    && s.cred == Expired
    && match op
       case ProbeOk => true
       case Restart => true
       case Restore(read, db) => !read || (s.gate.state == BlockedAuth && !db)
       case _ => false
  }

  // Another expiry shows a hidden incident again, and lifting the block ends it.
  predicate Unhides(s: State, op: Op)
  {
    match op
    case Expire(_) => true
    case Restore(read, db) => read && db && s.gate.state == BlockedAuth
    case _ => false
  }

  // Exactly these operations hide an incident.
  lemma HiddenArises(s: State, op: Op)
    requires Consistent(s) && !Hidden(s)
    ensures Hidden(Do(s, op)) <==> Hides(s, op)
  {
    if s.cred == Expired {
      IncidentCloses(s, op);
    } else {
      ClosedStaysUnhidden(s, op);
    }
  }

  lemma ClosedStaysUnhidden(s: State, op: Op)
    requires s.cred != Expired && s.gate.state != BlockedAuth && !OpenIncident(s.log)
    ensures !Hidden(Do(s, op))
  {
    match op {
      case ProbeOk => Appended(s.log, OkSeen);
      case Expire(db) =>
      case Restore(read, db) => Appended(s.log, OkSeen);
      case Pause(db) =>
      case ResumeRead =>
      case ResumeWrite(db) =>
      case Usage(resetAt, now, db) => Appended(s.log, UsageNotice); assert s.log + [] == s.log;
      case Schedule(now, db) => Appended(s.log, Claimed(now));
      case Submit => Appended(s.log, Accepted);
      case Restart => Appended(s.log, Started);
    }
  }

  // And exactly these bring a hidden one to light, or end it.
  lemma HiddenEnds(s: State, op: Op)
    requires Consistent(s) && Hidden(s)
    ensures Hidden(Do(s, op)) <==> !Unhides(s, op)
  {
    IncidentCloses(s, op);
  }

  // Whether an incident is hidden, by the credential and the gate alone.
  predicate HiddenNext(s: State, op: Op, hidden: bool)
  {
    if hidden then !Unhides(s, op) else Hides(s, op)
  }

  // No expiry is observed while an incident is hidden.
  predicate NeverAskedHidden(s: State, run: seq<Op>, hidden: bool)
    decreases |run|
  {
    run == [] ||
    (!(hidden && run[0].Expire?) && NeverAskedHidden(Do(s, run[0]), run[1..], HiddenNext(s, run[0], hidden)))
  }

  lemma {:induction false} AskedHidden(s: State, run: seq<Op>)
    requires Consistent(s)
    ensures NeverAsksAgain(s, run) <==> NeverAskedHidden(s, run, Hidden(s))
    decreases |run|
  {
    if run != [] {
      if Hidden(s) { HiddenEnds(s, run[0]); } else { HiddenArises(s, run[0]); }
      StepKeepsConsistent(s, run[0]);
      AskedHidden(Do(s, run[0]), run[1..]);
    }
  }

  // For every run: auth.required and auth.restored alternate if and only if no
  // expiry is observed after the credential was seen to work, or the process
  // started anew, with what was blocked left as it was.
  lemma EventsAlternate(run: seq<Op>)
    ensures Alternates(After(INITIAL, run).log) <==> NeverAskedHidden(INITIAL, run, false)
  {
    RunAlternates(INITIAL, run);
    AskedHidden(INITIAL, run);
  }

  // A run in which they do not: a probe sees the credential work and leaves
  // the gate shut, and the next expiry asks again.
  lemma RequiredTwiceWithoutRestored()
    ensures After(INITIAL, [Expire(true), ProbeOk, Expire(true)]).log == [Required, OkSeen, Required]
  {
    var s1 := Do(INITIAL, Expire(true));
    var s2 := Do(s1, ProbeOk);
    var s3 := Do(s2, Expire(true));
    assert s3.log == [Required, OkSeen, Required];
    Onward(s2, Expire(true), []);
    Onward(s1, ProbeOk, [Expire(true)]);
    Onward(INITIAL, Expire(true), [ProbeOk, Expire(true)]);
    assert [Expire(true)] + [ProbeOk, Expire(true)] == [Expire(true), ProbeOk, Expire(true)];
    assert [ProbeOk] + [Expire(true)] == [ProbeOk, Expire(true)];
    assert [Expire(true)] + [] == [Expire(true)];
  }
}
