// backend/internal/auth: the manager's own methods, each run without
// interruption. What the CLI, the clock and the database do are inputs.
module Auth {
  import opened Jobs
  import opened Events
  import opened Gates
  import R = Runtime
  import L = ClaudeLock
  import S = Store

  // What `claude auth status` said; Unclear is output that does not parse.
  datatype Report = LoggedIn | LoggedOut | Unclear

  // How the CLI took the pasted code.
  datatype Verdict = Accepts | Rejects | WriteFails

  datatype Started = Existing | Busy | NoTerminal | NoUrl | Begun

  datatype Submitted = NoAttempt | AttemptExpired | CodeRequired | LoginFailed | LoggedInAgain

  // A login that waits for its code. The lock is its own from the start until
  // it is finished.
  class LoginAttempt {
    const id: string
    const expiresAt: int
    const release: L.ReleaseFunc
    var finished: bool

    constructor (id: string, expiresAt: int, release: L.ReleaseFunc)
      ensures this.id == id && this.expiresAt == expiresAt && this.release == release && !finished
    {
      this.id, this.expiresAt, this.release, finished := id, expiresAt, release, false;
    }

    predicate Expired(now: int)
      reads this
    {
      finished || now > expiresAt
    }

    // Finished, the lock is handed back; unfinished, it is still held.
    ghost predicate Valid()
      reads this, release, release.lock
    {
      release.Valid() && finished == release.once
    }
  }

  class Manager {
    const st: S.Store
    const lock: L.Lock
    const hooks: seq<Webhook>
    var state: Credential
    var attempt: LoginAttempt?
    var lastJobRunAt: Option<int>
    ghost var log: seq<Entry>

    ghost function View(): State
      reads this, st
    {
      State(state, st.gate, 0, log)
    }

    // The credential, without the gate.
    ghost function Session(): (Credential, seq<Entry>)
      reads this
    {
      (state, log)
    }

    ghost function LoginRepr(): set<object>
      reads this
    {
      {this, lock} + if attempt == null then {} else {attempt, attempt.release}
    }

    ghost predicate Valid()
      reads this, LoginRepr()
    {
      && lock.Valid()
      && (attempt != null ==> attempt.release.lock == lock && attempt.Valid())
    }

    constructor (st: S.Store, lock: L.Lock, hooks: seq<Webhook>)
      requires lock.Valid()
      ensures Valid() && this.st == st && this.lock == lock && this.hooks == hooks
      ensures state == Unknown && attempt == null && log == []
    {
      this.st, this.lock, this.hooks := st, lock, hooks;
      state, attempt, lastJobRunAt, log := Unknown, null, None, [];
    }

    // ----- manager.go -----

    method Emit(t: EventType, now: int, enqueued: bool)
      requires t.IsService()
      modifies st`outbox
      ensures st.outbox == old(st.outbox) + if enqueued then EventRows(hooks, t, now) else []
    {
      var urls := Deliveries(map[], hooks, "", t);
      var r := st.EnqueueDeliveries(S.Note(t, "", "", urls), now, enqueued);
      assert urls == [] ==> EventRows(hooks, t, now) == [];
    }

    method ObserveExpired(now: int, db: bool, enqueued: bool)
      modifies this`state, this`log, st`gate, st`outbox
      ensures View() == Observed(old(View()), db)
      ensures state == Expired
      ensures st.gate == if old(state) != Expired && old(st.gate).state != R.BlockedAuth && db
                         then R.Gate(R.BlockedAuth, None) else old(st.gate)
      ensures st.outbox == old(st.outbox) +
                if old(state) != Expired && enqueued
                then Rows(Route(map[], hooks, "", AuthRequired), AuthRequired, "", "", now) else []
    {
      var was := state;
      state := Expired;
      if was == Expired {
        return;
      }
      if st.gate.state != R.BlockedAuth {
        var _ := st.SetExecutorState(R.BlockedAuth, None, db);
      }
      log := log + [Required];
      Emit(AuthRequired, now, enqueued);
    }

    // restored says whether the executor was woken.
    method TransitionToOK(now: int, read: bool, db: bool, enqueued: bool) returns (restored: bool)
      modifies this`state, this`log, st`gate, st`outbox
      ensures View() == Passed(old(View()), read, db)
      ensures restored <==> Restores(old(View()), read, db)
      ensures restored <==>
                && read && (old(state) == Expired || old(st.gate).state == R.BlockedAuth)
                && (old(st.gate).state == R.BlockedAuth ==> db)
      ensures state == Good
      ensures st.gate == if read && db && old(st.gate).state == R.BlockedAuth then R.Gate(R.Ready, None)
                         else old(st.gate)
      ensures st.outbox == old(st.outbox) + RestoredRows(hooks, old(View()), read, db, now, enqueued)
      ensures st.outbox == old(st.outbox) +
                if restored && enqueued
                then Rows(Route(map[], hooks, "", AuthRestored), AuthRestored, "", "", now) else []
    {
      var was := state;
      state := Good;
      log := log + [OkSeen];
      if !read {
        return false;
      }
      if was != Expired && st.gate.state != R.BlockedAuth {
        return false;
      }
      if st.gate.state == R.BlockedAuth {
        var ok := st.SetExecutorState(R.Ready, None, db);
        if !ok {
          return false;
        }
      }
      log := log + [Restored];
      Emit(AuthRestored, now, enqueued);
      return true;
    }

    // A login seen by a probe does not unblock the executor.
    method Probe(report: Report, now: int, db: bool, enqueued: bool)
      modifies this`state, this`log, st`gate, st`outbox
      ensures View() == ProbedState(old(View()), report, db)
      ensures report == LoggedIn ==> state == Good && st.gate == old(st.gate) && st.outbox == old(st.outbox)
      ensures report == LoggedOut ==> state == Expired
      ensures report == Unclear ==> state == old(state) && st.gate == old(st.gate) && st.outbox == old(st.outbox)
      ensures st.outbox == old(st.outbox) + ProbeRows(hooks, old(View()), report, now, enqueued)
    {
      match report {
        case LoggedIn =>
          state := Good;
          log := log + [OkSeen];
          assert st.outbox + [] == st.outbox;
        case LoggedOut => ObserveExpired(now, db, enqueued);
        case Unclear => assert st.outbox + [] == st.outbox;
      }
    }

    // Whether a keep-alive is due. lastOk is when the credential was last
    // recorded as working.
    method KeepaliveDue(now: int, interval: int, lastOk: Option<int>, report: Report, db: bool, enqueued: bool)
      returns (due: bool)
      modifies this`state, this`log, st`gate, st`outbox
      ensures due ==> interval > 0 && attempt == null && state != Expired
      ensures st.outbox == old(st.outbox)
      ensures old(state) == Expired && interval > 0 && attempt == null ==> (due <==> report == LoggedIn)
      ensures old(state) != Expired && interval > 0 && attempt == null ==>
                View() == old(View())
                && (due <==> (lastJobRunAt.None? || now - lastJobRunAt.value >= interval)
                             && (lastOk.None? || now - lastOk.value >= interval))
    {
      if interval <= 0 || attempt != null {
        return false;
      }
      if state == Expired {
        Probe(report, now, db, enqueued);
        return state == Good;
      }
      if lastJobRunAt.Some? && now - lastJobRunAt.value < interval {
        return false;
      }
      return lastOk.None? || now - lastOk.value >= interval;
    }

    // ----- login.go -----

    // An attempt made under a lock call of its own.
    ghost predicate Own(a: LoginAttempt)
      reads this, attempt, a, a.release, a.release.lock, if attempt == null then {} else {attempt.release}
    {
      && a.Valid() && a.release.lock == lock
      && (attempt != null && attempt != a ==> attempt.release.t != a.release.t)
    }

    // While a is unfinished the manager's attempt is a itself or a finished one.
    lemma OnlyUnfinished(a: LoginAttempt)
      requires Valid() && Own(a) && !a.finished && attempt != null && attempt != a
      ensures attempt.finished
    {
      if !attempt.finished {
        assert L.Owner(lock.calls, a.release.t) && L.Owner(lock.calls, attempt.release.t);
      }
    }

    // finishAttempt: whoever comes first ends the attempt and hands its lock
    // back; everybody else finds nothing to do.
    method FinishAttempt(a: LoginAttempt)
      requires Valid() && Own(a)
      modifies this`attempt, a, a.release, lock
      ensures Valid() && a.Valid() && a.finished
      ensures old(a.finished) ==> attempt == old(attempt) && lock.View() == old(lock.View())
      ensures !old(a.finished) ==> lock.View() == L.Freed(old(lock.View()), a.release.t) && !lock.locked
      ensures !old(a.finished) ==> attempt == if old(attempt) == a then null else old(attempt)
    {
      if a.finished {
        return;
      }
      if attempt != null && attempt != a {
        OnlyUnfinished(a);
      }
      a.finished := true;
      a.release.Invoke();
      if attempt == a {
        attempt := null;
      }
    }

    // abandonStale: an attempt past its time makes room for the next one.
    method AbandonStale(now: int)
      requires Valid()
      modifies LoginRepr()
      ensures Valid()
      ensures old(attempt) == null || !old(attempt.Expired(now)) ==>
                attempt == old(attempt) && lock.View() == old(lock.View())
      ensures old(attempt) != null && old(attempt.Expired(now)) && !old(attempt.finished) ==>
                attempt == null && !lock.locked
      ensures old(attempt) != null && old(attempt.finished) ==>
                attempt == old(attempt) && lock.View() == old(lock.View())
      ensures Session() == old(Session()) && lock.calls.Keys == old(lock.calls.Keys)
    {
      if attempt != null && attempt.Expired(now) {
        FinishAttempt(attempt);
      }
    }

    // A holder of the lock, other than an attempt, who lets go within the time
    // StartLogin waits for it.
    ghost predicate Yields(holder: L.ReleaseFunc?)
      reads this, attempt, lock, holder, if attempt == null then {} else {attempt.release}
    {
      holder != null ==>
        && holder.lock == lock && holder.Valid() && !holder.once
        && (attempt != null ==> attempt.release.t != holder.t)
    }

    // StartLogin launches a login unless one is in flight. slow: the lock is not
    // won in five seconds. late: the attempt's timer fires after the URL has
    // been read and before the attempt is stored.
    method StartLogin(id: string, now: int, ttl: int, slow: bool, holder: L.ReleaseFunc?,
                      terminal: bool, url: bool, late: bool, ghost t: nat)
      returns (r: Started)
      requires Valid() && t !in lock.calls && Yields(holder)
      requires lock.locked && !slow ==> holder != null || (attempt != null && !attempt.finished)
      modifies LoginRepr(), if holder == null then {} else {holder}
      ensures Valid()
      ensures r == if old(attempt) != null && !old(attempt.Expired(now)) then Existing
                   else if slow then Busy else if !terminal then NoTerminal else if !url then NoUrl else Begun
      ensures r.Existing? ==> attempt == old(attempt) && lock.View() == old(lock.View())
      ensures r.Begun? ==> attempt != null && attempt != old(attempt) && attempt.id == id && attempt.finished == late
      ensures r.Begun? ==> lock.locked == !late && attempt.release.t == t
      ensures r.NoTerminal? || r.NoUrl? ==> !lock.locked
      ensures r.Busy? ==> lock.locked == (old(lock.locked) && (old(attempt) == null || old(attempt.finished)))
      ensures !r.Begun? ==> attempt == null || attempt == old(attempt)
      ensures Session() == old(Session())
    {
      if attempt != null && !attempt.Expired(now) {
        return Existing;
      }
      if attempt != null && !attempt.finished && holder != null {
        // Both would hold the lock.
        assert L.Owner(lock.calls, attempt.release.t) && L.Owner(lock.calls, holder.t);
        assert false;
      }
      AbandonStale(now);
      r := Launch(id, now + ttl, slow, holder, terminal, url, late, t);
    }

    // No attempt is in flight.
    method Launch(id: string, expiresAt: int, slow: bool, holder: L.ReleaseFunc?,
                  terminal: bool, url: bool, late: bool, ghost t: nat)
      returns (r: Started)
      requires Valid() && t !in lock.calls && Yields(holder)
      requires attempt == null || attempt.finished
      requires lock.locked && !slow ==> holder != null
      modifies this`attempt, lock, if holder == null then {} else {holder}
      ensures Valid()
      ensures r == if slow then Busy else if !terminal then NoTerminal else if !url then NoUrl else Begun
      ensures r.Begun? ==> fresh(attempt) && fresh(attempt.release) && attempt.id == id && attempt.finished == late
      ensures r.Begun? ==> lock.locked == !late && attempt.release.t == t
      ensures !r.Begun? ==> attempt == old(attempt)
      ensures r.Busy? ==> lock.locked == old(lock.locked)
      ensures r.NoTerminal? || r.NoUrl? ==> !lock.locked
    {
      var release := LockForLogin(slow, holder, t);
      if release == null {
        return Busy;
      }
      if !terminal {
        release.Invoke();
        return NoTerminal;
      }
      r := Open(id, expiresAt, release, url, late);
    }

    // The CLI runs; its URL may not come, and its timer may fire too soon.
    method Open(id: string, expiresAt: int, release: L.ReleaseFunc, url: bool, late: bool) returns (r: Started)
      requires Valid() && release.lock == lock && release.Valid() && !release.once
      requires attempt != null ==> attempt.finished && attempt.release.t != release.t
      modifies this`attempt, lock, release
      ensures Valid()
      ensures r == if url then Begun else NoUrl
      ensures r.Begun? ==> fresh(attempt) && attempt.release == release && attempt.id == id && attempt.finished == late
      ensures r.Begun? ==> lock.locked == !late
      ensures r.NoUrl? ==> attempt == old(attempt) && !lock.locked
    {
      var a := new LoginAttempt(id, expiresAt, release);
      assert L.Owner(lock.calls, release.t);
      if !url || late {
        FinishAttempt(a);
      }
      if !url {
        return NoUrl;
      }
      attempt := a;
      return Begun;
    }

    method LockForLogin(slow: bool, holder: L.ReleaseFunc?, ghost t: nat) returns (release: L.ReleaseFunc?)
      requires Valid() && t !in lock.calls && Yields(holder)
      requires attempt == null || attempt.finished
      requires lock.locked && !slow ==> holder != null
      modifies lock, if holder == null then {} else {holder}
      ensures Valid() && (release == null <==> slow)
      ensures slow ==> lock.locked == old(lock.locked)
      ensures release != null ==> fresh(release) && release.lock == lock && release.t == t
      ensures release != null ==> release.Valid() && !release.once && lock.locked
      ensures attempt != null ==> attempt.release.t in old(lock.calls)
    {
      var ok := lock.Acquire("login", slow, holder, t);
      release := null;
      if ok {
        release := new L.ReleaseFunc(lock, t);
      }
    }

    // SubmitCode: the user's code decides the attempt, one way or the other.
    method SubmitCode(id: string, code: string, verdict: Verdict, report: Report, now: int, read: bool, db: bool,
                      enqueued: bool)
      returns (r: Submitted)
      requires Valid() && st !in LoginRepr()
      modifies LoginRepr(), st`gate, st`outbox
      ensures r == if old(attempt) == null || old(attempt.id) != id then NoAttempt
                   else if old(attempt.Expired(now)) then AttemptExpired
                   else if code == "" then CodeRequired
                   else if verdict == Accepts then LoggedInAgain else LoginFailed
      ensures r.NoAttempt? || r.CodeRequired? ==> attempt == old(attempt) && lock.View() == old(lock.View())
      ensures r.LoginFailed? || r.LoggedInAgain? ==> attempt == null && !lock.locked
      ensures r.LoggedInAgain? ==>
                View() == Passed(ProbedState(old(View()), report, db), read, db)
      ensures r.LoggedInAgain? ==>
                st.outbox == old(st.outbox) + ProbeRows(hooks, old(View()), report, now, enqueued)
                               + RestoredRows(hooks, ProbedState(old(View()), report, db), read, db, now, enqueued)
      ensures r.LoggedInAgain? ==> state == Good && (read && db ==> st.gate.state != R.BlockedAuth)
      ensures !r.LoggedInAgain? ==> View() == old(View()) && st.outbox == old(st.outbox)
      ensures Valid()
    {
      if attempt == null || attempt.id != id {
        return NoAttempt;
      }
      if attempt.Expired(now) {
        FinishAttempt(attempt);
        return AttemptExpired;
      }
      if code == "" {
        return CodeRequired;
      }
      FinishAttempt(attempt);
      if verdict != Accepts {
        return LoginFailed;
      }
      Probe(report, now, db, enqueued);
      var _ := TransitionToOK(now, read, db, enqueued);
      return LoggedInAgain;
    }

    // CancelLogin ends the attempt that the request names, if it is the current one.
    method CancelLogin(id: string) returns (ok: bool)
      requires Valid()
      modifies LoginRepr()
      ensures Valid()
      ensures ok <==> old(attempt) != null && old(attempt.id) == id
      ensures !ok ==> attempt == old(attempt) && lock.View() == old(lock.View())
      ensures ok && !old(attempt.finished) ==> attempt == null && !lock.locked
    {
      if attempt == null || attempt.id != id {
        return false;
      }
      FinishAttempt(attempt);
      return true;
    }
  }

  // The rows of a service event of the manager's.
  ghost function EventRows(hooks: seq<Webhook>, t: EventType, now: int): seq<Row>
  {
    Rows(Route(map[], hooks, "", t), t, "", "", now)
  }

  ghost function ProbeRows(hooks: seq<Webhook>, s: State, report: Report, now: int, enqueued: bool): seq<Row>
  {
    if report == LoggedOut && s.cred != Expired && enqueued then EventRows(hooks, AuthRequired, now) else []
  }

  // The transition announces that the incident is over.
  ghost predicate Restores(s: State, read: bool, db: bool)
  {
    Passed(s, read, db).log == s.log + [OkSeen] + [Restored]
  }

  ghost function RestoredRows(hooks: seq<Webhook>, s: State, read: bool, db: bool, now: int, enqueued: bool): seq<Row>
  {
    if Restores(s, read, db) && enqueued then EventRows(hooks, AuthRestored, now) else []
  }

  ghost function ProbedState(s: State, report: Report, db: bool): State
  {
    match report
    case LoggedIn => Do(s, ProbeOk)
    case LoggedOut => Do(s, Expire(db))
    case Unclear => s
  }

  // A completed login leaves the credential good and the gate not blocked on
  // auth, whatever the probe in between said, if the database obeys: ready, if
  // it was blocked so by then, and otherwise as it was. It
  // announces auth.restored exactly if the gate was still blocked, or the probe
  // did not already hide the expiry.
  lemma LoginRestores(s: State, report: Report)
    ensures var t := Passed(ProbedState(s, report, true), true, true);
            && t.cred == Good && t.gate.state != R.BlockedAuth
            && t.gate == (if s.gate.state == R.BlockedAuth || (report == LoggedOut && s.cred != Expired)
                          then R.Gate(R.Ready, None) else s.gate)
            && (t.log[|t.log| - 1] == Restored <==>
                  (s.gate.state == R.BlockedAuth || report == LoggedOut || (s.cred == Expired && report == Unclear)))
  {
  }

  // A login that says nothing: the credential expires, an operator pauses the
  // executor, and the probe of the login that follows sees it work. The incident
  // stays open although nothing is wrong any more.
  lemma SilentLogin()
    ensures var s := After(INITIAL, [Expire(true), Pause(true)]);
            var t := Passed(ProbedState(s, LoggedIn, true), true, true);
            && t.cred == Good && t.gate.state != R.BlockedAuth
            && t.log == [Required, OkSeen, OkSeen] && OpenIncident(t.log)
  {
    var s1 := Do(INITIAL, Expire(true));
    Onward(s1, Pause(true), []);
    Onward(INITIAL, Expire(true), [Pause(true)]);
    assert [Expire(true)] + [Pause(true)] == [Expire(true), Pause(true)] && [Pause(true)] + [] == [Pause(true)];
    assert [Required, OkSeen, OkSeen][..2] == [Required, OkSeen] && [Required, OkSeen][..1] == [Required];
  }
}
