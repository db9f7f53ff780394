// backend/internal/claudecli/lock.go as a concurrent protocol. Every call of
// Acquire or TryAcquire is a thread of its own; each of its accesses to the
// mutex or to the holder record is one step, and steps interleave freely.
module ClaudeLock {

  // Where one call is.
  //   Waiting   its goroutine is blocked on the mutex, the caller in select
  //   Won       the goroutine has the mutex, the caller has not noticed
  //   Abandoned the caller gave up, the goroutine is still blocked
  //   Returning the caller gave up, the goroutine has the mutex to hand back
  //   Got       the caller has the mutex and has not recorded itself
  //   Holding   recorded; the release function has not run
  //   Clearing  release has started
  //   Cleared   release has cleared the record and not yet unlocked
  //   Released  release has run
  //   Gone      the call got nothing
  datatype Phase = Waiting | Won | Abandoned | Returning | Got | Holding | Clearing | Cleared | Released | Gone
  {
    predicate Owns() { Won? || Returning? || Got? || Holding? || Clearing? || Cleared? }
    predicate Recorded() { Holding? || Clearing? }
    predicate Over() { Released? || Gone? }

    // Steps left before the call is over, at most.
    function Rank(): nat
    {
      match this
      case Waiting => 6
      case Won => 5
      case Abandoned => 5
      case Returning => 1
      case Got => 4
      case Holding => 3
      case Clearing => 2
      case Cleared => 1
      case Released => 0
      case Gone => 0
    }
  }

  datatype Call = Call(who: string, phase: Phase)

  // who is the holder record; "" means not held.
  datatype State = State(locked: bool, who: string, calls: map<nat, Call>)

  datatype Action =
    | Begin(t: nat, name: string)
    | Win(t: nat)
    | Take(t: nat)
    | Abandon(t: nat)
    | HandBack(t: nat)
    | Try(t: nat, name: string)
    | Record(t: nat)
    | Release(t: nat)
    | Clear(t: nat)
    | Unlock(t: nat)
    | ReleaseAgain(t: nat)

  predicate In(s: State, t: nat, phases: set<Phase>) { t in s.calls && s.calls[t].phase in phases }

  predicate Enabled(s: State, a: Action)
  {
    match a
    case Begin(t, _) => t !in s.calls
    case Win(t) => !s.locked && In(s, t, {Waiting, Abandoned})
    case Take(t) => In(s, t, {Won})
    case Abandon(t) => In(s, t, {Waiting, Won})
    case HandBack(t) => In(s, t, {Returning})
    case Try(t, _) => t !in s.calls
    case Record(t) => In(s, t, {Got})
    case Release(t) => In(s, t, {Holding})
    case Clear(t) => In(s, t, {Clearing})
    case Unlock(t) => In(s, t, {Cleared})
    case ReleaseAgain(t) => In(s, t, {Clearing, Cleared, Released})
  }

  function Move(s: State, t: nat, phase: Phase): State
    requires t in s.calls
  {
    s.(calls := s.calls[t := s.calls[t].(phase := phase)])
  }

  function Do(s: State, a: Action): State
  {
    if !Enabled(s, a) then s else
    match a
    case Begin(t, name) => s.(calls := s.calls[t := Call(name, Waiting)])
    case Win(t) => Move(s, t, if s.calls[t].phase.Waiting? then Won else Returning).(locked := true)
    case Take(t) => Move(s, t, Got)
    case Abandon(t) => Move(s, t, if s.calls[t].phase.Waiting? then Abandoned else Returning)
    case HandBack(t) => Move(s, t, Gone).(locked := false)
    case Try(t, name) =>
      if s.locked then s.(calls := s.calls[t := Call(name, Gone)])
      else s.(locked := true, calls := s.calls[t := Call(name, Got)])
    case Record(t) => Move(s, t, Holding).(who := s.calls[t].who)
    case Release(t) => Move(s, t, Clearing)
    case Clear(t) => Move(s, t, Cleared).(who := "")
    case Unlock(t) => Move(s, t, Released).(locked := false)
    case ReleaseAgain(t) => s
  }

  const FREE := State(false, "", map[])

  predicate Run(s: State, run: seq<Action>)
    decreases |run|
  {
    run == [] || (Enabled(s, run[0]) && Run(Do(s, run[0]), run[1..]))
  }

  function After(s: State, run: seq<Action>): State
    decreases |run|
  {
    if run == [] then s else After(Do(s, run[0]), run[1..])
  }

  // ----- the invariant -----

  predicate Owner(calls: map<nat, Call>, t: nat) { t in calls && calls[t].phase.Owns() }

  ghost predicate OneOwner(calls: map<nat, Call>)
  {
    forall t, u :: Owner(calls, t) && Owner(calls, u) ==> t == u
  }

  ghost predicate Owned(calls: map<nat, Call>) { exists t :: Owner(calls, t) }

  ghost predicate RecordTrue(calls: map<nat, Call>, who: string)
  {
    && (forall t | t in calls && calls[t].phase.Recorded() :: calls[t].who == who)
    && (who != "" ==> exists t :: t in calls && calls[t].phase.Recorded())
  }

  // The mutex is locked exactly when one call accounts for it, and the record
  // is that call's name while it holds.
  ghost predicate Sound(s: State)
  {
    && OneOwner(s.calls)
    && (s.locked <==> Owned(s.calls))
    && RecordTrue(s.calls, s.who)
  }

  // A call that stays an owner, or stays none, changes no other call's standing.
  lemma SameOwners(s: State, t: nat, phase: Phase)
    requires t in s.calls && s.calls[t].phase.Owns() == phase.Owns()
    ensures forall u :: Owner(Move(s, t, phase).calls, u) <==> Owner(s.calls, u)
  {
  }

  lemma LeavingOwner(s: State, t: nat, phase: Phase)
    requires OneOwner(s.calls) && Owner(s.calls, t) && !phase.Owns()
    ensures !Owned(Move(s, t, phase).calls)
  {
    forall u ensures !Owner(Move(s, t, phase).calls, u) { assert Owner(s.calls, u) ==> u == t; }
  }

  lemma NewOwner(before: map<nat, Call>, after: map<nat, Call>, t: nat)
    requires !Owned(before) && Owner(after, t) && forall u | u != t :: Owner(after, u) <==> Owner(before, u)
    ensures OneOwner(after) && Owned(after)
  {
    forall u ensures Owner(after, u) ==> u == t { assert Owner(before, u) ==> Owned(before); }
  }

  lemma OwnersKept(before: map<nat, Call>, after: map<nat, Call>)
    requires forall u :: Owner(after, u) <==> Owner(before, u)
    ensures OneOwner(after) <==> OneOwner(before)
    ensures Owned(after) <==> Owned(before)
  {
    if Owned(before) { var u :| Owner(before, u); assert Owner(after, u); }
    if Owned(after) { var u :| Owner(after, u); assert Owner(before, u); }
  }

  lemma StepKeepsOwners(s: State, a: Action)
    requires Sound(s) && Enabled(s, a)
    ensures OneOwner(Do(s, a).calls) && (Do(s, a).locked <==> Owned(Do(s, a).calls))
  {
    var t := Do(s, a);
    match a {
      case Begin(u, name) => OwnersKept(s.calls, t.calls);
      case Win(u) => NewOwner(s.calls, t.calls, u);
      case Take(u) => SameOwners(s, u, Got); OwnersKept(s.calls, t.calls);
      case Abandon(u) => SameOwners(s, u, t.calls[u].phase); OwnersKept(s.calls, t.calls);
      case HandBack(u) => LeavingOwner(s, u, Gone);
      case Try(u, name) => if s.locked { OwnersKept(s.calls, t.calls); } else { NewOwner(s.calls, t.calls, u); }
      case Record(u) => SameOwners(s, u, Holding); OwnersKept(s.calls, t.calls);
      case Release(u) => SameOwners(s, u, Clearing); OwnersKept(s.calls, t.calls);
      case Clear(u) => SameOwners(s, u, Cleared); OwnersKept(s.calls, t.calls);
      case Unlock(u) => LeavingOwner(s, u, Released);
      case ReleaseAgain(u) =>
    }
  }

  // While one call owns the mutex no other is recorded.
  lemma OnlyOwnerRecorded(s: State, t: nat, u: nat)
    requires OneOwner(s.calls) && Owner(s.calls, t) && u in s.calls && u != t
    ensures !s.calls[u].phase.Recorded()
  {
    assert Owner(s.calls, u) ==> u == t;
  }

  lemma SameRecorded(s: State, after: map<nat, Call>)
    requires RecordTrue(s.calls, s.who) && s.calls.Keys <= after.Keys
    requires forall t | t in s.calls && s.calls[t].phase.Recorded() :: after[t].phase.Recorded()
    requires forall t | t in after && after[t].phase.Recorded() ::
               t in s.calls && s.calls[t].phase.Recorded() && after[t].who == s.calls[t].who
    ensures RecordTrue(after, s.who)
  {
  }

  lemma StepKeepsRecord(s: State, a: Action)
    requires Sound(s) && Enabled(s, a)
    ensures RecordTrue(Do(s, a).calls, Do(s, a).who)
  {
    var t := Do(s, a);
    match a {
      case Begin(u, name) => SameRecorded(s, t.calls);
      case Win(u) => SameRecorded(s, t.calls);
      case Take(u) => SameRecorded(s, t.calls);
      case Abandon(u) => SameRecorded(s, t.calls);
      case HandBack(u) => SameRecorded(s, t.calls);
      case Try(u, name) => SameRecorded(s, t.calls);
      case Record(u) =>
        assert Owner(s.calls, u);
        forall x | x in t.calls && t.calls[x].phase.Recorded() ensures t.calls[x].who == t.who {
          if x != u { OnlyOwnerRecorded(s, u, x); }
        }
        assert u in t.calls && t.calls[u].phase.Recorded();
      case Release(u) => SameRecorded(s, t.calls);
      case Clear(u) =>
        assert Owner(s.calls, u);
        forall x | x in t.calls ensures !t.calls[x].phase.Recorded() {
          if x != u { OnlyOwnerRecorded(s, u, x); }
        }
      case Unlock(u) => SameRecorded(s, t.calls);
      case ReleaseAgain(u) =>
    }
  }

  lemma StepKeepsSound(s: State, a: Action)
    requires Sound(s) && Enabled(s, a)
    ensures Sound(Do(s, a))
  {
    StepKeepsOwners(s, a);
    StepKeepsRecord(s, a);
  }

  lemma {:induction false} RunKeepsSound(s: State, run: seq<Action>)
    requires Sound(s) && Run(s, run)
    ensures Sound(After(s, run))
    decreases |run|
  {
    if run != [] {
      StepKeepsSound(s, run[0]);
      RunKeepsSound(Do(s, run[0]), run[1..]);
    }
  }

  // Main result, for every interleaving: at most one call owns the mutex, it is
  // locked exactly when one does, and a name in the record is the owner's.
  lemma MutualExclusion(run: seq<Action>)
    requires Run(FREE, run)
    ensures var s := After(FREE, run);
            && (forall t, u :: Owner(s.calls, t) && Owner(s.calls, u) ==> t == u)
            && (s.locked <==> exists t :: Owner(s.calls, t))
            && (s.who != "" ==> exists t :: Owner(s.calls, t) && s.calls[t].who == s.who)
  {
    assert Sound(FREE);
    RunKeepsSound(FREE, run);
    var s := After(FREE, run);
    if s.who != "" {
      var t :| t in s.calls && s.calls[t].phase.Recorded();
      assert Owner(s.calls, t) && s.calls[t].who == s.who;
    }
  }

  // Whoever owns the mutex keeps it through every step of every other call,
  // stale releases and abandoned winners included.
  lemma OthersCannotFree(s: State, a: Action, t: nat)
    requires Sound(s) && Enabled(s, a) && Owner(s.calls, t) && a.t != t
    ensures var after := Do(s, a);
            after.locked && Owner(after.calls, t) && after.calls[t] == s.calls[t]
            && (s.calls[t].phase.Recorded() ==> after.who == s.who)
  {
    assert Owner(s.calls, a.t) ==> a.t == t;
  }

  // When every call is over the mutex is free and nobody is recorded: an
  // abandoned wait leaks nothing.
  lemma NothingLeaks(run: seq<Action>)
    requires Run(FREE, run)
    requires forall t | t in After(FREE, run).calls :: After(FREE, run).calls[t].phase.Over()
    ensures !After(FREE, run).locked && After(FREE, run).who == ""
  {
    MutualExclusion(run);
  }

  // ----- progress -----

  predicate Fresh(a: Action) { a.Begin? || a.Try? || a.ReleaseAgain? }

  // Every step of a call that has begun brings it nearer to its end.
  lemma StepsAreSpent(s: State, a: Action)
    requires Enabled(s, a) && !Fresh(a)
    ensures a.t in s.calls && a.t in Do(s, a).calls
    ensures Do(s, a).calls[a.t].phase.Rank() < s.calls[a.t].phase.Rank()
    ensures forall u | u in s.calls && u != a.t :: Do(s, a).calls[u] == s.calls[u]
  {
    match a {
      case Win(u) =>
      case Take(u) =>
      case Abandon(u) =>
      case HandBack(u) =>
      case Record(u) =>
      case Release(u) =>
      case Clear(u) =>
      case Unlock(u) =>
    }
  }

  ghost function Left(calls: map<nat, Call>, ts: set<nat>): nat
    requires ts <= calls.Keys
  {
    if ts == {} then 0 else var t :| t in ts; calls[t].phase.Rank() + Left(calls, ts - {t})
  }

  lemma {:induction false} LeftPick(calls: map<nat, Call>, ts: set<nat>, t: nat)
    requires ts <= calls.Keys && t in ts
    ensures Left(calls, ts) == calls[t].phase.Rank() + Left(calls, ts - {t})
    decreases ts
  {
    var u :| u in ts && Left(calls, ts) == calls[u].phase.Rank() + Left(calls, ts - {u});
    if u != t {
      LeftPick(calls, ts - {u}, t);
      LeftPick(calls, ts - {t}, u);
      assert ts - {u} - {t} == ts - {t} - {u};
    }
  }

  lemma {:induction false} LeftSame(before: map<nat, Call>, after: map<nat, Call>, ts: set<nat>)
    requires ts <= before.Keys && ts <= after.Keys && forall t | t in ts :: after[t] == before[t]
    ensures Left(after, ts) == Left(before, ts)
    decreases ts
  {
    if t :| t in ts {
      LeftPick(before, ts, t);
      LeftPick(after, ts, t);
      LeftSame(before, after, ts - {t});
    }
  }

  // Once no call begins any more, every interleaving is over within the steps
  // the calls have left.
  lemma {:induction false} RunsAreFinite(s: State, run: seq<Action>)
    requires Run(s, run) && forall k | 0 <= k < |run| :: !Fresh(run[k])
    ensures |run| <= Left(s.calls, s.calls.Keys)
    decreases |run|
  {
    if run != [] {
      var a, next := run[0], Do(s, run[0]);
      StepsAreSpent(s, a);
      assert next.calls.Keys == s.calls.Keys;
      LeftPick(s.calls, s.calls.Keys, a.t);
      LeftPick(next.calls, s.calls.Keys, a.t);
      LeftSame(s.calls, next.calls, s.calls.Keys - {a.t});
      RunsAreFinite(next, run[1..]);
    }
  }

  // What an owner, or a blocked call when the mutex is free, does next.
  function NextOf(c: Call, t: nat): Action
    requires !c.phase.Over()
  {
    match c.phase
    case Waiting => Win(t)
    case Won => Take(t)
    case Abandoned => Win(t)
    case Returning => HandBack(t)
    case Got => Record(t)
    case Holding => Release(t)
    case Clearing => Clear(t)
    case Cleared => Unlock(t)
  }

  // No deadlock: unless every call is over, some call can take a step that is
  // not giving up; and if that step is a release, its call holds the lock.
  lemma NoDeadlock(s: State, t: nat) returns (u: nat)
    requires Sound(s) && t in s.calls && !s.calls[t].phase.Over()
    ensures u in s.calls && !s.calls[u].phase.Over()
    ensures Enabled(s, NextOf(s.calls[u], u)) && !Fresh(NextOf(s.calls[u], u))
  {
    if s.locked {
      u :| Owner(s.calls, u);
    } else {
      assert !Owner(s.calls, t);
      u := t;
    }
  }

  // ----- the methods, run without interruption -----

  // What the steps of each method come to.
  lemma TryWins(s: State, t: nat, name: string)
    requires Sound(s) && t !in s.calls && !s.locked
    ensures var after := State(true, name, s.calls[t := Call(name, Holding)]);
            Do(Do(s, Try(t, name)), Record(t)) == after && Sound(after)
  {
    var mid := Do(s, Try(t, name));
    StepKeepsSound(s, Try(t, name));
    StepKeepsSound(mid, Record(t));
    assert Do(mid, Record(t)).calls == s.calls[t := Call(name, Holding)];
  }

  // A blocked call gets a free mutex.
  function Wins(s: State, t: nat): State { Do(Do(Do(s, Win(t)), Take(t)), Record(t)) }

  function GaveUp(s: State, t: nat, name: string): State
  {
    Do(Do(Do(Do(s, Begin(t, name)), Abandon(t)), Win(t)), HandBack(t))
  }

  lemma BeginWaits(s: State, t: nat, name: string)
    requires Sound(s) && t !in s.calls
    ensures Do(s, Begin(t, name)) == s.(calls := s.calls[t := Call(name, Waiting)]) && Sound(Do(s, Begin(t, name)))
  {
    StepKeepsSound(s, Begin(t, name));
  }

  lemma WaitWins(s: State, t: nat)
    requires Sound(s) && In(s, t, {Waiting}) && !s.locked
    ensures var name := s.calls[t].who;
            Wins(s, t) == State(true, name, s.calls[t := Call(name, Holding)]) && Sound(Wins(s, t))
  {
    var s1 := Do(s, Win(t));
    var s2 := Do(s1, Take(t));
    StepKeepsSound(s, Win(t));
    StepKeepsSound(s1, Take(t));
    StepKeepsSound(s2, Record(t));
    assert s2.calls == s.calls[t := Call(s.calls[t].who, Got)];
    assert Do(s2, Record(t)).calls == s.calls[t := Call(s.calls[t].who, Holding)];
  }

  lemma WaitIsAbandoned(s: State, t: nat, name: string)
    requires Sound(s) && t !in s.calls
    ensures var after := s.(calls := s.calls[t := Call(name, Abandoned)]);
            Do(Do(s, Begin(t, name)), Abandon(t)) == after && Sound(after)
  {
    var s1 := Do(s, Begin(t, name));
    StepKeepsSound(s, Begin(t, name));
    StepKeepsSound(s1, Abandon(t));
    assert Do(s1, Abandon(t)).calls == s.calls[t := Call(name, Abandoned)];
  }

  lemma AbandonedHandsBack(s: State, t: nat)
    requires Sound(s) && In(s, t, {Abandoned}) && !s.locked
    ensures var after := s.(calls := s.calls[t := Call(s.calls[t].who, Gone)]);
            Do(Do(s, Win(t)), HandBack(t)) == after && Sound(after)
  {
    var s1 := Do(s, Win(t));
    StepKeepsSound(s, Win(t));
    StepKeepsSound(s1, HandBack(t));
    assert Do(s1, HandBack(t)).calls == s.calls[t := Call(s.calls[t].who, Gone)];
  }

  function Freed(s: State, t: nat): State { Do(Do(Do(s, Release(t)), Clear(t)), Unlock(t)) }

  lemma ReleaseFrees(s: State, t: nat)
    requires Sound(s) && In(s, t, {Holding})
    ensures var after := State(false, "", s.calls[t := Call(s.calls[t].who, Released)]);
            Freed(s, t) == after && Sound(after)
  {
    var s1 := Do(s, Release(t));
    var s2 := Do(s1, Clear(t));
    StepKeepsSound(s, Release(t));
    StepKeepsSound(s1, Clear(t));
    StepKeepsSound(s2, Unlock(t));
    assert s2.calls == s.calls[t := Call(s.calls[t].who, Cleared)];
    assert Do(s2, Unlock(t)).calls == s.calls[t := Call(s.calls[t].who, Released)];
  }

  // The lock, with the calls made so far as history.
  class Lock {
    var locked: bool
    var held: bool
    var who: string
    ghost var calls: map<nat, Call>

    ghost function View(): State
      reads this
    {
      State(locked, who, calls)
    }

    ghost predicate Valid()
      reads this
    {
      Sound(View()) && (held <==> who != "")
    }

    constructor ()
      ensures Valid() && View() == FREE
    {
      locked, held, who := false, false, "";
      calls := map[];
    }

    method SetHolder(name: string)
      modifies this`held, this`who
      ensures who == name && (held <==> who != "")
    {
      if name == "" {
        held, who := false, "";
        return;
      }
      held, who := true, name;
    }

    // TryAcquire never waits. t names the call.
    method TryAcquire(name: string, ghost t: nat) returns (ok: bool)
      requires Valid() && t !in calls
      modifies this
      ensures Valid() && ok == !old(locked)
      ensures View() == if ok then Do(Do(old(View()), Try(t, name)), Record(t)) else Do(old(View()), Try(t, name))
    {
      ghost var s := View();
      if locked {
        StepKeepsSound(s, Try(t, name));
        calls := calls[t := Call(name, Gone)];
        return false;
      }
      TryWins(s, t, name);
      locked := true;
      SetHolder(name);
      calls := calls[t := Call(name, Holding)];
      return true;
    }

    // Acquire waits for the lock. done: the caller sees its context done first;
    // then a goroutine stays behind for as long as the lock is held. holder: the
    // release function of a holder who lets go meanwhile; a wait for a held lock
    // ends in no other way.
    method Acquire(name: string, done: bool, holder: ReleaseFunc?, ghost t: nat) returns (ok: bool)
      requires Valid() && t !in calls
      requires holder != null ==> holder.lock == this && holder.Valid() && !holder.once
      requires locked && !done ==> holder != null
      modifies this, if holder == null then {} else {holder}
      ensures Valid() && ok == !done
      ensures var begun := Do(old(View()), Begin(t, name));
              View() == if ok then Wins(if holder == null then begun else Freed(begun, holder.t), t)
                        else if old(locked) then Do(begun, Abandon(t))
                        else GaveUp(old(View()), t, name)
      ensures locked == (ok || old(locked)) && (ok ==> In(View(), t, {Holding}))
      ensures holder != null ==> holder.Valid() && holder.once == ok
      ensures Others(old(calls), calls, t, holder)
    {
      if done {
        GiveUp(name, t);
        return false;
      }
      BeginWaits(View(), t, name);
      calls := calls[t := Call(name, Waiting)];
      if holder != null {
        holder.Invoke();
      }
      WinAndRecord(t, name);
      return true;
    }

    method GiveUp(name: string, ghost t: nat)
      requires Valid() && t !in calls
      modifies this
      ensures Valid() && locked == old(locked)
      ensures View() == if locked then Do(Do(old(View()), Begin(t, name)), Abandon(t)) else GaveUp(old(View()), t, name)
      ensures calls == old(calls)[t := Call(name, if locked then Abandoned else Gone)]
    {
      WaitIsAbandoned(View(), t, name);
      calls := calls[t := Call(name, Abandoned)];
      if !locked {
        AbandonedWins(t);
      }
    }

    method WinAndRecord(ghost t: nat, name: string)
      requires Valid() && !locked && In(View(), t, {Waiting}) && calls[t].who == name
      modifies this
      ensures Valid() && locked && View() == Wins(old(View()), t)
      ensures calls == old(calls)[t := Call(name, Holding)]
    {
      WaitWins(View(), t);
      locked := true;
      SetHolder(name);
      calls := calls[t := Call(name, Holding)];
    }

    // The goroutine of an abandoned call gets the lock and hands it back.
    method AbandonedWins(ghost t: nat)
      requires Valid() && !locked && In(View(), t, {Abandoned})
      modifies this`locked, this`calls
      ensures Valid() && !locked
      ensures View() == Do(Do(old(View()), Win(t)), HandBack(t))
      ensures calls == old(calls)[t := Call(old(calls)[t].who, Gone)]
    {
      AbandonedHandsBack(View(), t);
      locked := true;
      locked := false;
      calls := calls[t := Call(calls[t].who, Gone)];
    }
  }

  // Every call but t's, and the one that lets go, stays as it was.
  ghost predicate Others(before: map<nat, Call>, after: map<nat, Call>, t: nat, holder: ReleaseFunc?)
  {
    forall u | u in before && u != t && (holder == null || u != holder.t) :: u in after && after[u] == before[u]
  }

  // The release function: sync.Once around clearing the record and unlocking.
  class ReleaseFunc {
    const lock: Lock
    ghost const t: nat
    var once: bool

    // Until it has run, its call holds the lock.
    ghost predicate Valid()
      reads this, lock
    {
      lock.Valid() && t in lock.calls && lock.calls[t].phase == if once then Released else Holding
    }

    constructor (lock: Lock, ghost t: nat)
      requires lock.Valid() && In(lock.View(), t, {Holding})
      ensures Valid() && this.lock == lock && this.t == t && !once
    {
      this.lock, this.t, once := lock, t, false;
    }

    // The first call frees the lock; any later one changes nothing, whoever
    // holds the lock by then.
    method Invoke()
      requires Valid()
      modifies this, lock
      ensures Valid() && once
      ensures lock.View() == if old(once) then old(lock.View()) else Freed(old(lock.View()), t)
      ensures !old(once) ==> !lock.locked && !lock.held
      ensures lock.calls == old(lock.calls)[t := Call(old(lock.calls)[t].who, Released)]
    {
      if once {
        return;
      }
      ReleaseFrees(lock.View(), t);
      once := true;
      lock.SetHolder("");
      lock.locked := false;
      lock.calls := lock.calls[t := Call(lock.calls[t].who, Released)];
    }
  }
}
