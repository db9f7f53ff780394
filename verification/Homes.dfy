// Which queued jobs have a queue: removals (backend/internal/executor/reload.go)
// against the handlers that submit, the executor, and one another. The poll and
// SIGHUP reload on goroutines of their own (backend/cmd/spool/main.go), so two
// reloads can overlap. Each read or swap of the definitions and each statement
// is one step.
module Homes {
  import opened Jobs
  import opened Events
  import E = Executor
  import R = Reload

  // The executor: Picked has chosen among the queues configured then; Busy
  // has found its job's queue configured, and may yet put the job back.
  datatype Exec = Idle | Picked(queue: string) | Claimed(id: string, queue: string) | Busy(id: string, queue: string)
  {
    function Job(): set<string> { if Claimed? || Busy? then {id} else {} }
  }

  // A reload: it has read the old definitions and the new file; it is failing
  // the dropped queues, todo, one after another; in one of them it has selected
  // queued jobs and not yet failed them.
  datatype Reload =
    | Read(prev: set<string>, next: set<string>)
    | Failing(todo: set<string>)
    | Selected(todo: set<string>, queue: string)

  // waiting: the queued jobs and their queues. handlers: one entry for each
  // submission, retry or reply that has found its queue configured and not yet
  // inserted its job.
  datatype State = State(
    queues: set<string>, waiting: map<string, string>, exec: Exec, handlers: multiset<string>,
    reloads: map<nat, Reload>)

  // db says whether the statement succeeds.
  datatype Action =
    // handlers
    | CheckQueue(queue: string)
    | Insert(id: string, queue: string)
    | Refuse(queue: string)
    | Cancel(id: string)
    // the executor
    | Pick(queue: string)
    | PassOver
    | Claim(id: string)
    | Start
    | End
    | Requeue
    // reloads
    | ReadFile(r: nat, next: set<string>)
    | Swap(r: nat)
    | Select(r: nat, queue: string, db: bool)
    | Update(r: nat, db: bool)
    | Done(r: nat)
    // a restart, recovery included
    | Boot(queues: set<string>)

  ghost predicate Empty(s: State, queue: string) { forall id | id in s.waiting :: s.waiting[id] != queue }

  ghost predicate Enabled(s: State, a: Action)
  {
    match a
    case CheckQueue(q) => q in s.queues
    case Insert(id, q) => q in s.handlers && id !in s.waiting && id !in s.exec.Job()
    case Refuse(q) => q in s.handlers
    case Cancel(id) => id in s.waiting
    case Pick(q) => s.exec.Idle? && q in s.queues && !Empty(s, q)
    case PassOver => s.exec.Picked?
    case Claim(id) => s.exec.Picked? && id in s.waiting && s.waiting[id] == s.exec.queue
    case Start => s.exec.Claimed? && s.exec.queue in s.queues
    case End => s.exec.Claimed? || s.exec.Busy?
    case Requeue => s.exec.Busy? && s.exec.id !in s.waiting
    case ReadFile(r, next) => r !in s.reloads && next != {}
    case Swap(r) => r in s.reloads && s.reloads[r].Read?
    case Select(r, q, _) => r in s.reloads && s.reloads[r].Failing? && q in s.reloads[r].todo
    case Update(r, _) => r in s.reloads && s.reloads[r].Selected?
    case Done(r) => r in s.reloads && s.reloads[r] == Failing({})
    case Boot(queues) => queues != {}
  }

  ghost function Emptied(waiting: map<string, string>, queue: string): map<string, string>
  {
    map id | id in waiting && waiting[id] != queue :: waiting[id]
  }

  ghost function Do(s: State, a: Action): State
  {
    if !Enabled(s, a) then s else
    match a
    case CheckQueue(q) => s.(handlers := s.handlers + multiset{q})
    case Insert(id, q) => s.(waiting := s.waiting[id := q], handlers := s.handlers - multiset{q})
    case Refuse(q) => s.(handlers := s.handlers - multiset{q})
    case Cancel(id) => s.(waiting := s.waiting - {id})
    case Pick(q) => s.(exec := Picked(q))
    case PassOver => s.(exec := Idle)
    case Claim(id) => s.(waiting := s.waiting - {id}, exec := Claimed(id, s.exec.queue))
    case Start => s.(exec := Busy(s.exec.id, s.exec.queue))
    case End => s.(exec := Idle)
    case Requeue => s.(waiting := s.waiting[s.exec.id := s.exec.queue], exec := Idle)
    case ReadFile(r, next) => s.(reloads := s.reloads[r := Read(s.queues, next)])
    case Swap(r) =>
      var l := s.reloads[r];
      s.(queues := l.next, reloads := s.reloads[r := Failing(l.prev - l.next)])
    case Select(r, q, db) =>
      var todo := s.reloads[r].todo;
      s.(reloads := s.reloads[r := if db && !Empty(s, q) then Selected(todo, q) else Failing(todo - {q})])
    case Update(r, db) =>
      var l := s.reloads[r];
      s.(waiting := if db then Emptied(s.waiting, l.queue) else s.waiting,
         reloads := s.reloads[r := Failing(l.todo - {l.queue})])
    case Done(r) => s.(reloads := s.reloads - {r})
    case Boot(queues) =>
      State(queues, map id | id in s.waiting && s.waiting[id] in queues :: s.waiting[id], Idle, multiset{}, map[])
  }

  ghost predicate Run(s: State, run: seq<Action>)
    decreases |run|
  {
    run == [] || (Enabled(s, run[0]) && Run(Do(s, run[0]), run[1..]))
  }

  ghost function After(s: State, run: seq<Action>): State
    decreases |run|
  {
    if run == [] then s else After(Do(s, run[0]), run[1..])
  }

  // ----- jobs that nobody will look at -----

  // The reload is still going to fail what is queued there.
  predicate Dooms(l: Reload, queue: string)
  {
    match l
    case Read(prev, next) => queue in prev - next
    case Failing(todo) => queue in todo
    case Selected(todo, q) => queue == q || queue in todo
  }

  ghost predicate Doomed(s: State, queue: string) { exists r | r in s.reloads :: Dooms(s.reloads[r], queue) }

  // Some other reload is.
  ghost predicate DoomedBeside(s: State, r: nat, queue: string)
  {
    exists x | x in s.reloads && x != r :: Dooms(s.reloads[x], queue)
  }

  // Queued, in a queue that is not configured, with no reload to fail it.
  ghost predicate Stranded(s: State, id: string)
  {
    id in s.waiting && s.waiting[id] !in s.queues && !Doomed(s, s.waiting[id])
  }

  ghost predicate WaitsIn(s: State, id: string, queue: string) { id in s.waiting && s.waiting[id] == queue }

  // The steps that strand a job: it arrives in a queue that has been dropped
  // and dealt with; a reload drops its queue that was not there when it read
  // the old definitions; or the statement that should fail it fails itself.
  ghost predicate Strands(s: State, a: Action, id: string)
  {
    match a
    case Insert(x, q) => x == id && q !in s.queues && !Doomed(s, q)
    case Requeue => s.exec.Busy? && s.exec.id == id && s.exec.queue !in s.queues && !Doomed(s, s.exec.queue)
    case Swap(r) =>
      && r in s.reloads && s.reloads[r].Read? && id in s.waiting
      && var q, l := s.waiting[id], s.reloads[r]; q !in l.prev && q !in l.next && !DoomedBeside(s, r, q)
    case Select(r, q, db) => !db && WaitsIn(s, id, q) && q !in s.queues && !DoomedBeside(s, r, q)
    case Update(r, db) =>
      && !db && r in s.reloads && s.reloads[r].Selected?
      && var q := s.reloads[r].queue; WaitsIn(s, id, q) && q !in s.queues && !DoomedBeside(s, r, q)
    case _ => false
  }

  // A map that is updated at r and elsewhere as before: who dooms the queue.
  lemma DoomedAfter(s: State, t: State, r: nat, queue: string)
    requires r in t.reloads && t.reloads - {r} == s.reloads - {r}
    ensures Doomed(t, queue) <==> Dooms(t.reloads[r], queue) || DoomedBeside(s, r, queue)
  {
    if DoomedBeside(s, r, queue) {
      var x :| x in s.reloads && x != r && Dooms(s.reloads[x], queue);
      assert x in s.reloads - {r} && (t.reloads - {r})[x] == s.reloads[x];
      assert Dooms(t.reloads[x], queue);
    }
    if Doomed(t, queue) && !Dooms(t.reloads[r], queue) {
      var x :| x in t.reloads && Dooms(t.reloads[x], queue);
      assert x in t.reloads - {r} && (s.reloads - {r})[x] == t.reloads[x];
      assert Dooms(s.reloads[x], queue);
    }
  }

  lemma DoomedNow(s: State, r: nat, queue: string)
    requires r in s.reloads
    ensures Doomed(s, queue) <==> Dooms(s.reloads[r], queue) || DoomedBeside(s, r, queue)
  {
    DoomedAfter(s, s, r, queue);
  }

  // What a step of a reload leaves doomed.
  lemma ReloadDooms(s: State, a: Action, queue: string)
    requires Enabled(s, a) && (a.Swap? || a.Select? || a.Update?)
    ensures Doomed(s, queue) <==> Dooms(s.reloads[a.r], queue) || DoomedBeside(s, a.r, queue)
    ensures Doomed(Do(s, a), queue) <==> Dooms(Do(s, a).reloads[a.r], queue) || DoomedBeside(s, a.r, queue)
  {
    DoomedNow(s, a.r, queue);
    DoomedAfter(s, Do(s, a), a.r, queue);
  }

  lemma ReadDooms(s: State, r: nat, next: set<string>, queue: string)
    requires Enabled(s, ReadFile(r, next))
    ensures Doomed(Do(s, ReadFile(r, next)), queue) <==> Doomed(s, queue) || (queue in s.queues && queue !in next)
  {
    var t := Do(s, ReadFile(r, next));
    assert t.reloads - {r} == s.reloads - {r};
    DoomedAfter(s, t, r, queue);
    assert DoomedBeside(s, r, queue) <==> Doomed(s, queue);
  }

  lemma DoneDooms(s: State, r: nat, queue: string)
    requires Enabled(s, Done(r))
    ensures Doomed(Do(s, Done(r)), queue) <==> Doomed(s, queue)
  {
    var t := Do(s, Done(r));
    if x :| x in s.reloads && Dooms(s.reloads[x], queue) { assert x in t.reloads && Dooms(t.reloads[x], queue); }
    if x :| x in t.reloads && Dooms(t.reloads[x], queue) { assert Dooms(s.reloads[x], queue); }
  }

  // Exactly these steps strand a job.
  lemma StrandsExactly(s: State, a: Action, id: string)
    requires Enabled(s, a) && !Stranded(s, id)
    ensures Stranded(Do(s, a), id) <==> Strands(s, a, id)
  {
    match a {
      case CheckQueue(q) =>
      case Insert(x, q) =>
      case Refuse(q) =>
      case Cancel(x) =>
      case Pick(q) =>
      case PassOver =>
      case Claim(x) =>
      case Start =>
      case End =>
      case Requeue =>
      case ReadFile(r, next) => if id in s.waiting { ReadDooms(s, r, next, s.waiting[id]); }
      case Swap(r) => if id in s.waiting { ReloadDooms(s, a, s.waiting[id]); }
      case Select(r, q, db) => if id in s.waiting { ReloadDooms(s, a, s.waiting[id]); }
      case Update(r, db) => if id in s.waiting { ReloadDooms(s, a, s.waiting[id]); }
      case Done(r) => if id in s.waiting { DoneDooms(s, r, s.waiting[id]); }
      case Boot(queues) =>
    }
  }

  // A restart fails a stranded job; the queue may come back; the job may be
  // cancelled; or the executor had picked its queue before it was dropped.
  ghost predicate Rescues(s: State, a: Action, id: string)
  {
    match a
    case Boot(_) => true
    case Cancel(x) => x == id
    case Claim(x) => x == id
    case Swap(r) => r in s.reloads && s.reloads[r].Read? && id in s.waiting && s.waiting[id] in s.reloads[r].next
    case _ => false
  }

  // And exactly these rescue it; no later reload fails it.
  lemma RescuesExactly(s: State, a: Action, id: string)
    requires Enabled(s, a) && Stranded(s, id)
    ensures Stranded(Do(s, a), id) <==> !Rescues(s, a, id)
  {
    var q := s.waiting[id];
    match a {
      case CheckQueue(_) =>
      case Insert(x, _) =>
      case Refuse(_) =>
      case Cancel(x) =>
      case Pick(_) =>
      case PassOver =>
      case Claim(x) =>
      case Start =>
      case End =>
      case Requeue =>
      case ReadFile(r, next) => ReadDooms(s, r, next, q);
      case Swap(r) => ReloadDooms(s, a, q);
      case Select(r, _, db) => ReloadDooms(s, a, q);
      case Update(r, db) => ReloadDooms(s, a, q);
      case Done(r) => DoneDooms(s, r, q);
      case Boot(queues) =>
    }
  }

  // ----- runs -----

  // As a start leaves it.
  ghost predicate Starting(s: State)
  {
    && s.exec.Idle? && s.handlers == multiset{} && s.reloads == map[]
    && forall id | id in s.waiting :: s.waiting[id] in s.queues
  }

  // Whether the job is stranded, told from the steps that strand and rescue it.
  ghost predicate Adrift(s: State, run: seq<Action>, id: string, adrift: bool)
    decreases |run|
  {
    if run == [] then adrift
    else
      var next := if adrift then !Rescues(s, run[0], id) else Strands(s, run[0], id);
      Adrift(Do(s, run[0]), run[1..], id, next)
  }

  lemma {:induction false} StrandedIsAdrift(s: State, run: seq<Action>, id: string)
    requires Run(s, run)
    ensures Stranded(After(s, run), id) <==> Adrift(s, run, id, Stranded(s, id))
    decreases |run|
  {
    if run != [] {
      if Stranded(s, id) { RescuesExactly(s, run[0], id); } else { StrandsExactly(s, run[0], id); }
      StrandedIsAdrift(Do(s, run[0]), run[1..], id);
    }
  }

  // Exactly these steps decide it, in every run.
  lemma StrandedExactly(s: State, run: seq<Action>, id: string)
    requires Starting(s) && Run(s, run)
    ensures Stranded(After(s, run), id) <==> Adrift(s, run, id, false)
  {
    StrandedIsAdrift(s, run, id);
    assert !Stranded(s, id);
  }

  // In every run that does not end in the middle of a reload, every queued job
  // has a configured queue if and only if none is left stranded.
  lemma EveryJobHasAHome(s: State, run: seq<Action>)
    requires Starting(s) && Run(s, run) && After(s, run).reloads == map[]
    ensures var t := After(s, run);
            (forall id | id in t.waiting :: t.waiting[id] in t.queues) <==> (forall id :: !Adrift(s, run, id, false))
  {
    var t := After(s, run);
    if forall id :: !Adrift(s, run, id, false) {
      forall id | id in t.waiting ensures t.waiting[id] in t.queues { StrandedExactly(s, run, id); }
    } else {
      var id :| Adrift(s, run, id, false);
      StrandedExactly(s, run, id);
      assert id in t.waiting;
    }
  }

  // ----- one reload at a time -----

  // No reload overlaps another, and none has been overtaken.
  ghost predicate Solo(s: State)
  {
    && (forall r, x | r in s.reloads && x in s.reloads :: r == x)
    && (forall r | r in s.reloads && s.reloads[r].Read? :: s.reloads[r].prev == s.queues)
  }

  ghost predicate Overlaps(s: State, a: Action) { a.ReadFile? && s.reloads != map[] }

  lemma StepKeepsSolo(s: State, a: Action)
    requires Solo(s) && Enabled(s, a) && !Overlaps(s, a)
    ensures Solo(Do(s, a))
  {
    match a {
      case CheckQueue(q) =>
      case Insert(x, q) =>
      case Refuse(q) =>
      case Cancel(x) =>
      case Pick(q) =>
      case PassOver =>
      case Claim(x) =>
      case Start =>
      case End =>
      case Requeue =>
      case ReadFile(r, next) =>
      case Swap(r) =>
      case Select(r, q, db) =>
      case Update(r, db) =>
      case Done(r) =>
      case Boot(queues) =>
    }
  }

  // The job arrives where its queue has been dropped and dealt with.
  ghost predicate ArrivesLate(s: State, a: Action, id: string)
  {
    (a.Insert? || a.Requeue?) && Strands(s, a, id)
  }

  // A statement of the reload that should fail the job fails.
  ghost predicate StatementFails(s: State, a: Action, id: string)
  {
    || (a.Select? && !a.db && WaitsIn(s, id, a.queue) && a.queue !in s.queues)
    || (a.Update? && !a.db && a.r in s.reloads && s.reloads[a.r].Selected?
        && WaitsIn(s, id, s.reloads[a.r].queue) && s.reloads[a.r].queue !in s.queues)
  }

  // Then taking over new definitions strands nobody: exactly a late arrival or
  // a failed statement does.
  lemma AloneStrands(s: State, a: Action, id: string)
    requires Solo(s) && Enabled(s, a) && !Stranded(s, id)
    ensures Stranded(Do(s, a), id) <==> ArrivesLate(s, a, id) || StatementFails(s, a, id)
  {
    StrandsExactly(s, a, id);
    if a.Swap? && id in s.waiting { DoomedNow(s, a.r, s.waiting[id]); }
  }

  ghost predicate Alone(s: State, run: seq<Action>)
    decreases |run|
  {
    run == [] || (!Overlaps(s, run[0]) && Alone(Do(s, run[0]), run[1..]))
  }

  ghost predicate Sheltered(s: State, run: seq<Action>, id: string)
    decreases |run|
  {
    run == [] ||
    (!ArrivesLate(s, run[0], id) && !StatementFails(s, run[0], id) && Sheltered(Do(s, run[0]), run[1..], id))
  }

  lemma {:induction false} StaysHoused(s: State, run: seq<Action>, id: string)
    requires Solo(s) && Run(s, run) && Alone(s, run) && Sheltered(s, run, id) && !Stranded(s, id)
    ensures !Stranded(After(s, run), id)
    decreases |run|
  {
    if run != [] {
      AloneStrands(s, run[0], id);
      StepKeepsSolo(s, run[0]);
      StaysHoused(Do(s, run[0]), run[1..], id);
    }
  }

  // So in every run whose reloads do not overlap only late arrivals and failed
  // statements strand anybody.
  lemma OnlyArrivalsAreStranded(s: State, run: seq<Action>, id: string)
    requires Starting(s) && Run(s, run) && Alone(s, run) && Sheltered(s, run, id)
    ensures !Stranded(After(s, run), id)
  {
    StaysHoused(s, run, id);
  }

  // ----- three runs that strand a job -----

  // "j" is stranded in the end, with no reload under way.
  ghost predicate Strays(s: State, run: seq<Action>)
  {
    Run(s, run) && Stranded(After(s, run), "j") && After(s, run).reloads == map[]
  }

  lemma Then(s: State, a: Action, rest: seq<Action>) returns (run: seq<Action>)
    requires Enabled(s, a) && Strays(Do(s, a), rest)
    ensures Strays(s, run)
  {
    run := [a] + rest;
    assert run[1..] == rest;
  }

  const BOTH := {"q", "other"}
  const REST := {"other"}

  function Dropping(s: State, queues: set<string>, l: Reload): State { s.(queues := queues, reloads := map[0 := l]) }

  lemma DropIsRead(s: State)
    requires s.queues == BOTH && s.reloads == map[]
    ensures Enabled(s, ReadFile(0, REST)) && Do(s, ReadFile(0, REST)) == Dropping(s, BOTH, Read(BOTH, REST))
  {
    assert "other" in REST;
  }

  lemma DropIsSwapped(s: State)
    ensures var t := Dropping(s, BOTH, Read(BOTH, REST));
            Enabled(t, Swap(0)) && Do(t, Swap(0)) == Dropping(s, REST, Failing({"q"}))
  {
    assert BOTH - REST == {"q"};
  }

  lemma DropSelectsNothing(s: State)
    requires Empty(s, "q")
    ensures var t := Dropping(s, REST, Failing({"q"}));
            Enabled(t, Select(0, "q", true)) && Do(t, Select(0, "q", true)) == Dropping(s, REST, Failing({}))
  {
    assert {"q"} - {"q"} == {};
    assert Empty(Dropping(s, REST, Failing({"q"})), "q");
  }

  lemma DropIsDone(s: State)
    requires s.reloads == map[]
    ensures var t := Dropping(s, REST, Failing({}));
            Enabled(t, Done(0)) && Do(t, Done(0)) == s.(queues := REST)
  {
    assert Dropping(s, REST, Failing({})).reloads - {0} == map[];
  }

  // A reload that drops "q" when nothing is queued there.
  lemma DropsEmptyQueue(s: State, rest: seq<Action>) returns (run: seq<Action>)
    requires s.queues == BOTH && s.reloads == map[] && Empty(s, "q")
    requires Strays(s.(queues := REST), rest)
    ensures Strays(s, run)
  {
    DropIsDone(s);
    run := Then(Dropping(s, REST, Failing({})), Done(0), rest);
    DropSelectsNothing(s);
    run := Then(Dropping(s, REST, Failing({"q"})), Select(0, "q", true), run);
    DropIsSwapped(s);
    run := Then(Dropping(s, BOTH, Read(BOTH, REST)), Swap(0), run);
    DropIsRead(s);
    run := Then(s, ReadFile(0, REST), run);
  }

  // A handler finds "q" configured, a reload drops "q" and finds nothing to
  // fail, and the handler inserts its job.
  lemma LateSubmissionIsStranded() returns (s: State, run: seq<Action>)
    ensures Starting(s) && Strays(s, run)
  {
    s := State(BOTH, map[], Idle, multiset{}, map[]);
    var s1 := s.(handlers := multiset{"q"});
    run := Then(s1.(queues := REST), Insert("j", "q"), []);
    run := DropsEmptyQueue(s1, run);
    assert Do(s, CheckQueue("q")) == s1;
    run := Then(s, CheckQueue("q"), run);
  }

  // "q" is dropped while its job runs, and the run ends in a requeue.
  lemma LateRequeueIsStranded() returns (s: State, run: seq<Action>)
    ensures Starting(s) && Strays(s, run)
  {
    s := State(BOTH, map["j" := "q"], Idle, multiset{}, map[]);
    var s1, s2 := s.(exec := Picked("q")), State(BOTH, map[], Claimed("j", "q"), multiset{}, map[]);
    var s3 := s2.(exec := Busy("j", "q"));
    run := Then(s3.(queues := REST), Requeue, []);
    run := DropsEmptyQueue(s3, run);
    assert Do(s2, Start) == s3;
    run := Then(s2, Start, run);
    assert s1.waiting - {"j"} == map[];
    assert Do(s1, Claim("j")) == s2;
    run := Then(s1, Claim("j"), run);
    assert "j" in s.waiting && s.waiting["j"] == "q";
    assert Do(s, Pick("q")) == s1;
    run := Then(s, Pick("q"), run);
  }

  // Two reloads overlap: the file brings "q" in and drops it again, and the
  // second reload has read the old definitions before the first takes over. So
  // it does not know that it drops "q", and a job submitted meanwhile stays.
  lemma OverlapStrands() returns (s: State, run: seq<Action>)
    ensures Starting(s) && Strays(s, run)
  {
    s := State(REST, map[], Idle, multiset{}, map[]);
    var s1 := s.(reloads := map[0 := Read(REST, BOTH)]);
    var s2 := s.(reloads := map[0 := Read(REST, BOTH), 1 := Read(REST, REST)]);
    var s3 := State(BOTH, map[], Idle, multiset{}, map[1 := Read(REST, REST)]);
    var s4 := s3.(waiting := map["j" := "q"]);
    run := OvertakenReload(s4);
    run := SubmittedBetween(s3, run);
    run := FirstTakesOver(s2, run);
    assert Do(s1, ReadFile(1, REST)) == s2;
    run := Then(s1, ReadFile(1, REST), run);
    assert "q" in BOTH;
    assert Do(s, ReadFile(0, BOTH)) == s1;
    run := Then(s, ReadFile(0, BOTH), run);
  }

  lemma OvertakenReload(s: State) returns (run: seq<Action>)
    requires s == State(BOTH, map["j" := "q"], Idle, multiset{}, map[1 := Read(REST, REST)])
    ensures Strays(s, run)
  {
    var s1 := s.(queues := REST, reloads := map[1 := Failing({})]);
    var s2 := s.(queues := REST, reloads := map[]);
    assert Strays(s2, []);
    assert s1.reloads - {1} == map[];
    assert Do(s1, Done(1)) == s2;
    run := Then(s1, Done(1), []);
    assert REST - REST == {};
    assert Do(s, Swap(1)) == s1;
    run := Then(s, Swap(1), run);
  }

  lemma SubmittedBetween(s: State, rest: seq<Action>) returns (run: seq<Action>)
    requires s == State(BOTH, map[], Idle, multiset{}, map[1 := Read(REST, REST)])
    requires Strays(s.(waiting := map["j" := "q"]), rest)
    ensures Strays(s, run)
  {
    var s1 := s.(handlers := multiset{"q"});
    assert s1.handlers - multiset{"q"} == multiset{};
    assert Do(s1, Insert("j", "q")) == s.(waiting := map["j" := "q"]);
    run := Then(s1, Insert("j", "q"), rest);
    assert Do(s, CheckQueue("q")) == s1;
    run := Then(s, CheckQueue("q"), run);
  }

  lemma FirstTakesOver(s: State, rest: seq<Action>) returns (run: seq<Action>)
    requires s == State(REST, map[], Idle, multiset{}, map[0 := Read(REST, BOTH), 1 := Read(REST, REST)])
    requires Strays(State(BOTH, map[], Idle, multiset{}, map[1 := Read(REST, REST)]), rest)
    ensures Strays(s, run)
  {
    var s1 := s.(queues := BOTH, reloads := map[0 := Failing({}), 1 := Read(REST, REST)]);
    assert s1.reloads - {0} == map[1 := Read(REST, REST)];
    run := Then(s1, Done(0), rest);
    assert REST - BOTH == {};
    assert Do(s, Swap(0)) == s1;
    run := Then(s, Swap(0), run);
  }

  // ----- one uninterrupted reload, and recovery -----

  // What of the tables this protocol is about.
  function HomesOf(jobs: Jobs.Table, queues: QueueSet, exec: Exec, handlers: multiset<string>): State
  {
    State(queues.Keys, map id | id in jobs && jobs[id].status == Queued :: jobs[id].queue, exec, handlers, map[])
  }

  function Sweeping(jobs: Jobs.Table, queues: QueueSet, exec: Exec, handlers: multiset<string>, l: Reload): State
  {
    HomesOf(jobs, queues, exec, handlers).(reloads := map[0 := l])
  }

  lemma EmptyAsWaiting(jobs: Jobs.Table, s: State, q: string)
    requires s.waiting == map id | id in jobs && jobs[id].status == Queued :: jobs[id].queue
    ensures Empty(s, q) <==> Waiting(jobs, q) == {}
  {
    forall id | id in jobs ensures id in Waiting(jobs, q) <==> id in s.waiting && s.waiting[id] == q { }
    if !Empty(s, q) {
      var id :| id in s.waiting && s.waiting[id] == q;
      assert id in Waiting(jobs, q);
    }
  }

  lemma SelectsOne(jobs: Jobs.Table, queues: QueueSet, exec: Exec, handlers: multiset<string>, todo: set<string>,
                   q: string)
    requires q in todo && Waiting(jobs, q) != {}
    ensures var s := Sweeping(jobs, queues, exec, handlers, Failing(todo));
            && Enabled(s, Select(0, q, true))
            && Do(s, Select(0, q, true)) == Sweeping(jobs, queues, exec, handlers, Selected(todo, q))
  {
    EmptyAsWaiting(jobs, Sweeping(jobs, queues, exec, handlers, Failing(todo)), q);
  }

  lemma EmptiedAsSwept(jobs: Jobs.Table, queues: QueueSet, exec: Exec, handlers: multiset<string>, q: string, now: int)
    ensures Emptied(HomesOf(jobs, queues, exec, handlers).waiting, q)
              == HomesOf(E.Swept(jobs, {q}, now), queues, exec, handlers).waiting
  {
  }

  lemma UpdatesOne(jobs: Jobs.Table, queues: QueueSet, exec: Exec, handlers: multiset<string>, todo: set<string>,
                   q: string, now: int)
    ensures var s := Sweeping(jobs, queues, exec, handlers, Selected(todo, q));
            && Enabled(s, Update(0, true))
            && Do(s, Update(0, true)) == Sweeping(E.Swept(jobs, {q}, now), queues, exec, handlers, Failing(todo - {q}))
  {
    EmptiedAsSwept(jobs, queues, exec, handlers, q, now);
  }

  lemma SkipsOne(jobs: Jobs.Table, queues: QueueSet, exec: Exec, handlers: multiset<string>, todo: set<string>,
                 q: string, db: bool)
    requires q in todo && (db ==> Waiting(jobs, q) == {})
    ensures var s := Sweeping(jobs, queues, exec, handlers, Failing(todo));
            && Enabled(s, Select(0, q, db))
            && Do(s, Select(0, q, db)) == Sweeping(jobs, queues, exec, handlers, Failing(todo - {q}))
  {
    EmptyAsWaiting(jobs, Sweeping(jobs, queues, exec, handlers, Failing(todo)), q);
  }

  // From there the run leads to the reload's end.
  ghost predicate Ends(s: State, run: seq<Action>, t: State) { Run(s, run) && After(s, run) == t }

  lemma ThenEnds(s: State, a: Action, rest: seq<Action>, t: State) returns (run: seq<Action>)
    requires Enabled(s, a) && Ends(Do(s, a), rest, t)
    ensures Ends(s, run, t)
  {
    run := [a] + rest;
    assert run[1..] == rest;
  }

  lemma {:induction false} SweepIsARun(jobs: Jobs.Table, queues: QueueSet, exec: Exec, handlers: multiset<string>,
                                       todo: set<string>, broken: set<string>, now: int) returns (run: seq<Action>)
    ensures Ends(Sweeping(jobs, queues, exec, handlers, Failing(todo)), run,
                 HomesOf(E.Swept(jobs, todo - broken, now), queues, exec, handlers))
    decreases todo, 1
  {
    var s, t := Sweeping(jobs, queues, exec, handlers, Failing(todo)),
                HomesOf(E.Swept(jobs, todo - broken, now), queues, exec, handlers);
    if todo == {} {
      E.SweptNothing(jobs, now);
      assert todo - broken == {} && s.reloads - {0} == map[];
      run := ThenEnds(s, Done(0), [], t);
    } else {
      var q :| q in todo;
      if q in broken {
        assert todo - {q} - broken == todo - broken;
        run := SweepIsARun(jobs, queues, exec, handlers, todo - {q}, broken, now);
        SkipsOne(jobs, queues, exec, handlers, todo, q, false);
        run := ThenEnds(s, Select(0, q, false), run, t);
      } else {
        run := SweepOneIsARun(jobs, queues, exec, handlers, todo, q, broken, now);
      }
    }
  }

  lemma {:induction false} SweepOneIsARun(jobs: Jobs.Table, queues: QueueSet, exec: Exec, handlers: multiset<string>,
                                          todo: set<string>, q: string, broken: set<string>, now: int)
    returns (run: seq<Action>)
    requires q in todo && q !in broken
    ensures Ends(Sweeping(jobs, queues, exec, handlers, Failing(todo)), run,
                 HomesOf(E.Swept(jobs, todo - broken, now), queues, exec, handlers))
    decreases todo, 0
  {
    var s, t := Sweeping(jobs, queues, exec, handlers, Failing(todo)),
                HomesOf(E.Swept(jobs, todo - broken, now), queues, exec, handlers);
    var after := E.Swept(jobs, {q}, now);
    E.SweptTwice(jobs, {q}, todo - {q} - broken, now);
    assert {q} + (todo - {q} - broken) == todo - broken;
    run := SweepIsARun(after, queues, exec, handlers, todo - {q}, broken, now);
    if Waiting(jobs, q) == {} {
      E.SweptOne(jobs, q, now);
      SkipsOne(jobs, queues, exec, handlers, todo, q, true);
      run := ThenEnds(s, Select(0, q, true), run, t);
    } else {
      UpdatesOne(jobs, queues, exec, handlers, todo, q, now);
      run := ThenEnds(Sweeping(jobs, queues, exec, handlers, Selected(todo, q)), Update(0, true), run, t);
      SelectsOne(jobs, queues, exec, handlers, todo, q);
      run := ThenEnds(s, Select(0, q, true), run, t);
    }
  }

  lemma ReadsBoth(jobs: Jobs.Table, prev: QueueSet, next: QueueSet, exec: Exec, handlers: multiset<string>)
    requires next.Keys != {}
    ensures var s, a := HomesOf(jobs, prev, exec, handlers), ReadFile(0, next.Keys);
            && Enabled(s, a)
            && Do(s, a) == Sweeping(jobs, prev, exec, handlers, Read(prev.Keys, next.Keys))
  {
  }

  lemma SwapsIn(jobs: Jobs.Table, prev: QueueSet, next: QueueSet, exec: Exec, handlers: multiset<string>)
    ensures var s := Sweeping(jobs, prev, exec, handlers, Read(prev.Keys, next.Keys));
            && Enabled(s, Swap(0))
            && Do(s, Swap(0)) == Sweeping(jobs, next, exec, handlers, Failing(R.Dropped(prev, next)))
  {
  }

  // What Reloader.ReloadIfChanged promises of one uninterrupted call is a run of
  // this protocol, whichever queues' statements fail.
  lemma ReloadIsARun(jobs: Jobs.Table, prev: QueueSet, next: QueueSet, exec: Exec, handlers: multiset<string>,
                     broken: set<string>, now: int) returns (run: seq<Action>)
    requires next.Keys != {}
    ensures Ends(HomesOf(jobs, prev, exec, handlers), run,
                 HomesOf(E.Swept(jobs, R.Dropped(prev, next) - broken, now), next, exec, handlers))
  {
    var t := HomesOf(E.Swept(jobs, R.Dropped(prev, next) - broken, now), next, exec, handlers);
    run := SweepIsARun(jobs, next, exec, handlers, R.Dropped(prev, next), broken, now);
    SwapsIn(jobs, prev, next, exec, handlers);
    run := ThenEnds(Sweeping(jobs, prev, exec, handlers, Read(prev.Keys, next.Keys)), Swap(0), run, t);
    ReadsBoth(jobs, prev, next, exec, handlers);
    run := ThenEnds(HomesOf(jobs, prev, exec, handlers), ReadFile(0, next.Keys), run, t);
  }
}
