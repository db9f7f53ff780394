// backend/internal/store/runtime.go: the executor's gate and the mutable state
// of each queue that configuration does not own.
module Runtime {
  import opened Jobs
  import Credits

  datatype ExecState = Ready | BlockedAuth | BlockedUsage | Paused

  // The one row of executor_state.
  datatype Gate = Gate(state: ExecState, until: Option<int>)
  {
    // A usage block expires by itself once its reset time has passed.
    predicate Runnable(now: int)
    {
      state == Ready || (state == BlockedUsage && until.Some? && now > until.value)
    }
  }

  const READY: Gate := Gate(Ready, None)

  // One row of queue_runtime; a queue without a row is unpaused and owes nothing.
  datatype QueueRuntime = QueueRuntime(paused: bool, credit: real)
  type Table = map<string, QueueRuntime>

  function Of(t: Table, queue: string): QueueRuntime
  {
    if queue in t then t[queue] else QueueRuntime(false, 0.0)
  }

  // The rr_credit column.
  ghost function CreditColumn(t: Table): Credits.Table { map q | q in t :: t[q].credit }

  // INSERT ... ON CONFLICT DO UPDATE of the rr_credit column of some queues.
  ghost function Charged(t: Table, credits: Credits.Table): Table
  {
    map q | q in t.Keys + credits.Keys ::
      if q in credits then Of(t, q).(credit := credits[q]) else t[q]
  }

  // Only the named queues' credits change, and nothing else of any queue.
  lemma ChargedColumn(t: Table, credits: Credits.Table)
    ensures CreditColumn(Charged(t, credits)) == CreditColumn(t) + credits
    ensures forall q :: Of(Charged(t, credits), q).paused == Of(t, q).paused
  {
    assert CreditColumn(Charged(t, credits)).Keys == (CreditColumn(t) + credits).Keys;
  }

  lemma ColumnAt(t: Table, q: string)
    ensures Credits.At(CreditColumn(t), q) == Of(t, q).credit
  {
  }
}
