/** Transactions on the time budget as a transition system. Each event runs one
    statement of one transaction, so a sequence of events is one interleaving.
    Isolation is READ COMMITTED: a statement reads the last committed tables, a
    transaction's own writes become visible when it commits, and a statement
    that needs a row or key another transaction holds does not run. */
module BudgetProtocol {
  import opened Wrappers
  import opened TaskTable
  import opened TaskTransitions

  const MIN_DURATION_SEC := 60
  const MAX_DURATION_SEC := 86340

  datatype Refund = Refund(user: int, task: nat, seconds: int)

  /** The committed tables. */
  datatype Db = Db(tasks: seq<Task>, budget: map<Slot, int>, refunds: seq<Refund>)

  function BudgetOf(db: Db, k: Slot): int {
    if k in db.budget then db.budget[k] else 0
  }

  datatype Request =
    | Create(slot: Slot, duration: int, priority: bool, deadline: Option<int>)
    | SetBudget(slot: Slot, seconds: int)
    | Complete(user: int, task: nat, seconds: int)
    | Act(user: int, task: nat, action: Action, reported: Option<int>, now: int)

  /** How far a transaction has come, with the values it has read. */
  datatype Stage =
    | Begun
    | Ensured(inserted: bool)                                  // after INSERT ... ON CONFLICT DO NOTHING
    | BudgetLocked(total: int)                                 // after SELECT ... FOR UPDATE
    | AllocatedRead(total: int, reserved: int)
    | ConsumedRead(total: int, reserved: int, consumed: int)
    | Admitted(total: int, reserved: int, consumed: int)      // the duration fits; no priority check pending
    | PriorityLocked(total: int, reserved: int, consumed: int) // after pg_advisory_xact_lock
    | TaskLocked                                               // after SELECT ... FOR UPDATE on the task row

  datatype Tx = Tx(request: Request, stage: Stage)

  type TxId = nat

  datatype State = State(db: Db, txs: map<TxId, Tx>)

  datatype Event =
    | Begin(tx: TxId, request: Request)
    | Advance(tx: TxId)
    | Abort(tx: TxId)
    | Archive(user: int, task: nat)         // single-statement updates outside the transactions
    | ReleasePriority(user: int, task: nat)
    | Snooze(task: nat)

  // ---- locks, read off the stages ----

  predicate OnSlot(r: Request, k: Slot) {
    (r.Create? || r.SetBudget?) && r.slot == k
  }

  predicate HoldsBudget(tx: Tx, k: Slot) {
    && OnSlot(tx.request, k)
    && tx.stage != Begun
    && (tx.stage.Ensured? ==> tx.stage.inserted)
  }

  predicate HoldsTask(tx: Tx, task: nat) {
    tx.stage.TaskLocked? && (tx.request.Complete? || tx.request.Act?) && tx.request.task == task
  }

  predicate BudgetFree(s: State, id: TxId, k: Slot) {
    forall j :: j in s.txs && j != id ==> !HoldsBudget(s.txs[j], k)
  }

  predicate TaskFree(s: State, id: TxId, task: nat) {
    forall j :: j in s.txs && j != id ==> !HoldsTask(s.txs[j], task)
  }

  predicate NobodyHoldsTask(s: State, task: nat) {
    forall j :: j in s.txs ==> !HoldsTask(s.txs[j], task)
  }

  predicate PriorityFree(s: State, id: TxId, k: Slot) {
    forall j :: j in s.txs && j != id ==> !(OnSlot(s.txs[j].request, k) && s.txs[j].stage.PriorityLocked?)
  }

  // ---- what a request must pass before its transaction opens ----

  predicate WellFormedRequest(r: Request) {
    match r
    case Create(_, d, _, _) => MIN_DURATION_SEC <= d <= MAX_DURATION_SEC
    case SetBudget(_, seconds) => 0 <= seconds
    case Complete(_, _, seconds) => 0 <= seconds
    case Act(_, _, _, _, _) => true
  }

  // ---- committed writes ----

  function NewTask(r: Request): Task
    requires r.Create?
  {
    Task(r.slot, Pending, TimerIdle, Some(r.duration), Some(0), r.priority, r.deadline)
  }

  /** The row that INSERT ... ON CONFLICT DO NOTHING leaves behind. */
  function WithRow(budget: map<Slot, int>, k: Slot): map<Slot, int> {
    if k in budget then budget else budget[k := 0]
  }

  function CompletedTask(t: Task, seconds: int): Task {
    t.(status := Completed, elapsed := Some(seconds))
  }

  function FinishedTask(t: Task, reported: Option<int>): Task {
    t.(status := Completed, timer := TimerCompleted, elapsed := if reported.Some? then reported else t.elapsed)
  }

  function RefundsAfter(db: Db, user: int, task: nat, seconds: int): seq<Refund>
    requires task < |db.tasks|
  {
    var refund := db.tasks[task].estimate.GetOr(0) - seconds;
    if refund > 0 then db.refunds + [Refund(user, task, refund)] else db.refunds
  }

  // ---- one statement ----

  function SetStage(s: State, id: TxId, stage: Stage): State
    requires id in s.txs
  {
    s.(txs := s.txs[id := s.txs[id].(stage := stage)])
  }

  /** The transaction is gone: committed with `db`, or rolled back with `db == s.db`. */
  function Close(s: State, id: TxId, db: Db): State {
    State(db, s.txs - {id})
  }

  function AdvanceBudgetTx(s: State, id: TxId): State
    requires id in s.txs && (s.txs[id].request.Create? || s.txs[id].request.SetBudget?)
  {
    var tx := s.txs[id];
    var r := tx.request;
    var k := r.slot;
    match tx.stage
    case Begun =>
      if k in s.db.budget then SetStage(s, id, Ensured(false))
      else if BudgetFree(s, id, k) then SetStage(s, id, Ensured(true))
      else s
    case Ensured(_) =>
      if BudgetFree(s, id, k) then SetStage(s, id, BudgetLocked(BudgetOf(s.db, k))) else s
    case BudgetLocked(total) =>
      SetStage(s, id, AllocatedRead(total, Allocated(s.db.tasks, k)))
    case AllocatedRead(total, reserved) =>
      if r.SetBudget? then
        if r.seconds < reserved then Close(s, id, s.db)
        else Close(s, id, s.db.(budget := s.db.budget[k := r.seconds]))
      else SetStage(s, id, ConsumedRead(total, reserved, Consumed(s.db.tasks, k)))
    case ConsumedRead(total, reserved, consumed) =>
      if r.SetBudget? || r.duration > total - reserved - consumed then Close(s, id, s.db)
      else if !r.priority then SetStage(s, id, Admitted(total, reserved, consumed))
      else if PriorityFree(s, id, k) then SetStage(s, id, PriorityLocked(total, reserved, consumed))
      else s
    case PriorityLocked(total, reserved, consumed) =>
      if HasActivePriority(s.db.tasks, k) then Close(s, id, s.db)
      else SetStage(s, id, Admitted(total, reserved, consumed))
    case Admitted(_, _, _) =>
      if r.SetBudget? then Close(s, id, s.db)
      else Close(s, id, s.db.(tasks := s.db.tasks + [NewTask(r)], budget := WithRow(s.db.budget, k)))
    case TaskLocked => s
  }

  function AdvanceTaskTx(s: State, id: TxId): State
    requires id in s.txs && (s.txs[id].request.Complete? || s.txs[id].request.Act?)
  {
    var tx := s.txs[id];
    var r := tx.request;
    match tx.stage
    case Begun =>
      if |s.db.tasks| <= r.task then Close(s, id, s.db)
      else if !TaskFree(s, id, r.task) then s
      else if s.db.tasks[r.task].slot.user != r.user then Close(s, id, s.db)
      else SetStage(s, id, TaskLocked)
    case TaskLocked =>
      if |s.db.tasks| <= r.task then s
      else
        var t := s.db.tasks[r.task];
        if r.Complete? then
          Close(s, id, s.db.(tasks := s.db.tasks[r.task := CompletedTask(t, r.seconds)],
                             refunds := RefundsAfter(s.db, r.user, r.task, r.seconds)))
        else
          var moved := Transition(DisplayOf(t, r.now), r.action);
          if moved.None? then Close(s, id, s.db)
          else
            var t' := if r.action == FinishAction then FinishedTask(t, r.reported) else t.(timer := moved.value);
            Close(s, id, s.db.(tasks := s.db.tasks[r.task := t']))
    case _ => s
  }

  /** A single-row UPDATE that commits on its own; it waits for the row's lock. */
  function UpdateRow(s: State, task: nat, t: Task): State
    requires task < |s.db.tasks|
  {
    if NobodyHoldsTask(s, task) then s.(db := s.db.(tasks := s.db.tasks[task := t])) else s
  }

  /** One event. A blocked or refused event leaves the state as it is. */
  function Step(s: State, e: Event): State {
    match e
    case Begin(id, r) =>
      if id in s.txs || !WellFormedRequest(r) then s
      else s.(txs := s.txs[id := Tx(r, Begun)])
    case Advance(id) =>
      if id !in s.txs then s
      else if s.txs[id].request.Create? || s.txs[id].request.SetBudget? then AdvanceBudgetTx(s, id)
      else AdvanceTaskTx(s, id)
    case Abort(id) => Close(s, id, s.db)
    case Archive(user, task) =>
      if task < |s.db.tasks| && s.db.tasks[task].slot.user == user && s.db.tasks[task].status != Archived
      then UpdateRow(s, task, s.db.tasks[task].(status := Archived)) else s
    case ReleasePriority(user, task) =>
      if task < |s.db.tasks| && s.db.tasks[task].slot.user == user && s.db.tasks[task].priority
      then UpdateRow(s, task, s.db.tasks[task].(priority := false)) else s
    case Snooze(task) =>
      if task < |s.db.tasks| && Active(s.db.tasks[task])
      then UpdateRow(s, task, s.db.tasks[task].(status := Snoozed)) else s
  }

  function Run(s: State, es: seq<Event>): State {
    if es == [] then s else Step(Run(s, es[..|es| - 1]), es[|es| - 1])
  }
}
