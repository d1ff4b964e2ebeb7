/** The service methods run one at a time, statement by statement, on the tables.
    Each is a run of the protocol with no other transaction interleaved. */
module BudgetService {
  import opened Wrappers
  import opened TaskTable
  import opened TaskTransitions
  import opened BudgetProtocol

  datatype Error =
    | DurationRequired
    | DurationOutOfRange
    | InsufficientAvailableTime(remaining: int, requested: int)
    | PriorityTaskExists(task: nat)
    | InvalidElapsed
    | InvalidAvailable
    | AvailableBelowAllocated(reserved: int)
    | TaskNotFound
    | Forbidden
    | InvalidTransition

  datatype Result<+T> = Ok(value: T) | Err(error: Error)

  /** A number as it arrives in a request body. */
  datatype Number = Missing | Fractional | Whole(value: int)

  function Max0(x: int): nat {
    if x > 0 then x else 0
  }

  // ---- the protocol with a single transaction ----

  /** The tables after transaction 0 has run `r` alone to its end. */
  function Solo(db: Db, r: Request): Db {
    Advances(Step(State(db, map[]), Begin(0, r)), 7).db
  }

  function Advances(s: State, n: nat): State
    decreases n
  {
    if n == 0 then s else Advances(Step(s, Advance(0)), n - 1)
  }

  function Alone(db: Db, r: Request, stage: Stage): State {
    State(db, map[0 := Tx(r, stage)])
  }

  lemma Ended(db: Db, n: nat)
    ensures Advances(State(db, map[]), n) == State(db, map[])
  {
  }

  lemma Closes(db: Db, r: Request, stage: Stage, db': Db, n: nat)
    requires n > 0 && Step(Alone(db, r, stage), Advance(0)).db == db'
    requires 0 !in Step(Alone(db, r, stage), Advance(0)).txs
    ensures Advances(Alone(db, r, stage), n).db == db'
  {
    assert Step(Alone(db, r, stage), Advance(0)).txs == map[];
    Ended(db', n - 1);
  }

  /** The four statements both budget transactions start with. */
  lemma SoloReads(db: Db, r: Request)
    requires WellFormedRequest(r) && (r.Create? || r.SetBudget?)
    ensures Solo(db, r)
         == Advances(Alone(db, r, AllocatedRead(BudgetOf(db, r.slot), Allocated(db.tasks, r.slot))), 4).db
  {
    var ensured := Ensured(r.slot !in db.budget);
    assert Step(State(db, map[]), Begin(0, r)) == Alone(db, r, Begun);
    assert Step(Alone(db, r, Begun), Advance(0)) == Alone(db, r, ensured);
    assert Step(Alone(db, r, ensured), Advance(0)) == Alone(db, r, BudgetLocked(BudgetOf(db, r.slot)));
    assert Step(Alone(db, r, BudgetLocked(BudgetOf(db, r.slot))), Advance(0))
        == Alone(db, r, AllocatedRead(BudgetOf(db, r.slot), Allocated(db.tasks, r.slot)));
    assert Advances(Alone(db, r, Begun), 7) == Advances(Alone(db, r, ensured), 6);
    assert Advances(Alone(db, r, ensured), 6) == Advances(Alone(db, r, BudgetLocked(BudgetOf(db, r.slot))), 5);
  }

  /** What is left to do once the two sums are read. */
  function AfterReads(db: Db, r: Request): Db
    requires r.Create?
  {
    if r.duration > BudgetOf(db, r.slot) - Used(db.tasks, r.slot) || (r.priority && HasActivePriority(db.tasks, r.slot))
    then db
    else db.(tasks := db.tasks + [NewTask(r)], budget := WithRow(db.budget, r.slot))
  }

  lemma PriorityTail(db: Db, r: Request, total: int, reserved: int, consumed: int)
    requires WellFormedRequest(r) && r.Create?
    ensures Advances(Alone(db, r, PriorityLocked(total, reserved, consumed)), 2).db
         == if HasActivePriority(db.tasks, r.slot) then db
            else db.(tasks := db.tasks + [NewTask(r)], budget := WithRow(db.budget, r.slot))
  {
    var locked, admitted := PriorityLocked(total, reserved, consumed), Admitted(total, reserved, consumed);
    if HasActivePriority(db.tasks, r.slot) {
      Closes(db, r, locked, db, 2);
    } else {
      assert Step(Alone(db, r, locked), Advance(0)) == Alone(db, r, admitted);
      Closes(db, r, admitted, db.(tasks := db.tasks + [NewTask(r)], budget := WithRow(db.budget, r.slot)), 1);
    }
  }

  lemma ReadTail(db: Db, r: Request)
    requires WellFormedRequest(r) && r.Create?
    ensures var read := ConsumedRead(BudgetOf(db, r.slot), Allocated(db.tasks, r.slot), Consumed(db.tasks, r.slot));
      Advances(Alone(db, r, read), 3).db == AfterReads(db, r)
  {
    var k := r.slot;
    var total, reserved, consumed := BudgetOf(db, k), Allocated(db.tasks, k), Consumed(db.tasks, k);
    var read, admitted := ConsumedRead(total, reserved, consumed), Admitted(total, reserved, consumed);
    if r.duration > total - reserved - consumed {
      Closes(db, r, read, db, 3);
    } else if !r.priority {
      assert Step(Alone(db, r, read), Advance(0)) == Alone(db, r, admitted);
      Closes(db, r, admitted, db.(tasks := db.tasks + [NewTask(r)], budget := WithRow(db.budget, k)), 2);
    } else {
      assert Step(Alone(db, r, read), Advance(0)) == Alone(db, r, PriorityLocked(total, reserved, consumed));
      PriorityTail(db, r, total, reserved, consumed);
    }
  }

  lemma SoloCreate(db: Db, r: Request)
    requires WellFormedRequest(r) && r.Create?
    ensures Solo(db, r) == AfterReads(db, r)
  {
    var total, reserved := BudgetOf(db, r.slot), Allocated(db.tasks, r.slot);
    SoloReads(db, r);
    assert Step(Alone(db, r, AllocatedRead(total, reserved)), Advance(0))
        == Alone(db, r, ConsumedRead(total, reserved, Consumed(db.tasks, r.slot)));
    ReadTail(db, r);
  }

  lemma SoloSetBudget(db: Db, r: Request)
    requires WellFormedRequest(r) && r.SetBudget?
    ensures Solo(db, r) ==
      if r.seconds < Allocated(db.tasks, r.slot) then db else db.(budget := db.budget[r.slot := r.seconds])
  {
    SoloReads(db, r);
    var read := AllocatedRead(BudgetOf(db, r.slot), Allocated(db.tasks, r.slot));
    Closes(db, r, read, Step(Alone(db, r, read), Advance(0)).db, 4);
  }

  lemma SoloTask(db: Db, r: Request)
    requires WellFormedRequest(r) && (r.Complete? || r.Act?)
    ensures Solo(db, r) ==
      if |db.tasks| <= r.task || db.tasks[r.task].slot.user != r.user then db
      else Step(Alone(db, r, TaskLocked), Advance(0)).db
  {
    assert Step(State(db, map[]), Begin(0, r)) == Alone(db, r, Begun);
    if |db.tasks| <= r.task || db.tasks[r.task].slot.user != r.user {
      Closes(db, r, Begun, db, 7);
    } else {
      assert Step(Alone(db, r, Begun), Advance(0)) == Alone(db, r, TaskLocked);
      Closes(db, r, TaskLocked, Step(Alone(db, r, TaskLocked), Advance(0)).db, 6);
    }
  }

  // ---- the service ----

  class AvailableTimeService {
    var tasks: seq<Task>
    var budget: map<Slot, int>
    var refunds: seq<Refund>

    ghost function Tables(): Db reads this {
      Db(tasks, budget, refunds)
    }

    constructor (tasks: seq<Task>, budget: map<Slot, int>, refunds: seq<Refund>)
      ensures Tables() == Db(tasks, budget, refunds)
    {
      this.tasks, this.budget, this.refunds := tasks, budget, refunds;
    }

    /** Makes sure the slot's row exists, locks it and reads it. */
    method LockAndGetTotal(k: Slot) returns (total: int)
      modifies this
      ensures total == BudgetOf(old(Tables()), k)
      ensures Tables() == old(Tables()).(budget := WithRow(old(budget), k))
    {
      if k !in budget {
        budget := budget[k := 0];
      }
      total := budget[k];
    }

    method ReserveAndCreateTask(k: Slot, duration: Number, priority: bool, deadline: Option<int>)
      returns (r: Result<nat>)
      modifies this
      ensures duration == Missing || duration == Whole(0) <==> r == Err(DurationRequired)
      ensures r == Err(DurationOutOfRange) <==>
        duration == Fractional || (duration.Whole? && duration.value != 0
          && !(MIN_DURATION_SEC <= duration.value <= MAX_DURATION_SEC))
      ensures r.Err? ==> Tables() == old(Tables())
      ensures r.Ok? ==>
        && duration.Whole? && r.value == old(|tasks|)
        && tasks == old(tasks) + [Task(k, Pending, TimerIdle, Some(duration.value), Some(0), priority, deadline)]
        && refunds == old(refunds) && budget == WithRow(old(budget), k)
      ensures r.Err? && r.error.InsufficientAvailableTime? ==>
        duration == Whole(r.error.requested) && r.error.requested > r.error.remaining
        && r.error.remaining == BudgetOf(old(Tables()), k) - Used(old(tasks), k)
      ensures r.Err? && r.error.PriorityTaskExists? ==>
        && priority && r.error.task < |tasks| && ActivePriority(tasks[r.error.task], k)
        && duration.Whole? && duration.value <= BudgetOf(old(Tables()), k) - Used(old(tasks), k)
      ensures duration.Whole? && MIN_DURATION_SEC <= duration.value <= MAX_DURATION_SEC ==>
        Tables() == Solo(old(Tables()), Create(k, duration.value, priority, deadline))
        && (r.Ok? || r.error.InsufficientAvailableTime? || r.error.PriorityTaskExists?)
    {
      if duration.Missing? || duration == Whole(0) {
        return Err(DurationRequired);
      }
      if duration.Fractional? || duration.value < MIN_DURATION_SEC || duration.value > MAX_DURATION_SEC {
        return Err(DurationOutOfRange);
      }
      var request := Create(k, duration.value, priority, deadline);
      SoloCreate(Tables(), request);
      var begin := budget;
      var total := LockAndGetTotal(k);
      var reserved := Allocated(tasks, k);
      var consumed := Consumed(tasks, k);
      var remaining := total - reserved - consumed;
      if duration.value > remaining {
        budget := begin; // ROLLBACK
        return Err(InsufficientAvailableTime(remaining, duration.value));
      }
      if priority && HasActivePriority(tasks, k) {
        var existing :| 0 <= existing < |tasks| && ActivePriority(tasks[existing], k);
        budget := begin; // ROLLBACK
        return Err(PriorityTaskExists(existing));
      }
      tasks := tasks + [Task(k, Pending, TimerIdle, Some(duration.value), Some(0), priority, deadline)];
      r := Ok(|tasks| - 1);
    }

    method CompleteTask(user: int, task: int, elapsed: Number) returns (r: Result<int>)
      modifies this
      ensures r == Err(InvalidElapsed) <==> !(elapsed.Whole? && 0 <= elapsed.value)
      ensures r == Err(TaskNotFound) <==> elapsed.Whole? && 0 <= elapsed.value && !(0 <= task < |old(tasks)|)
      ensures r == Err(Forbidden) <==>
        elapsed.Whole? && 0 <= elapsed.value && 0 <= task < |old(tasks)| && old(tasks[task].slot.user) != user
      ensures r.Err? ==> r.error in {InvalidElapsed, TaskNotFound, Forbidden}
      ensures r.Err? ==> Tables() == old(Tables())
      ensures r.Ok? ==>
        && elapsed.Whole? && 0 <= task < |old(tasks)| && old(tasks[task].slot.user) == user
        && tasks == old(tasks)[task := old(tasks)[task].(status := Completed, elapsed := Some(elapsed.value))]
        && budget == old(budget)
        && r.value == Max0(old(tasks[task]).estimate.GetOr(0) - elapsed.value)
        && refunds == old(refunds) + (if r.value > 0 then [Refund(user, task, r.value)] else [])
      ensures elapsed.Whole? && 0 <= elapsed.value && 0 <= task ==>
        Tables() == Solo(old(Tables()), Complete(user, task, elapsed.value))
    {
      if !elapsed.Whole? || elapsed.value < 0 {
        return Err(InvalidElapsed);
      }
      if 0 <= task {
        SoloTask(Tables(), Complete(user, task, elapsed.value));
      }
      if task < 0 || |tasks| <= task {
        return Err(TaskNotFound);
      }
      if tasks[task].slot.user != user {
        return Err(Forbidden);
      }
      var refund := tasks[task].estimate.GetOr(0) - elapsed.value;
      if refund > 0 {
        refunds := refunds + [Refund(user, task, refund)];
      }
      tasks := tasks[task := tasks[task].(status := Completed, elapsed := Some(elapsed.value))];
      r := Ok(Max0(refund));
    }

    method SetAvailableTime(k: Slot, seconds: Number) returns (r: Result<int>)
      modifies this
      ensures r == Err(InvalidAvailable) <==> !(seconds.Whole? && 0 <= seconds.value)
      ensures r.Ok? <==> seconds.Whole? && 0 <= seconds.value && Allocated(old(tasks), k) <= seconds.value
      ensures r.Err? ==> Tables() == old(Tables())
      ensures r.Err? && r.error != InvalidAvailable ==> r.error == AvailableBelowAllocated(Allocated(old(tasks), k))
      ensures r.Ok? ==> r.value == Allocated(tasks, k) && BudgetOf(Tables(), k) == seconds.value
      ensures seconds.Whole? && 0 <= seconds.value ==>
        Tables() == Solo(old(Tables()), SetBudget(k, seconds.value))
    {
      if !seconds.Whole? || seconds.value < 0 {
        return Err(InvalidAvailable);
      }
      SoloSetBudget(Tables(), SetBudget(k, seconds.value));
      var begin := budget;
      var total := LockAndGetTotal(k);
      var reserved := Allocated(tasks, k);
      if seconds.value < reserved {
        budget := begin; // ROLLBACK
        return Err(AvailableBelowAllocated(reserved));
      }
      budget := budget[k := seconds.value];
      assert budget == begin[k := seconds.value];
      r := Ok(reserved);
    }

    /** PATCH /api/tasks/:id/status; returns the row's new timer status. */
    method ApplyAction(user: int, task: int, action: Action, reported: Option<int>, now: int)
      returns (r: Result<TimerStatus>)
      modifies this
      ensures r == Err(TaskNotFound) <==> !(0 <= task < |old(tasks)|)
      ensures r == Err(Forbidden) <==> 0 <= task < |old(tasks)| && old(tasks[task].slot.user) != user
      ensures r == Err(InvalidTransition) <==>
        && 0 <= task < |old(tasks)| && old(tasks[task].slot.user) == user
        && Transition(DisplayOf(old(tasks[task]), now), action).None?
      ensures r.Err? ==> r.error in {TaskNotFound, Forbidden, InvalidTransition}
      ensures r.Err? ==> Tables() == old(Tables())
      ensures r.Ok? ==>
        && 0 <= task < |old(tasks)| && old(tasks[task].slot.user) == user
        && Transition(DisplayOf(old(tasks[task]), now), action) == Some(r.value)
        && budget == old(budget) && refunds == old(refunds)
        && |tasks| == |old(tasks)| && tasks[task].timer == r.value
        && (forall i :: 0 <= i < |tasks| && i != task ==> tasks[i] == old(tasks)[i])
        && (action == FinishAction ==>
              tasks[task] == old(tasks[task]).(status := Completed, timer := TimerCompleted,
                elapsed := if reported.Some? then reported else old(tasks[task]).elapsed))
        && (action != FinishAction ==> tasks[task] == old(tasks[task]).(timer := r.value))
      ensures 0 <= task ==> Tables() == Solo(old(Tables()), Act(user, task, action, reported, now))
    {
      if 0 <= task {
        SoloTask(Tables(), Act(user, task, action, reported, now));
      }
      if task < 0 || |tasks| <= task {
        return Err(TaskNotFound);
      }
      var t := tasks[task];
      if t.slot.user != user {
        return Err(Forbidden);
      }
      var moved := Transition(DisplayOf(t, now), action);
      if moved.None? {
        return Err(InvalidTransition);
      }
      if action == FinishAction {
        var elapsed := if reported.Some? then reported else t.elapsed;
        tasks := tasks[task := t.(status := Completed, timer := TimerCompleted, elapsed := elapsed)];
      } else {
        tasks := tasks[task := t.(timer := moved.value)];
      }
      r := Ok(moved.value);
    }
  }
}
