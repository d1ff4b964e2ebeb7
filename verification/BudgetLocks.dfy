/** What the locks are for: who waits for whom, and what nobody else can change meanwhile. */
module BudgetLocking {
  import opened Wrappers
  import opened TaskTable
  import opened TaskTransitions
  import opened BudgetProtocol
  import opened BudgetSafety

  // ---- who waits ----

  /** Another create or budget change of this slot has inserted or locked the slot's row. */
  ghost predicate SlotTaken(s: State, id: TxId, k: Slot) {
    exists j :: j in s.txs && j != id
      && ((s.txs[j].request.Create? && s.txs[j].request.slot == k)
        || (s.txs[j].request.SetBudget? && s.txs[j].request.slot == k))
      && s.txs[j].stage != Begun && s.txs[j].stage != Ensured(false)
  }

  /** Inserting a missing row and locking the row wait exactly for another transaction on the same slot. */
  lemma SlotWaitsExactly(s: State, id: TxId)
    requires id in s.txs && (s.txs[id].request.Create? || s.txs[id].request.SetBudget?)
    ensures var k := s.txs[id].request.slot;
      && (s.txs[id].stage == Begun ==> (Step(s, Advance(id)) == s <==> k !in s.db.budget && SlotTaken(s, id, k)))
      && (s.txs[id].stage.Ensured? ==> (Step(s, Advance(id)) == s <==> SlotTaken(s, id, k)))
      && (Step(s, Advance(id)) == s && s.txs[id].stage.ConsumedRead? ==> s.txs[id].request.Create?)
  {
    var k := s.txs[id].request.slot;
    if !BudgetFree(s, id, k) {
      var j :| j in s.txs && j != id && HoldsBudget(s.txs[j], k);
      assert s.txs[j].stage != Begun && s.txs[j].stage != Ensured(false);
    }
  }

  /** The key of the priority check waits exactly for another create of the slot that is checking. */
  lemma PriorityWaitsExactly(s: State, id: TxId)
    requires id in s.txs && s.txs[id].request.Create? && s.txs[id].request.priority && s.txs[id].stage.ConsumedRead?
    requires var read := s.txs[id].stage;
      s.txs[id].request.duration <= read.total - read.reserved - read.consumed
    ensures var k := s.txs[id].request.slot;
      Step(s, Advance(id)) == s <==>
        exists j :: j in s.txs && j != id && s.txs[j].stage.PriorityLocked?
          && (s.txs[j].request.Create? || s.txs[j].request.SetBudget?) && s.txs[j].request.slot == k
  {
  }

  /** Another completion or status change has locked this task's row. */
  ghost predicate RowTaken(s: State, id: TxId, task: nat) {
    exists j :: j in s.txs && j != id && s.txs[j].stage.TaskLocked?
      && ((s.txs[j].request.Complete? && s.txs[j].request.task == task)
        || (s.txs[j].request.Act? && s.txs[j].request.task == task))
  }

  lemma TaskWaitsExactly(s: State, id: TxId)
    requires id in s.txs && s.txs[id].stage == Begun
    requires s.txs[id].request.Complete? || s.txs[id].request.Act?
    requires s.txs[id].request.task < |s.db.tasks|
    ensures Step(s, Advance(id)) == s <==> RowTaken(s, id, s.txs[id].request.task)
  {
    var task := s.txs[id].request.task;
    if !TaskFree(s, id, task) {
      var j :| j in s.txs && j != id && HoldsTask(s.txs[j], task);
      assert s.txs[j].stage.TaskLocked?;
    }
  }

  // ---- what holds meanwhile ----

  predicate LockedTask(tx: Tx) {
    tx.stage.TaskLocked? && (tx.request.Complete? || tx.request.Act?)
  }

  predicate LockedSlot(tx: Tx) {
    (tx.request.Create? || tx.request.SetBudget?) && tx.stage != Begun && tx.stage != Ensured(false)
  }

  predicate Others(e: Event, id: TxId) {
    e != Advance(id) && e != Abort(id)
  }

  lemma AdvanceLeavesOthers(s: State, j: TxId, id: TxId)
    requires id in s.txs && j in s.txs && j != id
    ensures var s' := Step(s, Advance(j));
      id in s'.txs && s'.txs[id] == s.txs[id]
  {
  }

  lemma OthersStay(s: State, e: Event, id: TxId)
    requires id in s.txs && Others(e, id)
    ensures id in Step(s, e).txs && Step(s, e).txs[id] == s.txs[id]
  {
    if e.Advance? && e.tx in s.txs {
      AdvanceLeavesOthers(s, e.tx, id);
    }
  }

  lemma AdvanceLeavesRow(s: State, j: TxId, id: TxId, task: nat)
    requires Inv(s) && id in s.txs && j in s.txs && j != id && HoldsTask(s.txs[id], task) && task < |s.db.tasks|
    ensures var s' := Step(s, Advance(j));
      task < |s'.db.tasks| && |s.db.tasks| <= |s'.db.tasks| && s'.db.tasks[task] == s.db.tasks[task]
  {
    var tx := s.txs[j];
    if tx.request.Create? || tx.request.SetBudget? {
      assert AdvanceBudgetTx(s, j).db.tasks == s.db.tasks
        || (tx.request.Create? && AdvanceBudgetTx(s, j).db.tasks == s.db.tasks + [NewTask(tx.request)]);
    } else {
      assert !SameTaskLock(s.txs[id], tx);
    }
  }

  /** While a transaction holds a task's row, nobody else changes it. */
  lemma HeldRowIsStable(s: State, e: Event, id: TxId)
    requires Inv(s) && id in s.txs && LockedTask(s.txs[id]) && Others(e, id)
    ensures var task, s' := s.txs[id].request.task, Step(s, e);
      task < |s.db.tasks| <= |s'.db.tasks| && s'.db.tasks[task] == s.db.tasks[task]
  {
    assert ReadsHold(s.db, s.txs[id]);
    var task := s.txs[id].request.task;
    assert HoldsTask(s.txs[id], task);
    if e.Advance? && e.tx in s.txs {
      AdvanceLeavesRow(s, e.tx, id, task);
    }
  }

  /** While a transaction holds a slot's budget row, nobody else changes the budget or raises the allocated sum. */
  lemma HeldSlotIsStable(s: State, e: Event, id: TxId)
    requires Inv(s) && id in s.txs && LockedSlot(s.txs[id]) && Others(e, id)
    ensures var k, s' := s.txs[id].request.slot, Step(s, e);
      BudgetOf(s'.db, k) == BudgetOf(s.db, k) && Allocated(s'.db.tasks, k) <= Allocated(s.db.tasks, k)
  {
    var k := s.txs[id].request.slot;
    if e.Advance? && e.tx in s.txs {
      AdvanceLeavesSlot(s, e.tx, id, k);
    } else if e.Archive? || e.ReleasePriority? || e.Snooze? {
      ReplacedAtMost(s, e, e.task, k);
    }
  }

  lemma ReplacedAtMost(s: State, e: Event, task: nat, k: Slot)
    requires Inv(s) && (e.Archive? || e.ReleasePriority? || e.Snooze?) && e.task == task
    ensures Step(s, e).db.budget == s.db.budget
    ensures Allocated(Step(s, e).db.tasks, k) <= Allocated(s.db.tasks, k)
  {
    if task < |s.db.tasks| {
      var t := s.db.tasks[task];
      assert NonNegativeRow(t);
      SumsAfterUpdate(s.db.tasks, task, if e.Archive? then t.(status := Archived)
                      else if e.Snooze? then t.(status := Snoozed) else t.(priority := false), k);
    }
  }

  lemma AdvanceLeavesSlot(s: State, j: TxId, id: TxId, k: Slot)
    requires Inv(s) && id in s.txs && j in s.txs && j != id && LockedSlot(s.txs[id]) && s.txs[id].request.slot == k
    ensures var s' := Step(s, Advance(j));
      BudgetOf(s'.db, k) == BudgetOf(s.db, k) && Allocated(s'.db.tasks, k) <= Allocated(s.db.tasks, k)
  {
    var tx := s.txs[j];
    assert HoldsBudget(s.txs[id], k);
    assert !SameBudgetLock(s.txs[id], tx);
    assert ReadsHold(s.db, tx);
    if tx.request.Create? || tx.request.SetBudget? {
      if tx.request.Create? && tx.stage.Admitted? {
        SumsAfterInsert(s.db.tasks, NewTask(tx.request), k);
      }
    } else if tx.stage.TaskLocked? {
      TaskTxAtMost(s, j, k);
    }
  }

  lemma TaskTxAtMost(s: State, j: TxId, k: Slot)
    requires Inv(s) && j in s.txs && LockedTask(s.txs[j])
    ensures Allocated(Step(s, Advance(j)).db.tasks, k) <= Allocated(s.db.tasks, k)
  {
    var r := s.txs[j].request;
    assert ReadsHold(s.db, s.txs[j]);
    var t := s.db.tasks[r.task];
    assert NonNegativeRow(t);
    if r.Complete? {
      SumsAfterUpdate(s.db.tasks, r.task, CompletedTask(t, r.seconds), k);
    } else {
      SumsAfterUpdate(s.db.tasks, r.task, FinishedTask(t, r.reported), k);
      var moved := Transition(DisplayOf(t, r.now), r.action);
      if moved.Some? {
        SumsAfterUpdate(s.db.tasks, r.task, t.(timer := moved.value), k);
      }
    }
  }

  /** So whatever others do while a transaction holds its lock, what it found under the lock stands: a task row as it
      is, a slot's budget as it is, and an allocated sum as an upper bound. */
  lemma {:induction false} LocksProtect(s: State, es: seq<Event>, id: TxId)
    requires Inv(s) && id in s.txs && (LockedTask(s.txs[id]) || LockedSlot(s.txs[id]))
    requires forall e :: e in es ==> HonestEvent(e) && Others(e, id)
    ensures var s' := Run(s, es);
      && id in s'.txs && s'.txs[id] == s.txs[id] && Inv(s')
      && (LockedTask(s.txs[id]) ==>
        var task := s.txs[id].request.task;
        task < |s.db.tasks| <= |s'.db.tasks| && s'.db.tasks[task] == s.db.tasks[task])
      && (LockedSlot(s.txs[id]) ==>
        var k := s.txs[id].request.slot;
        BudgetOf(s'.db, k) == BudgetOf(s.db, k) && Allocated(s'.db.tasks, k) <= Allocated(s.db.tasks, k))
  {
    assert ReadsHold(s.db, s.txs[id]);
    if es != [] {
      var n := |es| - 1;
      assert forall e :: e in es[..n] ==> e in es;
      LocksProtect(s, es[..n], id);
      var before := Run(s, es[..n]);
      StepKeepsInv(before, es[n]);
      OthersStay(before, es[n], id);
      if LockedTask(s.txs[id]) {
        HeldRowIsStable(before, es[n], id);
      } else {
        HeldSlotIsStable(before, es[n], id);
      }
    }
  }

  // ---- the row that a create writes ----

  /** A new task is pending and unstarted: it takes its duration of its slot and of no other, has used none of it,
      and is there to be started or, past its deadline, resumed. */
  lemma NewRow(r: Request, k: Slot, now: int)
    requires r.Create? && r.duration >= 0
    ensures var t := NewTask(r);
      && t.slot == r.slot && t.status == Pending && t.elapsed == Some(0)
      && t.priority == r.priority && t.deadline == r.deadline
      && AllocatedOf(t, k) == (if k == r.slot then r.duration else 0) && ConsumedOf(t, k) == 0
      && Transition(DisplayOf(t, now), if PastDeadline(t, now) then ResumeAction else StartAction) == Some(TimerRunning)
  {
  }
}
