/** What every interleaving of the budget transactions keeps. */
module BudgetSafety {
  import opened Wrappers
  import opened TaskTable
  import opened TaskTransitions
  import opened BudgetProtocol

  // ---- the invariant ----

  /** A FINISH report is absent or not negative. Nothing in the service checks it. */
  predicate HonestRequest(r: Request) {
    WellFormedRequest(r) && (r.Act? && r.reported.Some? ==> 0 <= r.reported.value)
  }

  predicate HonestEvent(e: Event) {
    e.Begin? ==> WellFormedRequest(e.request) ==> HonestRequest(e.request)
  }

  predicate SameBudgetLock(a: Tx, b: Tx) {
    (a.request.Create? || a.request.SetBudget?) && HoldsBudget(a, a.request.slot) && HoldsBudget(b, a.request.slot)
  }

  predicate SameTaskLock(a: Tx, b: Tx) {
    (a.request.Complete? || a.request.Act?) && HoldsTask(a, a.request.task) && HoldsTask(b, a.request.task)
  }

  /** No row lock has two holders. */
  predicate Exclusive(s: State) {
    && (forall i, j | i in s.txs && j in s.txs && i != j :: !SameBudgetLock(s.txs[i], s.txs[j]))
    && (forall i, j | i in s.txs && j in s.txs && i != j :: !SameTaskLock(s.txs[i], s.txs[j]))
  }

  /** What a transaction has read still bounds the committed tables. */
  predicate ReadsHold(db: Db, tx: Tx) {
    if tx.request.Create? || tx.request.SetBudget? then
      var k := tx.request.slot;
      match tx.stage
      case Begun => true
      case Ensured(inserted) => true
      case BudgetLocked(total) => total == BudgetOf(db, k)
      case AllocatedRead(total, reserved) =>
        total == BudgetOf(db, k) && Allocated(db.tasks, k) <= reserved
      case ConsumedRead(total, reserved, consumed) =>
        tx.request.Create? && total == BudgetOf(db, k) && Allocated(db.tasks, k) <= reserved && 0 <= consumed
      case PriorityLocked(total, reserved, consumed) => AdmissionHolds(db, tx)
      case Admitted(total, reserved, consumed) =>
        AdmissionHolds(db, tx) && (tx.request.priority ==> !HasActivePriority(db.tasks, k))
      case TaskLocked => false
    else
      tx.stage == Begun || (tx.stage == TaskLocked && tx.request.task < |db.tasks|)
  }

  predicate AdmissionHolds(db: Db, tx: Tx)
    requires tx.request.Create? || tx.request.SetBudget?
    requires tx.stage.PriorityLocked? || tx.stage.Admitted?
  {
    && tx.request.Create?
    && tx.stage.total == BudgetOf(db, tx.request.slot)
    && Allocated(db.tasks, tx.request.slot) <= tx.stage.reserved
    && 0 <= tx.stage.consumed
    && tx.request.duration <= tx.stage.total - tx.stage.reserved - tx.stage.consumed
  }

  predicate RowsNonNegative(db: Db) {
    forall i :: 0 <= i < |db.tasks| ==> NonNegativeRow(db.tasks[i])
  }

  /** No slot has more time allocated to unfinished tasks than its budget. */
  ghost predicate WithinBudget(db: Db) {
    forall k :: Allocated(db.tasks, k) <= BudgetOf(db, k)
  }

  ghost predicate Inv(s: State) {
    && RowsNonNegative(s.db)
    && WithinBudget(s.db)
    && AtMostOnePriority(s.db.tasks)
    && Exclusive(s)
    && (forall i :: i in s.txs ==> HonestRequest(s.txs[i].request))
    && (forall i :: i in s.txs ==> ReadsHold(s.db, s.txs[i]))
  }

  // ---- committed changes ----

  /** `t'` may replace `t` without taking more of the budget or a priority slot. */
  predicate Relaxes(t: Task, t': Task) {
    && t'.slot == t.slot
    && NonNegativeRow(t')
    && AllocatedOf(t', t.slot) <= AllocatedOf(t, t.slot)
    && (ActivePriority(t', t.slot) ==> ActivePriority(t, t.slot))
  }

  lemma ReplaceRelaxes(s: State, i: nat, t': Task, refunds: seq<Refund>)
    requires Inv(s) && i < |s.db.tasks| && Relaxes(s.db.tasks[i], t')
    ensures Inv(s.(db := s.db.(tasks := s.db.tasks[i := t'], refunds := refunds)))
  {
    var ts, t := s.db.tasks, s.db.tasks[i];
    var ts' := ts[i := t'];
    var db' := s.db.(tasks := ts', refunds := refunds);
    forall k ensures Allocated(ts', k) <= Allocated(ts, k) {
      SumsAfterUpdate(ts, i, t', k);
    }
    forall k | HasActivePriority(ts', k) ensures HasActivePriority(ts, k) {
      var j :| 0 <= j < |ts'| && ActivePriority(ts'[j], k);
      assert ActivePriority(ts[j], k);
    }
    forall a, b | 0 <= a < b < |ts'|
      ensures !(ActivePriority(ts'[a], ts'[a].slot) && ActivePriority(ts'[b], ts'[a].slot))
    {
      assert !(ActivePriority(ts[a], ts[a].slot) && ActivePriority(ts[b], ts[a].slot));
    }
    forall k ensures Allocated(db'.tasks, k) <= BudgetOf(db', k) {
      assert Allocated(ts, k) <= BudgetOf(s.db, k);
    }
    forall j | j in s.txs ensures ReadsHold(db', s.txs[j]) {
      assert ReadsHold(s.db, s.txs[j]);
    }
  }

  /** Ending a transaction without writing, or shrinking the set of open ones. */
  lemma CloseKeeps(s: State, id: TxId)
    requires Inv(s)
    ensures Inv(Close(s, id, s.db))
  {
  }

  lemma CommitCreate(s: State, id: TxId)
    requires Inv(s) && id in s.txs && s.txs[id].request.Create? && s.txs[id].stage.Admitted?
    ensures Inv(Step(s, Advance(id)))
  {
    var r, k := s.txs[id].request, s.txs[id].request.slot;
    var t := NewTask(r);
    var ts, ts' := s.db.tasks, s.db.tasks + [t];
    var s' := Step(s, Advance(id));
    assert s'.db.tasks == ts';
    forall k' ensures Allocated(ts', k') == Allocated(ts, k') + (if k' == k then r.duration else 0) {
      SumsAfterInsert(ts, t, k');
    }
    forall k' ensures BudgetOf(s'.db, k') == BudgetOf(s.db, k') {
    }
    assert WithinBudget(s'.db) by {
      forall k' ensures Allocated(ts', k') <= BudgetOf(s'.db, k') {
        assert Allocated(ts, k') <= BudgetOf(s.db, k');
      }
    }
    forall j | j in s'.txs ensures ReadsHold(s'.db, s'.txs[j]) {
      assert ReadsHold(s.db, s.txs[j]);
      var tx := s.txs[j];
      if tx.request.Create? || tx.request.SetBudget? {
        if tx.request.slot == k {
          assert !HoldsBudget(tx, k);
        } else if HasActivePriority(ts', tx.request.slot) {
          var n :| 0 <= n < |ts'| && ActivePriority(ts'[n], tx.request.slot);
          assert ActivePriority(ts[n], tx.request.slot);
        }
      }
    }
    forall a, b | 0 <= a < b < |ts'|
      ensures !(ActivePriority(ts'[a], ts'[a].slot) && ActivePriority(ts'[b], ts'[a].slot))
    {
      if b < |ts| {
        assert !(ActivePriority(ts[a], ts[a].slot) && ActivePriority(ts[b], ts[a].slot));
      } else if ActivePriority(t, ts[a].slot) {
        assert !HasActivePriority(ts, k);
      }
    }
  }

  lemma CommitSetBudget(s: State, id: TxId)
    requires Inv(s) && id in s.txs && s.txs[id].request.SetBudget? && s.txs[id].stage.AllocatedRead?
    ensures Inv(Step(s, Advance(id)))
  {
    var k := s.txs[id].request.slot;
    var s' := Step(s, Advance(id));
    assert ReadsHold(s.db, s.txs[id]);
    assert WithinBudget(s'.db) by {
      forall k' ensures Allocated(s'.db.tasks, k') <= BudgetOf(s'.db, k') {
        assert Allocated(s.db.tasks, k') <= BudgetOf(s.db, k');
      }
    }
    forall j | j in s'.txs ensures ReadsHold(s'.db, s'.txs[j]) {
      assert ReadsHold(s.db, s.txs[j]);
      var tx := s.txs[j];
      if (tx.request.Create? || tx.request.SetBudget?) && tx.request.slot == k {
        assert !HoldsBudget(tx, k);
      }
    }
  }

  /** A statement that only reads or locks. */
  lemma SetStageKeeps(s: State, id: TxId, stage: Stage)
    requires Inv(s) && id in s.txs
    requires ReadsHold(s.db, s.txs[id].(stage := stage))
    requires forall j | j in s.txs && j != id ::
      !SameBudgetLock(s.txs[id].(stage := stage), s.txs[j]) && !SameTaskLock(s.txs[id].(stage := stage), s.txs[j])
    ensures Inv(SetStage(s, id, stage))
  {
    var s' := SetStage(s, id, stage);
    assert forall j | j in s.txs && j != id :: s'.txs[j] == s.txs[j];
    forall i, j | i in s'.txs && j in s'.txs && i != j
      ensures !SameBudgetLock(s'.txs[i], s'.txs[j]) && !SameTaskLock(s'.txs[i], s'.txs[j])
    {
      assert !SameBudgetLock(s.txs[i], s.txs[j]) && !SameTaskLock(s.txs[i], s.txs[j]);
    }
  }

  lemma ReadStep(s: State, id: TxId)
    requires Inv(s) && id in s.txs && (s.txs[id].request.Create? || s.txs[id].request.SetBudget?)
    requires !(s.txs[id].request.Create? && s.txs[id].stage.Admitted?)
    requires !(s.txs[id].request.SetBudget? && s.txs[id].stage.AllocatedRead?)
    ensures Inv(Step(s, Advance(id)))
  {
    var tx, k := s.txs[id], s.txs[id].request.slot;
    var s' := Step(s, Advance(id));
    assert ReadsHold(s.db, tx);
    SumsNonNegative(s.db.tasks, k);
    if s' == s {
    } else if id !in s'.txs {
      CloseKeeps(s, id);
    } else {
      var stage := s'.txs[id].stage;
      forall j | j in s.txs && j != id
        ensures !SameBudgetLock(tx.(stage := stage), s.txs[j])
      {
        assert !SameBudgetLock(tx, s.txs[j]);
      }
      SetStageKeeps(s, id, stage);
    }
  }

  lemma TaskStep(s: State, id: TxId)
    requires Inv(s) && id in s.txs && (s.txs[id].request.Complete? || s.txs[id].request.Act?)
    ensures Inv(Step(s, Advance(id)))
  {
    var r := s.txs[id].request;
    var s' := Step(s, Advance(id));
    assert HonestRequest(r) && ReadsHold(s.db, s.txs[id]);
    if s.txs[id].stage == TaskLocked && s'.db != s.db {
      var t := s.db.tasks[r.task];
      assert NonNegativeRow(t);
      var t' := s'.db.tasks[r.task];
      assert Relaxes(t, t');
      ReplaceRelaxes(s, r.task, t', s'.db.refunds);
      var mid := s.(db := s.db.(tasks := s.db.tasks[r.task := t'], refunds := s'.db.refunds));
      CloseKeeps(mid, id);
      assert s' == Close(mid, id, mid.db);
    } else if s.txs[id].stage == TaskLocked {
      assert s'.txs == s.txs - {id};
      CloseKeeps(s, id);
    } else if id !in s'.txs {
      CloseKeeps(s, id);
    } else if s' != s {
      SetStageKeeps(s, id, TaskLocked);
    }
  }

  lemma StepKeepsInv(s: State, e: Event)
    requires Inv(s) && HonestEvent(e)
    ensures Inv(Step(s, e))
  {
    match e
    case Begin(id, r) =>
      var s' := Step(s, e);
      if s' != s {
        assert forall j :: j in s.txs ==> s'.txs[j] == s.txs[j];
      }
    case Advance(id) =>
      if id in s.txs {
        var tx := s.txs[id];
        if tx.request.Complete? || tx.request.Act? {
          TaskStep(s, id);
        } else if tx.request.Create? && tx.stage.Admitted? {
          CommitCreate(s, id);
        } else if tx.request.SetBudget? && tx.stage.AllocatedRead? {
          CommitSetBudget(s, id);
        } else {
          ReadStep(s, id);
        }
      }
    case Abort(id) => CloseKeeps(s, id);
    case Archive(_, task) =>
      if Step(s, e) != s { ReplaceRelaxes(s, task, s.db.tasks[task].(status := Archived), s.db.refunds); }
    case ReleasePriority(_, task) =>
      if Step(s, e) != s { ReplaceRelaxes(s, task, s.db.tasks[task].(priority := false), s.db.refunds); }
    case Snooze(task) =>
      if Step(s, e) != s { ReplaceRelaxes(s, task, s.db.tasks[task].(status := Snoozed), s.db.refunds); }
  }

  /** Snoozing frees no time, and takes none, in any slot; an unlocked pending task does become snoozed. */
  lemma SnoozeFreesNothing(s: State, task: nat, k: Slot)
    ensures Allocated(Step(s, Snooze(task)).db.tasks, k) == Allocated(s.db.tasks, k)
    ensures Consumed(Step(s, Snooze(task)).db.tasks, k) == Consumed(s.db.tasks, k)
    ensures task < |s.db.tasks| && s.db.tasks[task].status == Pending && NobodyHoldsTask(s, task) ==>
      Step(s, Snooze(task)).db.tasks == s.db.tasks[task := s.db.tasks[task].(status := Snoozed)]
  {
    if task < |s.db.tasks| {
      SumsAfterUpdate(s.db.tasks, task, s.db.tasks[task].(status := Snoozed), k);
    }
  }

  /** Archiving returns to the slot exactly what the row took of it. */
  lemma ArchiveFreesTheShare(s: State, user: int, task: nat, k: Slot)
    requires task < |s.db.tasks| && s.db.tasks[task].slot.user == user && NobodyHoldsTask(s, task)
    ensures var t := s.db.tasks[task];
      Used(Step(s, Archive(user, task)).db.tasks, k) == Used(s.db.tasks, k) - AllocatedOf(t, k) - ConsumedOf(t, k)
  {
    SumsAfterUpdate(s.db.tasks, task, s.db.tasks[task].(status := Archived), k);
  }

  /** The tables a service starts from: consistent, and no transaction open. */
  ghost predicate Initial(s: State) {
    s.txs == map[] && RowsNonNegative(s.db) && WithinBudget(s.db) && AtMostOnePriority(s.db.tasks)
  }

  lemma {:induction false} RunKeepsInv(s: State, es: seq<Event>)
    requires Inv(s) && forall e :: e in es ==> HonestEvent(e)
    ensures Inv(Run(s, es))
  {
    if es != [] {
      RunKeepsInv(s, es[..|es| - 1]);
      StepKeepsInv(Run(s, es[..|es| - 1]), es[|es| - 1]);
    }
  }

  /** After any interleaving, every slot is within budget and has at most one active priority task. */
  lemma EveryInterleavingIsSafe(s: State, es: seq<Event>)
    requires Initial(s) && forall e :: e in es ==> HonestEvent(e)
    ensures WithinBudget(Run(s, es).db)
    ensures AtMostOnePriority(Run(s, es).db.tasks)
  {
    RunKeepsInv(s, es);
  }
}
