/** Whose rows a request may change, and what the single-row updates and actions write. */
module BudgetOwners {
  import opened Wrappers
  import opened TaskTable
  import opened TaskTransitions
  import opened BudgetProtocol

  function Owner(r: Request): int {
    if r.Create? || r.SetBudget? then r.slot.user else r.user
  }

  /** The event is no request of this user, and snoozes none of the user's rows. */
  predicate Foreign(e: Event, u: int, tasks: seq<Task>) {
    match e
    case Begin(_, r) => Owner(r) != u
    case Archive(user, _) => user != u
    case ReleasePriority(user, _) => user != u
    case Snooze(task) => task < |tasks| ==> tasks[task].slot.user != u
    case _ => true
  }

  /** Everything of the user is as it was in `db`, and no open transaction will change it. */
  ghost predicate Untouched(db: Db, s: State, u: int) {
    && |db.tasks| <= |s.db.tasks|
    && (forall i :: 0 <= i < |db.tasks| ==> s.db.tasks[i].slot.user == db.tasks[i].slot.user)
    && (forall i :: 0 <= i < |db.tasks| && db.tasks[i].slot.user == u ==> s.db.tasks[i] == db.tasks[i])
    && (forall i :: |db.tasks| <= i < |s.db.tasks| ==> s.db.tasks[i].slot.user != u)
    && (forall k: Slot :: k.user == u ==>
      BudgetOf(s.db, k) == BudgetOf(db, k) && (k in s.db.budget <==> k in db.budget))
    && |db.refunds| <= |s.db.refunds| && s.db.refunds[..|db.refunds|] == db.refunds
    && (forall i :: |db.refunds| <= i < |s.db.refunds| ==> s.db.refunds[i].user != u)
    && (forall j :: j in s.txs ==> ForeignTx(s.db, s.txs[j], u))
  }

  predicate ForeignTx(db: Db, tx: Tx, u: int) {
    && Owner(tx.request) != u
    && (tx.stage.TaskLocked? && (tx.request.Complete? || tx.request.Act?) ==>
      tx.request.task < |db.tasks| && db.tasks[tx.request.task].slot.user == tx.request.user)
  }

  lemma AdvanceTouchesOwn(db: Db, s: State, id: TxId, u: int)
    requires Untouched(db, s, u) && id in s.txs
    ensures Untouched(db, Step(s, Advance(id)), u)
  {
    assert ForeignTx(s.db, s.txs[id], u);
    var tx := s.txs[id];
    if tx.request.Create? || tx.request.SetBudget? {
      BudgetTxTouchesOwn(db, s, id, u);
    } else {
      TaskTxTouchesOwn(db, s, id, u);
    }
  }

  lemma BudgetTxTouchesOwn(db: Db, s: State, id: TxId, u: int)
    requires Untouched(db, s, u) && id in s.txs && Owner(s.txs[id].request) != u
    requires s.txs[id].request.Create? || s.txs[id].request.SetBudget?
    ensures Untouched(db, AdvanceBudgetTx(s, id), u)
  {
    var r, s' := s.txs[id].request, AdvanceBudgetTx(s, id);
    assert s'.db.refunds == s.db.refunds;
    assert s'.db.tasks == s.db.tasks || (r.Create? && s'.db.tasks == s.db.tasks + [NewTask(r)]);
    forall j | j in s'.txs ensures ForeignTx(s'.db, s'.txs[j], u) {
      assert j in s.txs && s'.txs[j].request == s.txs[j].request;
      assert ForeignTx(s.db, s.txs[j], u);
      assert s'.txs[j].stage.TaskLocked? ==> s'.txs[j] == s.txs[j];
    }
  }

  lemma TaskTxTouchesOwn(db: Db, s: State, id: TxId, u: int)
    requires Untouched(db, s, u) && id in s.txs && ForeignTx(s.db, s.txs[id], u)
    requires s.txs[id].request.Complete? || s.txs[id].request.Act?
    ensures Untouched(db, AdvanceTaskTx(s, id), u)
  {
    var r, s' := s.txs[id].request, AdvanceTaskTx(s, id);
    assert s'.db.budget == s.db.budget;
    assert s'.db.tasks == s.db.tasks || (s.txs[id].stage.TaskLocked? && r.task < |s.db.tasks|
      && s'.db.tasks == s.db.tasks[r.task := s'.db.tasks[r.task]]);
    forall j | j in s'.txs ensures ForeignTx(s'.db, s'.txs[j], u) {
      assert j in s.txs && s'.txs[j].request == s.txs[j].request;
      assert ForeignTx(s.db, s.txs[j], u);
    }
  }

  /** A single-row update by another user, or of another's row. */
  lemma UpdateTouchesOwn(db: Db, s: State, task: nat, t: Task, u: int)
    requires Untouched(db, s, u) && task < |s.db.tasks|
    requires s.db.tasks[task].slot.user != u && t.slot == s.db.tasks[task].slot
    ensures Untouched(db, UpdateRow(s, task, t), u)
  {
    var s' := UpdateRow(s, task, t);
    forall j | j in s'.txs ensures ForeignTx(s'.db, s'.txs[j], u) {
      assert ForeignTx(s.db, s.txs[j], u);
    }
  }

  lemma StepTouchesOwn(db: Db, s: State, e: Event, u: int)
    requires Untouched(db, s, u) && Foreign(e, u, db.tasks)
    ensures Untouched(db, Step(s, e), u)
  {
    match e
    case Advance(id) =>
      if id in s.txs {
        AdvanceTouchesOwn(db, s, id, u);
      }
    case Archive(user, task) =>
      if Step(s, e) != s {
        UpdateTouchesOwn(db, s, task, s.db.tasks[task].(status := Archived), u);
      }
    case ReleasePriority(user, task) =>
      if Step(s, e) != s {
        UpdateTouchesOwn(db, s, task, s.db.tasks[task].(priority := false), u);
      }
    case Snooze(task) =>
      if Step(s, e) != s {
        UpdateTouchesOwn(db, s, task, s.db.tasks[task].(status := Snoozed), u);
      }
    case _ =>
  }

  /** Over any interleaving of other users' requests, every task, budget and refund of a user stays as it is. */
  lemma {:induction false} StrangersChangeNothing(db: Db, es: seq<Event>, u: int)
    requires forall e :: e in es ==> Foreign(e, u, db.tasks)
    ensures Untouched(db, Run(State(db, map[]), es), u)
  {
    if es != [] {
      var n := |es| - 1;
      StrangersChangeNothing(db, es[..n], u);
      StepTouchesOwn(db, Run(State(db, map[]), es[..n]), es[n], u);
    }
  }

  // ---- what is written ----

  /** Archiving and releasing write one column of the owner's row, or nothing. */
  lemma SingleUpdates(s: State, user: int, task: nat)
    ensures var s' := Step(s, Archive(user, task));
      s' == if task < |s.db.tasks| && s.db.tasks[task].slot.user == user && NobodyHoldsTask(s, task)
            then s.(db := s.db.(tasks := s.db.tasks[task := s.db.tasks[task].(status := Archived)])) else s
    ensures var s' := Step(s, ReleasePriority(user, task));
      s' == if task < |s.db.tasks| && s.db.tasks[task].slot.user == user && NobodyHoldsTask(s, task)
            then s.(db := s.db.(tasks := s.db.tasks[task := s.db.tasks[task].(priority := false)])) else s
  {
    if task < |s.db.tasks| {
      var t := s.db.tasks[task];
      assert t.status == Archived ==> s.db.tasks[task := t.(status := Archived)] == s.db.tasks;
      assert !t.priority ==> s.db.tasks[task := t.(priority := false)] == s.db.tasks;
    }
  }

  /** An accepted action changes nothing but its row, which then shows what the action asks for; FINISH takes over
      a reported time and completes the row, and the others leave all but the timer. */
  lemma ActionWrites(s: State, id: TxId, later: int)
    requires id in s.txs && s.txs[id].request.Act? && s.txs[id].stage.TaskLocked?
    requires s.txs[id].request.task < |s.db.tasks|
    requires var r := s.txs[id].request; Transition(DisplayOf(s.db.tasks[r.task], r.now), r.action).Some?
    ensures var r, s' := s.txs[id].request, Step(s, Advance(id));
      && |s'.db.tasks| == |s.db.tasks|
      && s'.db == s.db.(tasks := s.db.tasks[r.task := s'.db.tasks[r.task]]) && s'.txs == s.txs - {id}
      && var t, t' := s.db.tasks[r.task], s'.db.tasks[r.task];
      && (r.action != FinishAction ==> t' == t.(timer := t'.timer))
      && (r.action == FinishAction ==>
        && t' == t.(status := Completed, timer := TimerCompleted, elapsed := t'.elapsed)
        && t'.elapsed == if r.reported.Some? then r.reported else t.elapsed)
      && DisplayOf(t', later) == match r.action
        case StartAction => ActiveDisplay
        case PauseAction => PausedDisplay
        case ResumeAction => ActiveDisplay
        case FinishAction => CompletedDisplay
  {
    var r := s.txs[id].request;
    DisplaysFollowActions(s.db.tasks[r.task], r.action, r.now, later);
  }
}
