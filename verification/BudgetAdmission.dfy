/** Admission is exact even though completions do not take the budget row's
    lock, and the two assumptions that the service leaves to its callers. */
module BudgetAdmission {
  import opened Wrappers
  import opened TaskTable
  import opened TaskTransitions
  import opened BudgetProtocol
  import opened BudgetSafety

  // ---- completions that never add to a slot's use ----

  /** The guard a caller could check: the task still has time of its own to give back. */
  predicate Harmless(t: Task) {
    && t.estimate.Some?
    && (Active(t) || t.estimate.value <= 0 || (t.status == Completed && t.estimate.value <= t.elapsed.GetOr(0)))
  }

  /** Completing `t` with any report never raises allocated + consumed exactly when `t` is harmless. */
  lemma CompletionHarmlessExactly(t: Task)
    requires NonNegativeRow(t)
    ensures Harmless(t) <==>
      forall seconds :: 0 <= seconds ==>
        ConsumedOf(CompletedTask(t, seconds), t.slot) <= AllocatedOf(t, t.slot) + ConsumedOf(t, t.slot)
  {
    var before := AllocatedOf(t, t.slot) + ConsumedOf(t, t.slot);
    if !Harmless(t) {
      var seconds := if t.estimate.Some? then t.estimate.value else before + 1;
      assert ConsumedOf(CompletedTask(t, seconds), t.slot) > before;
    } else {
      forall seconds | 0 <= seconds ensures ConsumedOf(CompletedTask(t, seconds), t.slot) <= before {
      }
    }
  }

  /** The transition table lets this FINISH through. */
  predicate Finishes(t: Task, r: Request) {
    r.Act? && r.action == FinishAction && Transition(DisplayOf(t, r.now), FinishAction).Some?
  }

  /** The event commits a completion of this row. A refused FINISH writes nothing and is none. */
  predicate Completes(s: State, e: Event, task: nat)
    requires task < |s.db.tasks|
  {
    && e.Advance? && e.tx in s.txs && s.txs[e.tx].stage.TaskLocked?
    && (s.txs[e.tx].request.Complete? || Finishes(s.db.tasks[task], s.txs[e.tx].request))
    && s.txs[e.tx].request.task == task
  }

  /** The elapsed time a completion leaves in the row. */
  function ElapsedAfter(t: Task, r: Request): Option<int>
    requires r.Complete? || r.Act?
  {
    if r.Complete? then Some(r.seconds) else if r.reported.Some? then r.reported else t.elapsed
  }

  /** What the completed row will be charged is no more than it takes up now. */
  predicate Covered(t: Task, r: Request)
    requires r.Complete? || r.Act?
  {
    Charge(ElapsedAfter(t, r), t.estimate) <= AllocatedOf(t, t.slot) + ConsumedOf(t, t.slot)
  }

  /** Harmless tasks are those for which every report is covered. */
  lemma HarmlessIsCovered(t: Task, r: Request)
    requires NonNegativeRow(t) && Harmless(t) && (r.Complete? || r.Act?) && HonestRequest(r)
    ensures Covered(t, r)
  {
    CompletionHarmlessExactly(t);
    var seconds := ElapsedAfter(t, r).GetOr(0);
    assert ConsumedOf(CompletedTask(t, seconds), t.slot) == Charge(ElapsedAfter(t, r), t.estimate);
  }

  /** No completion that commits in this event charges more than its row takes up. */
  ghost predicate OrderlyEvent(s: State, e: Event) {
    forall task: nat :: task < |s.db.tasks| && Completes(s, e, task) ==> Covered(s.db.tasks[task], s.txs[e.tx].request)
  }

  /** Every completion that commits in the run is covered. */
  ghost predicate OrderlyRun(s: State, es: seq<Event>) {
    forall n :: 0 <= n < |es| ==> OrderlyEvent(Run(s, es[..n]), es[n])
  }

  // ---- the two reads bound what is used now ----

  predicate PastReads(tx: Tx) {
    tx.request.Create? && (tx.stage.ConsumedRead? || tx.stage.PriorityLocked? || tx.stage.Admitted?)
  }

  predicate UseBounded(db: Db, tx: Tx) {
    PastReads(tx) ==>
      Used(db.tasks, tx.request.slot) <= tx.stage.reserved + tx.stage.consumed
  }

  ghost predicate AdmissionInv(s: State) {
    Inv(s) && forall i :: i in s.txs ==> UseBounded(s.db, s.txs[i])
  }

  lemma ReplacementLowersUse(ts: seq<Task>, i: nat, t': Task, k: Slot)
    requires i < |ts|
    requires t'.slot == ts[i].slot
    requires AllocatedOf(t', t'.slot) + ConsumedOf(t', t'.slot)
          <= AllocatedOf(ts[i], t'.slot) + ConsumedOf(ts[i], t'.slot)
    ensures Used(ts[i := t'], k) <= Used(ts, k)
  {
    SumsAfterUpdate(ts, i, t', k);
  }

  lemma RowUpdateLowersUse(s: State, task: nat, t': Task, k: Slot)
    requires task < |s.db.tasks| && NonNegativeRow(s.db.tasks[task])
    requires t' == s.db.tasks[task].(status := Archived) || t' == s.db.tasks[task].(priority := false)
          || (Active(s.db.tasks[task]) && t' == s.db.tasks[task].(status := Snoozed))
    ensures Used(UpdateRow(s, task, t').db.tasks, k) <= Used(s.db.tasks, k)
  {
    ReplacementLowersUse(s.db.tasks, task, t', k);
  }

  lemma TaskCommitLowersUse(s: State, id: TxId, k: Slot)
    requires Inv(s) && id in s.txs && (s.txs[id].request.Complete? || s.txs[id].request.Act?)
    requires OrderlyEvent(s, Advance(id))
    ensures Used(Step(s, Advance(id)).db.tasks, k) <= Used(s.db.tasks, k)
  {
    var ts' := Step(s, Advance(id)).db.tasks;
    if ts' != s.db.tasks {
      var task := s.txs[id].request.task;
      assert HonestRequest(s.txs[id].request) && NonNegativeRow(s.db.tasks[task]);
      assert Completes(s, Advance(id), task) ==> Covered(s.db.tasks[task], s.txs[id].request);
      ReplacementLowersUse(s.db.tasks, task, ts'[task], k);
    }
  }

  /** The event commits a new task. */
  predicate CommitsCreate(s: State, e: Event) {
    e.Advance? && e.tx in s.txs && s.txs[e.tx].request.Create? && s.txs[e.tx].stage.Admitted?
  }

  /** Unless a harmful completion commits, the only event that raises any slot's use is a creating commit. */
  lemma UseNeverRises(s: State, e: Event, k: Slot)
    requires Inv(s) && OrderlyEvent(s, e)
    requires !CommitsCreate(s, e)
    ensures Used(Step(s, e).db.tasks, k) <= Used(s.db.tasks, k)
  {
    match e
    case Begin(_, _) =>
    case Abort(_) =>
    case Advance(id) =>
      if id in s.txs && (s.txs[id].request.Complete? || s.txs[id].request.Act?) {
        TaskCommitLowersUse(s, id, k);
      }
    case Archive(_, task) =>
      if Step(s, e) != s { RowUpdateLowersUse(s, task, s.db.tasks[task].(status := Archived), k); }
    case ReleasePriority(_, task) =>
      if Step(s, e) != s { RowUpdateLowersUse(s, task, s.db.tasks[task].(priority := false), k); }
    case Snooze(task) =>
      if Step(s, e) != s { RowUpdateLowersUse(s, task, s.db.tasks[task].(status := Snoozed), k); }
  }

  lemma UncoveredRaisesUse(s: State, e: Event, task: nat)
    requires Inv(s) && task < |s.db.tasks| && Completes(s, e, task) && !Covered(s.db.tasks[task], s.txs[e.tx].request)
    ensures var k := s.db.tasks[task].slot;
      Used(Step(s, e).db.tasks, k) > Used(s.db.tasks, k)
  {
    var t' := Step(s, e).db.tasks[task];
    assert Step(s, e).db.tasks == s.db.tasks[task := t'];
    SumsAfterUpdate(s.db.tasks, task, t', s.db.tasks[task].slot);
  }

  /** Apart from creating commits, an event raises no slot's use if and only if it commits no uncovered completion. */
  lemma UseRisesExactly(s: State, e: Event)
    requires Inv(s) && !CommitsCreate(s, e)
    ensures OrderlyEvent(s, e) <==> forall k :: Used(Step(s, e).db.tasks, k) <= Used(s.db.tasks, k)
  {
    if OrderlyEvent(s, e) {
      forall k ensures Used(Step(s, e).db.tasks, k) <= Used(s.db.tasks, k) {
        UseNeverRises(s, e, k);
      }
    } else {
      var task: nat :| task < |s.db.tasks| && Completes(s, e, task) && !Covered(s.db.tasks[task], s.txs[e.tx].request);
      UncoveredRaisesUse(s, e, task);
    }
  }

  /** A creating commit leaves the use of every other slot alone. */
  lemma CreateUsesOwnSlot(s: State, e: Event, k: Slot)
    requires CommitsCreate(s, e) && s.txs[e.tx].request.slot != k
    ensures Used(Step(s, e).db.tasks, k) == Used(s.db.tasks, k)
  {
    SumsAfterInsert(s.db.tasks, NewTask(s.txs[e.tx].request), k);
  }

  /** Whoever is past the reads holds the slot's row, so no other create commits there. */
  lemma NoRivalCreate(s: State, e: Event, j: TxId)
    requires Exclusive(s) && CommitsCreate(s, e) && j in s.txs && PastReads(s.txs[j]) && e.tx != j
    ensures s.txs[e.tx].request.slot != s.txs[j].request.slot
  {
    assert !SameBudgetLock(s.txs[e.tx], s.txs[j]);
  }

  /** A transaction that is not the one stepping keeps its bound. */
  lemma BystanderKeepsBound(s: State, e: Event, j: TxId)
    requires AdmissionInv(s) && OrderlyEvent(s, e)
    requires j in s.txs && PastReads(s.txs[j]) && !(e.Advance? && e.tx == j)
    ensures UseBounded(Step(s, e).db, s.txs[j])
  {
    var k := s.txs[j].request.slot;
    assert UseBounded(s.db, s.txs[j]);
    if CommitsCreate(s, e) {
      NoRivalCreate(s, e, j);
      CreateUsesOwnSlot(s, e, k);
    } else {
      UseNeverRises(s, e, k);
    }
  }

  lemma OwnStepKeepsBound(s: State, id: TxId)
    requires AdmissionInv(s) && id in s.txs && s.txs[id].request.Create?
    requires id in Step(s, Advance(id)).txs
    ensures UseBounded(Step(s, Advance(id)).db, Step(s, Advance(id)).txs[id])
  {
    assert ReadsHold(s.db, s.txs[id]) && UseBounded(s.db, s.txs[id]);
  }

  /** An event touches at most its own transaction. */
  lemma TxAfterStep(s: State, e: Event, j: TxId)
    requires j in Step(s, e).txs
    ensures (j in s.txs && Step(s, e).txs[j] == s.txs[j])
         || Step(s, e).txs[j].stage == Begun
         || (e == Advance(j) && j in s.txs && Step(s, e).txs[j].request == s.txs[j].request)
  {
  }

  lemma StepKeepsOneBound(s: State, e: Event, j: TxId)
    requires AdmissionInv(s) && OrderlyEvent(s, e)
    requires j in Step(s, e).txs
    ensures UseBounded(Step(s, e).db, Step(s, e).txs[j])
  {
    var tx' := Step(s, e).txs[j];
    if PastReads(tx') {
      TxAfterStep(s, e, j);
      if e.Advance? && e.tx == j {
        OwnStepKeepsBound(s, j);
      } else {
        BystanderKeepsBound(s, e, j);
      }
    }
  }

  lemma StepKeepsAdmission(s: State, e: Event)
    requires AdmissionInv(s) && HonestEvent(e) && OrderlyEvent(s, e)
    ensures AdmissionInv(Step(s, e))
  {
    StepKeepsInv(s, e);
    forall j | j in Step(s, e).txs ensures UseBounded(Step(s, e).db, Step(s, e).txs[j]) {
      StepKeepsOneBound(s, e, j);
    }
  }

  lemma {:induction false} RunKeepsAdmission(s: State, es: seq<Event>)
    requires AdmissionInv(s) && OrderlyRun(s, es) && forall e :: e in es ==> HonestEvent(e)
    ensures AdmissionInv(Run(s, es))
  {
    if es != [] {
      var n := |es| - 1;
      forall m | 0 <= m < n ensures OrderlyEvent(Run(s, es[..n][..m]), es[..n][m]) {
        assert es[..n][..m] == es[..m];
        assert OrderlyEvent(Run(s, es[..m]), es[m]);
      }
      RunKeepsAdmission(s, es[..n]);
      assert OrderlyEvent(Run(s, es[..n]), es[n]);
      StepKeepsAdmission(Run(s, es[..n]), es[n]);
    }
  }

  /** A transaction about to commit its task, and what its commit leaves. */
  ghost predicate CommitFits(now: State, id: TxId)
    requires id in now.txs && now.txs[id].request.Create?
  {
    var r, k, after := now.txs[id].request, now.txs[id].request.slot, Step(now, Advance(id)).db;
    && Used(now.db.tasks, k) + r.duration <= BudgetOf(now.db, k)
    && after.tasks == now.db.tasks + [NewTask(r)]
    && Used(after.tasks, k) <= BudgetOf(after, k)
  }

  lemma AdmittedFits(now: State, id: TxId)
    requires AdmissionInv(now) && id in now.txs && now.txs[id].request.Create? && now.txs[id].stage.Admitted?
    ensures CommitFits(now, id)
  {
    var tx := now.txs[id];
    assert ReadsHold(now.db, tx) && UseBounded(now.db, tx);
    SumsAfterInsert(now.db.tasks, NewTask(tx.request), tx.request.slot);
  }

  /** A transaction that is about to commit its task fits what is left at that moment,
      whatever completed between its two reads. */
  lemma AdmissionNeverOverdraws(s: State, es: seq<Event>, id: TxId)
    requires Initial(s) && OrderlyRun(s, es) && forall e :: e in es ==> HonestEvent(e)
    requires id in Run(s, es).txs && Run(s, es).txs[id].request.Create? && Run(s, es).txs[id].stage.Admitted?
    ensures CommitFits(Run(s, es), id)
  {
    RunKeepsAdmission(s, es);
    AdmittedFits(Run(s, es), id);
  }

  // ---- the guard a caller can read ----

  /** The completion's row, read under its lock, is active and has an estimate. */
  ghost predicate CompletesActive(s: State, e: Event) {
    forall task: nat :: task < |s.db.tasks| && Completes(s, e, task) ==>
      Active(s.db.tasks[task]) && s.db.tasks[task].estimate.Some?
  }

  ghost predicate CompletesActiveOnly(s: State, es: seq<Event>) {
    forall n :: 0 <= n < |es| ==> CompletesActive(Run(s, es[..n]), es[n])
  }

  lemma ActiveIsOrderly(s: State, e: Event)
    requires Inv(s) && CompletesActive(s, e)
    ensures OrderlyEvent(s, e)
  {
    forall task: nat | task < |s.db.tasks| && Completes(s, e, task)
      ensures Covered(s.db.tasks[task], s.txs[e.tx].request)
    {
      HarmlessIsCovered(s.db.tasks[task], s.txs[e.tx].request);
    }
  }

  /** When every completion that commits acts on an active task with an estimate, a transaction about to commit
      its task fits what is left at that moment. */
  lemma ActiveCompletionsNeverOverdraw(s: State, es: seq<Event>, id: TxId)
    requires Initial(s) && CompletesActiveOnly(s, es) && forall e :: e in es ==> HonestEvent(e)
    requires id in Run(s, es).txs && Run(s, es).txs[id].request.Create? && Run(s, es).txs[id].stage.Admitted?
    ensures CommitFits(Run(s, es), id)
  {
    forall n | 0 <= n < |es| ensures OrderlyEvent(Run(s, es[..n]), es[n]) {
      RunKeepsInv(s, es[..n]);
      ActiveIsOrderly(Run(s, es[..n]), es[n]);
    }
    AdmissionNeverOverdraws(s, es, id);
  }
}
