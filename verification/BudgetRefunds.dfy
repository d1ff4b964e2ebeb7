/** The refund ledger against the completed rows: when the refunds recorded for a task are the time it left unspent. */
module BudgetRefunds {
  import opened Wrappers
  import opened TaskTable
  import opened TaskTransitions
  import opened BudgetProtocol
  import opened BudgetAdmission
  import opened BudgetLimits

  /** Seconds recorded for one task. */
  function RefundedFor(refunds: seq<Refund>, task: nat): int {
    if refunds == [] then 0
    else
      var last := refunds[|refunds| - 1];
      RefundedFor(refunds[..|refunds| - 1], task) + (if last.task == task then last.seconds else 0)
  }

  function Saved(estimate: Option<int>, elapsed: Option<int>): nat {
    var saved := estimate.GetOr(0) - elapsed.GetOr(0);
    if saved > 0 then saved else 0
  }

  /** What a completed task left of its estimate. */
  function Unspent(t: Task): nat {
    if t.status == Completed then Saved(t.estimate, t.elapsed) else 0
  }

  /** Every refund names a task that exists, and each task was refunded what it left unspent. */
  predicate RefundsMatch(db: Db) {
    && (forall i :: 0 <= i < |db.refunds| ==> db.refunds[i].task < |db.tasks|)
    && (forall task :: 0 <= task < |db.tasks| ==> RefundedFor(db.refunds, task) == Unspent(db.tasks[task]))
  }

  /** What a caller can read in the row before the write: a completion needs a task that has left nothing
      unspent so far; FINISH, which records no refund, must report the whole estimate; and archiving
      needs a task that left nothing unspent. */
  predicate RefundsFit(s: State, e: Event) {
    if e.Archive? then
      Step(s, e) != s ==> Unspent(s.db.tasks[e.task]) == 0
    else if e.Advance? && e.tx in s.txs then
      var r := s.txs[e.tx].request;
      (r.Complete? || r.Act?) && r.task < |s.db.tasks| && Completes(s, e, r.task) ==>
        if r.Complete? then Unspent(s.db.tasks[r.task]) == 0
        else Saved(s.db.tasks[r.task].estimate, ElapsedAfter(s.db.tasks[r.task], r)) == 0
    else true
  }

  lemma RefundAdded(refunds: seq<Refund>, r: Refund, task: nat)
    ensures RefundedFor(refunds + [r], task) == RefundedFor(refunds, task) + (if r.task == task then r.seconds else 0)
  {
    assert (refunds + [r])[..|refunds|] == refunds;
  }

  lemma {:induction false} NothingForNewcomers(refunds: seq<Refund>, task: nat)
    requires forall i :: 0 <= i < |refunds| ==> refunds[i].task < task
    ensures RefundedFor(refunds, task) == 0
  {
    if refunds != [] {
      NothingForNewcomers(refunds[..|refunds| - 1], task);
    }
  }

  lemma RowKeepsMatch(db: Db, task: nat, t: Task)
    requires RefundsMatch(db) && task < |db.tasks|
    ensures RefundsMatch(db.(tasks := db.tasks[task := t])) <==> Unspent(t) == Unspent(db.tasks[task])
  {
    var db' := db.(tasks := db.tasks[task := t]);
    assert db'.tasks[task] == t;
  }

  lemma CompletionKeepsMatch(db: Db, user: int, task: nat, seconds: int)
    requires RefundsMatch(db) && task < |db.tasks|
    ensures var t := db.tasks[task];
      RefundsMatch(db.(tasks := db.tasks[task := CompletedTask(t, seconds)],
                       refunds := RefundsAfter(db, user, task, seconds)))
      <==> Unspent(t) == 0
  {
    var t := db.tasks[task];
    var db' := db.(tasks := db.tasks[task := CompletedTask(t, seconds)],
                   refunds := RefundsAfter(db, user, task, seconds));
    var saved := Saved(t.estimate, Some(seconds));
    forall k | 0 <= k < |db.tasks|
      ensures RefundedFor(db'.refunds, k) == Unspent(db.tasks[k]) + (if k == task then saved else 0)
    {
      RefundAdded(db.refunds, Refund(user, task, saved), k);
    }
    assert Unspent(db'.tasks[task]) == saved;
  }

  lemma CreateKeepsMatch(s: State, e: Event)
    requires RefundsMatch(s.db) && CommitsCreate(s, e)
    ensures RefundsMatch(Step(s, e).db)
  {
    NothingForNewcomers(s.db.refunds, |s.db.tasks|);
  }

  lemma TaskStepMatchesExactly(s: State, e: Event)
    requires RefundsMatch(s.db) && e.Advance? && e.tx in s.txs
    requires s.txs[e.tx].request.Complete? || s.txs[e.tx].request.Act?
    ensures RefundsMatch(Step(s, e).db) <==> RefundsFit(s, e)
  {
    var tx := s.txs[e.tx];
    var r := tx.request;
    if tx.stage.TaskLocked? && r.task < |s.db.tasks| {
      var t := s.db.tasks[r.task];
      if r.Complete? {
        CompletionKeepsMatch(s.db, r.user, r.task, r.seconds);
      } else if Finishes(t, r) {
        RowKeepsMatch(s.db, r.task, FinishedTask(t, r.reported));
      } else if r.action != FinishAction && Transition(DisplayOf(t, r.now), r.action).Some? {
        RowKeepsMatch(s.db, r.task, t.(timer := Transition(DisplayOf(t, r.now), r.action).value));
      }
    }
  }

  lemma RowUpdateMatchesExactly(s: State, e: Event)
    requires RefundsMatch(s.db) && (e.Archive? || e.ReleasePriority? || e.Snooze?)
    ensures RefundsMatch(Step(s, e).db) <==> RefundsFit(s, e)
  {
    if e.task < |s.db.tasks| {
      var t := s.db.tasks[e.task];
      RowKeepsMatch(s.db, e.task, t.(status := Archived));
      RowKeepsMatch(s.db, e.task, t.(status := Snoozed));
      RowKeepsMatch(s.db, e.task, t.(priority := false));
    }
  }

  /** From matching tables, a step keeps every task's refunds equal to its unspent time if and only if it fits. */
  lemma StepMatchesExactly(s: State, e: Event)
    requires RefundsMatch(s.db)
    ensures RefundsMatch(Step(s, e).db) <==> RefundsFit(s, e)
  {
    if e.Archive? || e.ReleasePriority? || e.Snooze? {
      RowUpdateMatchesExactly(s, e);
    } else if CommitsCreate(s, e) {
      CreateKeepsMatch(s, e);
    } else if e.Advance? && e.tx in s.txs && (s.txs[e.tx].request.Complete? || s.txs[e.tx].request.Act?) {
      TaskStepMatchesExactly(s, e);
    }
  }

  // ---- over any run ----

  ghost predicate AlwaysMatches(s: State, es: seq<Event>) {
    forall n :: 0 <= n <= |es| ==> RefundsMatch(Run(s, es[..n]).db)
  }

  ghost predicate AllFit(s: State, es: seq<Event>) {
    forall n :: 0 <= n < |es| ==> RefundsFit(Run(s, es[..n]), es[n])
  }

  lemma Prefix(s: State, es: seq<Event>, n: nat)
    requires n < |es|
    ensures Run(s, es[..n + 1]) == Step(Run(s, es[..n]), es[n])
  {
    assert es[..n + 1][..n] == es[..n];
  }

  lemma {:induction false} FittingPrefixMatches(s: State, es: seq<Event>, n: nat)
    requires RefundsMatch(s.db) && AllFit(s, es) && n <= |es|
    ensures RefundsMatch(Run(s, es[..n]).db)
  {
    if n > 0 {
      FittingPrefixMatches(s, es, n - 1);
      Prefix(s, es, n - 1);
      StepMatchesExactly(Run(s, es[..n - 1]), es[n - 1]);
    }
  }

  /** Over every interleaving, each task's recorded refunds are its unspent time in every state if and only if
      every completion, FINISH and archiving fits when it is written. */
  lemma RefundsMatchExactly(s: State, es: seq<Event>)
    requires RefundsMatch(s.db)
    ensures AlwaysMatches(s, es) <==> AllFit(s, es)
  {
    if AllFit(s, es) {
      forall n | 0 <= n <= |es| ensures RefundsMatch(Run(s, es[..n]).db) {
        FittingPrefixMatches(s, es, n);
      }
    }
    if AlwaysMatches(s, es) {
      forall n | 0 <= n < |es| ensures RefundsFit(Run(s, es[..n]), es[n]) {
        Prefix(s, es, n);
        assert RefundsMatch(Run(s, es[..n]).db) && RefundsMatch(Run(s, es[..n + 1]).db);
        StepMatchesExactly(Run(s, es[..n]), es[n]);
      }
    }
  }

  // ---- an early FINISH ----

  const EARLY_FINISH := [Begin(0, Act(1, 0, FinishAction, Some(20), 0)), Advance(0), Advance(0)]

  /** A 60-second task is finished after 20 seconds: 40 are unspent, and none is refunded. */
  lemma EarlyFinishIsNotRefunded()
    ensures RefundsMatch(RUNNING_DAY.db)
    ensures var db := Run(RUNNING_DAY, EARLY_FINISH).db;
      |db.tasks| == 1 && Unspent(db.tasks[0]) == 40 && RefundedFor(db.refunds, 0) == 0 && !RefundsMatch(db)
  {
    var r := Act(1, 0, FinishAction, Some(20), 0);
    var es := EARLY_FINISH;
    assert es[..2][..1][..0] == [] && es[..2][..1] == [es[0]] && es[..2] == [es[0], es[1]];
    assert Run(RUNNING_DAY, es[..2][..1]) == RUNNING_DAY.(txs := map[0 := Tx(r, Begun)]);
    assert Run(RUNNING_DAY, es[..2]) == RUNNING_DAY.(txs := map[0 := Tx(r, TaskLocked)]);
  }
}
