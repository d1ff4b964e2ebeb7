/** When allocated + consumed stays within the budget, and runs that show each condition is needed. */
module BudgetSolvency {
  import opened Wrappers
  import opened TaskTable
  import opened TaskTransitions
  import opened BudgetProtocol
  import opened BudgetSafety
  import opened BudgetAdmission
  import opened BudgetLimits

  /** No slot's remaining time is negative. */
  ghost predicate Solvent(db: Db) {
    forall k :: Used(db.tasks, k) <= BudgetOf(db, k)
  }

  /** The event is the commit, or the refusal, of a budget change. */
  predicate SettlesBudget(s: State, e: Event) {
    e.Advance? && e.tx in s.txs && s.txs[e.tx].request.SetBudget? && s.txs[e.tx].stage.AllocatedRead?
  }

  /** The new budget is refused, or covers what is used, consumed time included. */
  predicate BudgetCovers(s: State, e: Event)
    requires SettlesBudget(s, e)
  {
    var tx := s.txs[e.tx];
    tx.request.seconds < tx.stage.reserved || Used(s.db.tasks, tx.request.slot) <= tx.request.seconds
  }

  /** setAvailableTime compares with the allocated sum only: it keeps the remaining time from going
      negative if and only if the new budget also covers the consumed time. */
  lemma SetBudgetStaysSolventExactly(s: State, e: Event)
    requires Solvent(s.db) && SettlesBudget(s, e)
    ensures Solvent(Step(s, e).db) <==> BudgetCovers(s, e)
  {
    var r, db' := s.txs[e.tx].request, Step(s, e).db;
    if BudgetCovers(s, e) {
      forall k ensures Used(db'.tasks, k) <= BudgetOf(db', k) {
        assert Used(s.db.tasks, k) <= BudgetOf(s.db, k);
      }
    } else {
      assert Used(db'.tasks, r.slot) > BudgetOf(db', r.slot);
    }
  }

  /** No other event changes a slot's budget. */
  lemma BudgetUnchanged(s: State, e: Event, k: Slot)
    requires Inv(s) && !SettlesBudget(s, e)
    ensures BudgetOf(Step(s, e).db, k) == BudgetOf(s.db, k)
  {
    if e.Advance? && e.tx in s.txs {
      assert ReadsHold(s.db, s.txs[e.tx]);
    }
  }

  lemma CreateStaysSolvent(s: State, e: Event)
    requires AdmissionInv(s) && Solvent(s.db) && CommitsCreate(s, e)
    ensures Solvent(Step(s, e).db)
  {
    var db' := Step(s, e).db;
    AdmittedFits(s, e.tx);
    forall k ensures Used(db'.tasks, k) <= BudgetOf(db', k) {
      assert Used(s.db.tasks, k) <= BudgetOf(s.db, k);
      if k != s.txs[e.tx].request.slot {
        CreateUsesOwnSlot(s, e, k);
        BudgetUnchanged(s, e, k);
      }
    }
  }

  lemma StepStaysSolventExactly(s: State, e: Event)
    requires AdmissionInv(s) && Solvent(s.db) && OrderlyEvent(s, e)
    ensures Solvent(Step(s, e).db) <==> (SettlesBudget(s, e) ==> BudgetCovers(s, e))
  {
    if SettlesBudget(s, e) {
      SetBudgetStaysSolventExactly(s, e);
    } else if CommitsCreate(s, e) {
      CreateStaysSolvent(s, e);
    } else {
      forall k ensures Used(Step(s, e).db.tasks, k) <= BudgetOf(Step(s, e).db, k) {
        assert Used(s.db.tasks, k) <= BudgetOf(s.db, k);
        UseNeverRises(s, e, k);
        BudgetUnchanged(s, e, k);
      }
    }
  }

  ghost predicate AlwaysSolvent(s: State, es: seq<Event>) {
    forall n :: 0 <= n <= |es| ==> Solvent(Run(s, es[..n]).db)
  }

  ghost predicate BudgetsCover(s: State, es: seq<Event>) {
    forall n :: 0 <= n < |es| && SettlesBudget(Run(s, es[..n]), es[n]) ==> BudgetCovers(Run(s, es[..n]), es[n])
  }

  lemma Prefix(s: State, es: seq<Event>, n: nat)
    requires n < |es|
    ensures Run(s, es[..n + 1]) == Step(Run(s, es[..n]), es[n])
  {
    assert es[..n + 1][..n] == es[..n];
  }

  lemma OrderlyPrefix(s: State, es: seq<Event>, n: nat)
    requires OrderlyRun(s, es) && n <= |es|
    ensures OrderlyRun(s, es[..n])
  {
    forall m | 0 <= m < n ensures OrderlyEvent(Run(s, es[..n][..m]), es[..n][m]) {
      assert es[..n][..m] == es[..m];
      assert OrderlyEvent(Run(s, es[..m]), es[m]);
    }
  }

  /** Over every run with nonnegative reports and covered completions, no slot is overdrawn in any state
      if and only if every budget change that commits covers what is used at that moment. */
  lemma SolventExactly(s: State, es: seq<Event>)
    requires Initial(s) && Solvent(s.db)
    requires OrderlyRun(s, es) && forall e :: e in es ==> HonestEvent(e)
    ensures AlwaysSolvent(s, es) <==> BudgetsCover(s, es)
  {
    if BudgetsCover(s, es) {
      forall n | 0 <= n <= |es| ensures Solvent(Run(s, es[..n]).db) {
        CoveredPrefixSolvent(s, es, n);
      }
    }
    if AlwaysSolvent(s, es) {
      SolventSetsCover(s, es);
    }
  }

  lemma SolventSetsCover(s: State, es: seq<Event>)
    requires AlwaysSolvent(s, es)
    ensures BudgetsCover(s, es)
  {
    forall n | 0 <= n < |es| && SettlesBudget(Run(s, es[..n]), es[n]) ensures BudgetCovers(Run(s, es[..n]), es[n]) {
      Prefix(s, es, n);
      assert Solvent(Run(s, es[..n]).db) && Solvent(Run(s, es[..n + 1]).db);
      SetBudgetStaysSolventExactly(Run(s, es[..n]), es[n]);
    }
  }

  lemma {:induction false} CoveredPrefixSolvent(s: State, es: seq<Event>, n: nat)
    requires Initial(s) && Solvent(s.db) && n <= |es|
    requires OrderlyRun(s, es) && (forall e :: e in es ==> HonestEvent(e)) && BudgetsCover(s, es)
    ensures Solvent(Run(s, es[..n]).db)
  {
    if n > 0 {
      CoveredPrefixSolvent(s, es, n - 1);
      AdmissionAt(s, es, n - 1);
      Prefix(s, es, n - 1);
      StepStaysSolventExactly(Run(s, es[..n - 1]), es[n - 1]);
    }
  }

  lemma AdmissionAt(s: State, es: seq<Event>, n: nat)
    requires Initial(s) && OrderlyRun(s, es) && (forall e :: e in es ==> HonestEvent(e)) && n < |es|
    ensures AdmissionInv(Run(s, es[..n])) && OrderlyEvent(Run(s, es[..n]), es[n])
  {
    OrderlyPrefix(s, es, n);
    RunKeepsAdmission(s, es[..n]);
  }

  // ---- a budget change that overdraws ----

  const DONE := [Begin(0, Complete(1, 0, 60)), Advance(0), Advance(0)]

  const DONE_DAY := State(
    Db([Task(DAY, Completed, TimerRunning, Some(60), Some(60), false, None)], map[DAY := 120], []), map[])

  /** The running 60-second task is completed on time, then the budget is set to 0. */
  const SHRINKING_RUN := DONE + [Begin(1, SetBudget(DAY, 0))] + Turns(4)

  lemma TaskDone()
    ensures Run(RUNNING_DAY, DONE) == DONE_DAY
    ensures Allocated(DONE_DAY.db.tasks, DAY) == 0 && Consumed(DONE_DAY.db.tasks, DAY) == 60
  {
    var r := Complete(1, 0, 60);
    assert DONE[..2][..1][..0] == [] && DONE[..2][..1] == [DONE[0]] && DONE[..2] == [DONE[0], DONE[1]];
    assert Run(RUNNING_DAY, DONE[..2][..1]) == RUNNING_DAY.(txs := map[0 := Tx(r, Begun)]);
    assert Run(RUNNING_DAY, DONE[..2]) == RUNNING_DAY.(txs := map[0 := Tx(r, TaskLocked)]);
    assert DONE_DAY.db.tasks == [] + DONE_DAY.db.tasks;
    SumsAfterInsert([], DONE_DAY.db.tasks[0], DAY);
  }

  function Shrinking(stage: Stage): State {
    DONE_DAY.(txs := map[1 := Tx(SetBudget(DAY, 0), stage)])
  }

  lemma ShrinkTurns()
    ensures Step(DONE_DAY, Begin(1, SetBudget(DAY, 0))) == Shrinking(Begun)
    ensures Step(Shrinking(Begun), Advance(1)) == Shrinking(Ensured(false))
    ensures Step(Shrinking(Ensured(false)), Advance(1)) == Shrinking(BudgetLocked(120))
    ensures Step(Shrinking(BudgetLocked(120)), Advance(1)) == Shrinking(AllocatedRead(120, 0))
    ensures Step(Shrinking(AllocatedRead(120, 0)), Advance(1)).db == DONE_DAY.db.(budget := map[DAY := 0])
  {
    TaskDone();
    assert map[DAY := 120][DAY := 0] == map[DAY := 0];
  }

  /** Both steps are accepted, and a minute more is used than the budget holds. */
  lemma ShrinkingOverdraws()
    ensures var db := Run(RUNNING_DAY, SHRINKING_RUN).db;
      WithinBudget(db) && Used(db.tasks, DAY) == 60 && BudgetOf(db, DAY) == 0 && !Solvent(db)
  {
    var begun := DONE + [Begin(1, SetBudget(DAY, 0))];
    TaskDone();
    ShrinkTurns();
    RunOneMore(RUNNING_DAY, DONE, Begin(1, SetBudget(DAY, 0)));
    assert begun + Turns(0) == begun;
    MoreTurns(RUNNING_DAY, begun, 0);
    MoreTurns(RUNNING_DAY, begun, 1);
    MoreTurns(RUNNING_DAY, begun, 2);
    MoreTurns(RUNNING_DAY, begun, 3);
    var db := Run(RUNNING_DAY, SHRINKING_RUN).db;
    forall k ensures Allocated(db.tasks, k) <= BudgetOf(db, k) {
      assert db.tasks == [] + db.tasks;
      SumsAfterInsert([], db.tasks[0], k);
    }
  }

  lemma MoreTurns(s: State, es: seq<Event>, n: nat)
    ensures Run(s, es + Turns(n + 1)) == Step(Run(s, es + Turns(n)), Advance(1))
  {
    RunOneMore(s, es + Turns(n), Advance(1));
    assert es + Turns(n + 1) == es + Turns(n) + [Advance(1)];
  }

  // ---- a completion that is not covered ----

  /** One archived 60-second task in a 120-second budget. */
  const ARCHIVED_DAY := State(
    Db([Task(DAY, Archived, TimerIdle, Some(60), Some(0), false, None)], map[DAY := 120], []), map[])

  /** A 120-second create has read both sums when the archived task is completed. */
  const REVIVING_RUN :=
    [Begin(1, ExampleCreate(120))] + Turns(5) + [Begin(0, Complete(1, 0, 60)), Advance(0), Advance(0)]

  lemma ArchivedSums(k: Slot)
    ensures Allocated(ARCHIVED_DAY.db.tasks, k) == 0 && Consumed(ARCHIVED_DAY.db.tasks, k) == 0
  {
    assert ARCHIVED_DAY.db.tasks == [] + ARCHIVED_DAY.db.tasks;
    SumsAfterInsert([], ARCHIVED_DAY.db.tasks[0], k);
  }

  lemma Reviving(s: State)
    requires s == Creating(ARCHIVED_DAY, 120, 5)
    ensures var done := ARCHIVED_DAY.db.tasks[0].(status := Completed, elapsed := Some(60));
      Run(s, [Begin(0, Complete(1, 0, 60)), Advance(0), Advance(0)])
      == s.(db := s.db.(tasks := [done]))
  {
    var es := [Begin(0, Complete(1, 0, 60)), Advance(0), Advance(0)];
    var r := Complete(1, 0, 60);
    assert es[..2][..1][..0] == [] && es[..2][..1] == [es[0]] && es[..2] == [es[0], es[1]];
    assert Run(s, es[..2][..1]) == s.(txs := s.txs[0 := Tx(r, Begun)]);
    assert Run(s, es[..2]) == s.(txs := s.txs[0 := Tx(r, TaskLocked)]);
    assert s.txs[0 := Tx(r, TaskLocked)] - {0} == s.txs;
  }

  lemma {:induction false} RunAppend(s: State, xs: seq<Event>, ys: seq<Event>)
    ensures Run(s, xs + ys) == Run(Run(s, xs), ys)
  {
    if ys == [] {
      assert xs + ys == xs;
    } else {
      var n := |ys| - 1;
      RunAppend(s, xs, ys[..n]);
      assert (xs + ys)[..|xs + ys| - 1] == xs + ys[..n];
    }
  }

  /** Completing an archived task between a create's reads and its commit is not covered: the create,
      admitted on the old sums, is about to overdraw the budget. */
  lemma RevivedTaskOverdraws()
    ensures Initial(ARCHIVED_DAY) && Solvent(ARCHIVED_DAY.db) && forall e :: e in REVIVING_RUN ==> HonestEvent(e)
    ensures var now := Run(ARCHIVED_DAY, REVIVING_RUN);
      1 in now.txs && now.txs[1].request.Create? && now.txs[1].stage.Admitted? && !CommitFits(now, 1)
  {
    forall k ensures Used(ARCHIVED_DAY.db.tasks, k) == 0 {
      ArchivedSums(k);
    }
    OnlyTurns(5);
    var admitted := [Begin(1, ExampleCreate(120))] + Turns(5);
    AfterTurns(ARCHIVED_DAY, ARCHIVED_DAY, [], 120, 5);
    assert [] + [Begin(1, ExampleCreate(120))] + Turns(5) == admitted;
    var s := Creating(ARCHIVED_DAY, 120, 5);
    Reviving(s);
    RunAppend(ARCHIVED_DAY, admitted, [Begin(0, Complete(1, 0, 60)), Advance(0), Advance(0)]);
    var now := Run(ARCHIVED_DAY, REVIVING_RUN);
    assert now.db.tasks == [] + [now.db.tasks[0]];
    SumsAfterInsert([], now.db.tasks[0], DAY);
    assert Used(now.db.tasks, DAY) == 60;
  }
}
