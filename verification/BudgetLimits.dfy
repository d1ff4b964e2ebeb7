/** Deadlock freedom, and what happens when a caller breaks an assumption. */
module BudgetLimits {
  import opened Wrappers
  import opened TaskTable
  import opened TaskTransitions
  import opened BudgetProtocol
  import opened BudgetSafety

  /** The row that `r` must lock is locked by `tx`. */
  predicate HoldsRowOf(tx: Tx, r: Request) {
    if r.Complete? || r.Act? then HoldsTask(tx, r.task) else HoldsBudget(tx, r.slot)
  }

  /** A transaction that cannot advance waits for the holder of its row, and that one can:
      no wait is longer than one link, so no interleaving deadlocks. */
  lemma BlockedByRunnable(s: State, id: TxId)
    requires Inv(s) && id in s.txs && Step(s, Advance(id)) == s
    ensures exists j :: j in s.txs && j != id && HoldsRowOf(s.txs[j], s.txs[id].request) && Step(s, Advance(j)) != s
  {
    var tx := s.txs[id];
    assert ReadsHold(s.db, tx);
    assert forall j | j in s.txs && j != id :: !SameBudgetLock(tx, s.txs[j]);
    if tx.request.Complete? || tx.request.Act? {
      var j :| j in s.txs && j != id && HoldsTask(s.txs[j], tx.request.task);
      HolderRuns(s, j);
    } else if !tx.stage.ConsumedRead? {
      var j :| j in s.txs && j != id && HoldsBudget(s.txs[j], tx.request.slot);
      HolderRuns(s, j);
    }
  }

  lemma HolderRuns(s: State, j: TxId)
    requires Inv(s) && j in s.txs
    requires SameBudgetLock(s.txs[j], s.txs[j]) || SameTaskLock(s.txs[j], s.txs[j])
    ensures Step(s, Advance(j)) != s
  {
    var tx := s.txs[j];
    assert ReadsHold(s.db, tx);
    if tx.request.Create? || tx.request.SetBudget? {
      forall i | i in s.txs && i != j ensures !HoldsBudget(s.txs[i], tx.request.slot) {
        assert !SameBudgetLock(tx, s.txs[i]);
      }
    }
  }

  // ---- runs written out event by event ----

  lemma RunOneMore(s: State, es: seq<Event>, e: Event)
    ensures Run(s, es + [e]) == Step(Run(s, es), e)
  {
    assert (es + [e])[..|es|] == es;
  }

  predicate ReportsAtLeast(es: seq<Event>, v: int) {
    forall e :: e in es && e.Begin? && e.request.Act? && e.request.reported.Some? ==> v <= e.request.reported.value
  }

  const DAY := Slot(1, 1)

  /** One running 60-second task in a 120-second budget. */
  const RUNNING_DAY := State(
    Db([Task(DAY, Pending, TimerRunning, Some(60), Some(0), false, None)], map[DAY := 120], []), map[])

  function ExampleCreate(duration: int): Request {
    Create(DAY, duration, false, None)
  }

  const BAD_REPORT := [Begin(0, Act(1, 0, FinishAction, Some(-1), 0)), Advance(0), Advance(0)]

  function Turns(n: nat): seq<Event> {
    if n == 0 then [] else Turns(n - 1) + [Advance(1)]
  }

  /** FINISH reports -1 second, then a 121-second task is created. */
  const FATAL_RUN := BAD_REPORT + [Begin(1, ExampleCreate(121))] + Turns(6)

  lemma NegativeReportOverallocates()
    ensures !WithinBudget(Run(RUNNING_DAY, FATAL_RUN).db)
  {
    var s3 := FinishExample(BAD_REPORT);
    CreateExample(RUNNING_DAY, s3, BAD_REPORT, 121);
    var end := Run(RUNNING_DAY, FATAL_RUN);
    SumsAfterInsert(s3.db.tasks, NewTask(ExampleCreate(121)), DAY);
    assert Allocated(end.db.tasks, DAY) == 121;
    assert BudgetOf(end.db, DAY) == 120;
  }

  lemma FinishExample(es: seq<Event>) returns (s: State)
    requires es == [Begin(0, Act(1, 0, FinishAction, Some(-1), 0)), Advance(0), Advance(0)]
    ensures s == Run(RUNNING_DAY, es)
    ensures s ==
      State(Db([Task(DAY, Completed, TimerCompleted, Some(60), Some(-1), false, None)], map[DAY := 120], []), map[])
    ensures Allocated(s.db.tasks, DAY) == 0 && Consumed(s.db.tasks, DAY) == -1
  {
    var s0 := RUNNING_DAY;
    var r := Act(1, 0, FinishAction, Some(-1), 0);
    var s1 := s0.(txs := map[0 := Tx(r, Begun)]);
    var s2 := s0.(txs := map[0 := Tx(r, TaskLocked)]);
    s := State(Db([FinishedTask(s0.db.tasks[0], Some(-1))], map[DAY := 120], []), map[]);
    assert es[..2][..1][..0] == [] && es[..2][..1] == [es[0]] && es[..2] == [es[0], es[1]];
    assert Run(s0, es[..2][..1]) == s1;
    assert Run(s0, es[..2]) == s2;
    assert s.db.tasks == [] + s.db.tasks;
    SumsAfterInsert([], s.db.tasks[0], DAY);
  }

  /** Where an unhindered create stands after n turns. */
  function StageAt(s: State, n: nat): Stage
    requires n <= 5 && DAY in s.db.budget
  {
    var total, reserved, consumed := s.db.budget[DAY], Allocated(s.db.tasks, DAY), Consumed(s.db.tasks, DAY);
    if n == 0 then Begun
    else if n == 1 then Ensured(false)
    else if n == 2 then BudgetLocked(total)
    else if n == 3 then AllocatedRead(total, reserved)
    else if n == 4 then ConsumedRead(total, reserved, consumed)
    else Admitted(total, reserved, consumed)
  }

  predicate Fits(s: State, duration: int) {
    && s.txs == map[] && DAY in s.db.budget
    && MIN_DURATION_SEC <= duration <= MAX_DURATION_SEC
    && duration <= BudgetOf(s.db, DAY) - Allocated(s.db.tasks, DAY) - Consumed(s.db.tasks, DAY)
  }

  /** The create alone, at its n-th stage. */
  function Creating(s: State, duration: int, n: nat): State
    requires n <= 5 && DAY in s.db.budget
  {
    s.(txs := map[1 := Tx(ExampleCreate(duration), StageAt(s, n))])
  }

  lemma FirstTurn(s: State, duration: int)
    requires Fits(s, duration)
    ensures Step(s, Begin(1, ExampleCreate(duration))) == Creating(s, duration, 0)
  {
  }

  lemma NextTurn(s: State, duration: int, n: nat)
    requires Fits(s, duration) && n < 5
    ensures Step(Creating(s, duration, n), Advance(1)) == Creating(s, duration, n + 1)
  {
  }

  lemma LastTurn(s: State, duration: int)
    requires Fits(s, duration)
    ensures Step(Creating(s, duration, 5), Advance(1)).db
         == s.db.(tasks := s.db.tasks + [NewTask(ExampleCreate(duration))])
  {
  }

  lemma {:induction false} AfterTurns(s0: State, s: State, prefix: seq<Event>, duration: int, n: nat)
    requires Fits(s, duration) && s == Run(s0, prefix) && n <= 5
    ensures Run(s0, prefix + [Begin(1, ExampleCreate(duration))] + Turns(n)) == Creating(s, duration, n)
  {
    var begun := prefix + [Begin(1, ExampleCreate(duration))];
    if n == 0 {
      RunOneMore(s0, prefix, Begin(1, ExampleCreate(duration)));
      FirstTurn(s, duration);
      assert begun + Turns(0) == begun;
    } else {
      AfterTurns(s0, s, prefix, duration, n - 1);
      NextTurn(s, duration, n - 1);
      RunOneMore(s0, begun + Turns(n - 1), Advance(1));
      assert begun + Turns(n) == begun + Turns(n - 1) + [Advance(1)];
    }
  }

  lemma CreateExample(s0: State, s: State, prefix: seq<Event>, duration: int)
    requires Fits(s, duration) && s == Run(s0, prefix)
    ensures Run(s0, prefix + [Begin(1, ExampleCreate(duration))] + Turns(6)).db
         == s.db.(tasks := s.db.tasks + [NewTask(ExampleCreate(duration))])
  {
    var begun := prefix + [Begin(1, ExampleCreate(duration))];
    AfterTurns(s0, s, prefix, duration, 5);
    LastTurn(s, duration);
    RunOneMore(s0, begun + Turns(5), Advance(1));
    assert begun + Turns(6) == begun + Turns(5) + [Advance(1)];
  }

  lemma {:induction false} OnlyTurns(n: nat)
    ensures forall e :: e in Turns(n) ==> e == Advance(1)
  {
    if n > 0 {
      OnlyTurns(n - 1);
    }
  }

  /** Reports bounded below by `v` keep every run within budget exactly when `v` is not negative. */
  lemma ReportsDecideSafety(v: int)
    ensures 0 <= v <==>
      forall s, es: seq<Event> :: Initial(s) && ReportsAtLeast(es, v) ==> WithinBudget(Run(s, es).db)
  {
    if 0 <= v {
      forall s, es: seq<Event> | Initial(s) && ReportsAtLeast(es, v) ensures WithinBudget(Run(s, es).db) {
        EveryInterleavingIsSafe(s, es);
      }
    } else {
      NegativeReportOverallocates();
      assert Initial(RUNNING_DAY) by {
        forall k ensures Allocated(RUNNING_DAY.db.tasks, k) <= BudgetOf(RUNNING_DAY.db, k) {
          assert RUNNING_DAY.db.tasks == [] + RUNNING_DAY.db.tasks;
          SumsAfterInsert([], RUNNING_DAY.db.tasks[0], k);
        }
      }
      OnlyTurns(6);
      assert ReportsAtLeast(FATAL_RUN, v);
    }
  }
}
