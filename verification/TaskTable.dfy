/** The rows of the `tasks` table that the time budget is computed from, and the
    two aggregates over them that admission reads. */
module TaskTable {
  import opened Wrappers

  datatype Status = Pending | Snoozed | Completed | Archived

  datatype TimerStatus = TimerIdle | TimerRunning | TimerPaused | TimerOvertime | TimerCompleted

  /** A budget row's key: one user on one service date. */
  datatype Slot = Slot(user: int, day: int)

  /** One row. A task's id is its position in the table: ids come from a
      sequence and rows are never deleted, only archived. */
  datatype Task = Task(
    slot: Slot,
    status: Status,
    timer: TimerStatus,
    estimate: Option<int>,
    elapsed: Option<int>,
    priority: bool,
    deadline: Option<int>)

  predicate Active(t: Task) {
    t.status == Pending || t.status == Snoozed
  }

  /** What one row adds to SUM(estimated_duration) over the active rows; SUM skips NULL. */
  function AllocatedOf(t: Task, k: Slot): int {
    if t.slot == k && Active(t) then t.estimate.GetOr(0) else 0
  }

  /** LEAST(COALESCE(elapsed_time, 0), estimated_duration); LEAST skips NULL. */
  function Charge(elapsed: Option<int>, estimate: Option<int>): int {
    var e := elapsed.GetOr(0);
    if estimate.Some? && estimate.value < e then estimate.value else e
  }

  /** What one row adds to the consumed sum over the completed rows. */
  function ConsumedOf(t: Task, k: Slot): int {
    if t.slot == k && t.status == Completed then Charge(t.elapsed, t.estimate) else 0
  }

  function Allocated(ts: seq<Task>, k: Slot): int {
    if ts == [] then 0 else Allocated(ts[..|ts| - 1], k) + AllocatedOf(ts[|ts| - 1], k)
  }

  function Consumed(ts: seq<Task>, k: Slot): int {
    if ts == [] then 0 else Consumed(ts[..|ts| - 1], k) + ConsumedOf(ts[|ts| - 1], k)
  }

  /** Seconds of the slot's budget that are spoken for. */
  function Used(ts: seq<Task>, k: Slot): int {
    Allocated(ts, k) + Consumed(ts, k)
  }

  /** What one row takes of its slot's budget, status by status: an unfinished task its estimate, snoozed or not;
      a completed one the smaller of its elapsed time and its estimate; an archived one nothing. */
  lemma ShareByStatus(t: Task, k: Slot)
    ensures t.slot != k ==> AllocatedOf(t, k) == 0 && ConsumedOf(t, k) == 0
    ensures t.slot == k && (t.status == Pending || t.status == Snoozed) ==>
      AllocatedOf(t, k) == t.estimate.GetOr(0) && ConsumedOf(t, k) == 0
    ensures t.slot == k && t.status == Completed && t.estimate.Some? ==>
      && AllocatedOf(t, k) == 0
      && ConsumedOf(t, k) <= t.elapsed.GetOr(0) && ConsumedOf(t, k) <= t.estimate.value
      && (ConsumedOf(t, k) == t.elapsed.GetOr(0) || ConsumedOf(t, k) == t.estimate.value)
    ensures t.slot == k && t.status == Completed && t.estimate.None? ==>
      AllocatedOf(t, k) == 0 && ConsumedOf(t, k) == t.elapsed.GetOr(0)
    ensures t.status == Archived ==> AllocatedOf(t, k) == 0 && ConsumedOf(t, k) == 0
  {
  }

  lemma {:induction false} SumsAfterUpdate(ts: seq<Task>, i: nat, t: Task, k: Slot)
    requires i < |ts|
    ensures Allocated(ts[i := t], k) == Allocated(ts, k) - AllocatedOf(ts[i], k) + AllocatedOf(t, k)
    ensures Consumed(ts[i := t], k) == Consumed(ts, k) - ConsumedOf(ts[i], k) + ConsumedOf(t, k)
  {
    var n := |ts| - 1;
    if i == n {
      assert ts[i := t][..n] == ts[..n];
    } else {
      assert ts[i := t][..n] == ts[..n][i := t];
      SumsAfterUpdate(ts[..n], i, t, k);
    }
  }

  lemma SumsAfterInsert(ts: seq<Task>, t: Task, k: Slot)
    ensures Allocated(ts + [t], k) == Allocated(ts, k) + AllocatedOf(t, k)
    ensures Consumed(ts + [t], k) == Consumed(ts, k) + ConsumedOf(t, k)
  {
    assert (ts + [t])[..|ts|] == ts;
  }

  /** Estimates obey the column's CHECK constraint and no elapsed time is negative. */
  predicate NonNegativeRow(t: Task) {
    && (t.estimate.Some? ==> 0 <= t.estimate.value)
    && 0 <= t.elapsed.GetOr(0)
  }

  lemma {:induction false} SumsNonNegative(ts: seq<Task>, k: Slot)
    requires forall i :: 0 <= i < |ts| ==> NonNegativeRow(ts[i])
    ensures 0 <= Allocated(ts, k) && 0 <= Consumed(ts, k)
  {
    if ts != [] {
      SumsNonNegative(ts[..|ts| - 1], k);
    }
  }

  /** The task that blocks a new priority task: flagged, and neither completed nor archived. */
  predicate ActivePriority(t: Task, k: Slot) {
    t.slot == k && t.priority && t.status != Completed && t.status != Archived
  }

  predicate HasActivePriority(ts: seq<Task>, k: Slot) {
    exists i :: 0 <= i < |ts| && ActivePriority(ts[i], k)
  }

  predicate AtMostOnePriority(ts: seq<Task>) {
    forall i, j :: 0 <= i < j < |ts| ==>
      !(ActivePriority(ts[i], ts[i].slot) && ActivePriority(ts[j], ts[i].slot))
  }
}

/** The status machine behind PATCH /api/tasks/:id/status. */
module TaskTransitions {
  import opened Wrappers
  import opened TaskTable

  datatype Display = IdleDisplay | ActiveDisplay | PausedDisplay | OverdueDisplay | CompletedDisplay

  datatype Action = StartAction | PauseAction | ResumeAction | FinishAction

  function DisplayOf(t: Task, now: int): Display {
    var overdue := t.deadline.Some? && t.deadline.value < now && t.status != Completed;
    if t.status == Completed || t.timer == TimerCompleted then CompletedDisplay
    else if t.timer == TimerRunning || t.timer == TimerOvertime then ActiveDisplay
    else if t.timer == TimerPaused then PausedDisplay
    else if overdue then OverdueDisplay
    else IdleDisplay
  }

  /** The timer status an allowed action leads to; None when the table has no entry. */
  function Transition(current: Display, action: Action): Option<TimerStatus> {
    match (action, current)
    case (StartAction, IdleDisplay) => Some(TimerRunning)
    case (PauseAction, ActiveDisplay) => Some(TimerPaused)
    case (ResumeAction, PausedDisplay) => Some(TimerRunning)
    case (ResumeAction, OverdueDisplay) => Some(TimerRunning)
    case (FinishAction, ActiveDisplay) => Some(TimerCompleted)
    case (FinishAction, PausedDisplay) => Some(TimerCompleted)
    case (FinishAction, OverdueDisplay) => Some(TimerCompleted)
    case _ => None
  }

  predicate PastDeadline(t: Task, now: int) {
    t.deadline.Some? && t.deadline.value < now
  }

  /** Which action a row accepts, read off its own columns, and the timer status it leads to. A completed task
      or timer accepts none; one that was never started is started before its deadline, resumed after it. */
  lemma ActionsByRow(t: Task, now: int)
    ensures var allowed := (a: Action) => Transition(DisplayOf(t, now), a);
      var open := t.status != Completed && t.timer != TimerCompleted;
      && (allowed(StartAction) ==
        if open && t.timer == TimerIdle && !PastDeadline(t, now) then Some(TimerRunning) else None)
      && (allowed(PauseAction) ==
        if open && (t.timer == TimerRunning || t.timer == TimerOvertime) then Some(TimerPaused) else None)
      && (allowed(ResumeAction) ==
        if open && (t.timer == TimerPaused || (t.timer == TimerIdle && PastDeadline(t, now))) then Some(TimerRunning)
        else None)
      && (allowed(FinishAction) ==
        if open && (t.timer != TimerIdle || PastDeadline(t, now)) then Some(TimerCompleted) else None)
  {
  }

  /** What is shown after an accepted action, from then on and whatever the deadline; and an open row whose timer is
      idle shows whether its deadline has passed. */
  lemma DisplaysFollowActions(t: Task, a: Action, now: int, later: int)
    requires Transition(DisplayOf(t, now), a).Some?
    ensures var timer := Transition(DisplayOf(t, now), a).value;
      var t' := t.(timer := timer, status := if a == FinishAction then Completed else t.status);
      DisplayOf(t', later) == match a
        case StartAction => ActiveDisplay
        case PauseAction => PausedDisplay
        case ResumeAction => ActiveDisplay
        case FinishAction => CompletedDisplay
    ensures DisplayOf(t.(timer := TimerIdle), later) == if PastDeadline(t, later) then OverdueDisplay else IdleDisplay
  {
  }
}
