/** The pure timer functions. Clock readings are milliseconds, durations are
    seconds, both as reals. */
module TimerEngine {
  import opened Wrappers

  datatype Status = Idle | Running | Paused | Overtime | Done

  datatype Timer = Timer(
    task: string,
    estimated: real,
    remaining: real,
    elapsed: real,
    status: Status,
    startedAt: Option<real>,
    pausedAt: Option<real>,
    lastTickAt: real)

  predicate Ticking(t: Timer) {
    t.status == Running || t.status == Overtime
  }

  function AtLeastZero(x: real): real {
    if x < 0.0 then 0.0 else x
  }

  function CreateTimer(task: string, estimated: real): Timer {
    Timer(task, estimated, estimated, 0.0, Idle, None, None, 0.0)
  }

  function Start(t: Timer, now: real): Timer {
    if t.status == Done then t
    else t.(status := Running, startedAt := if t.startedAt.Some? then t.startedAt else Some(now),
            pausedAt := None, lastTickAt := now)
  }

  function Tick(t: Timer, now: real): Timer {
    if !Ticking(t) then t
    else
      var actual := AtLeastZero((now - t.lastTickAt) / 1000.0);
      var remaining := t.remaining - actual;
      t.(remaining := remaining, elapsed := t.elapsed + actual, lastTickAt := now,
         status := if remaining <= 0.0 then Overtime else Running)
  }

  function Pause(t: Timer, now: real): Timer {
    if !Ticking(t) then t else Tick(t, now).(status := Paused, pausedAt := Some(now))
  }

  function Resume(t: Timer, now: real): Timer {
    if t.status != Paused then t else t.(status := Running, pausedAt := None, lastTickAt := now)
  }

  function ApplyHiddenGap(t: Timer, hidden: real, now: Option<real>): Timer {
    if !Ticking(t) then t
    else
      var gap := AtLeastZero(hidden);
      var remaining := t.remaining - gap;
      t.(remaining := remaining, elapsed := t.elapsed + gap, lastTickAt := now.GetOr(t.lastTickAt),
         status := if remaining <= 0.0 then Overtime else t.status)
  }

  function CorrectDrift(t: Timer, actual: real): Timer {
    var elapsed := AtLeastZero(actual);
    var remaining := t.estimated - elapsed;
    t.(elapsed := elapsed, remaining := remaining,
       status := if remaining <= 0.0 && Ticking(t) then Overtime else t.status)
  }

  function Complete(t: Timer, now: real): Timer {
    (if Ticking(t) then Tick(t, now) else t).(status := Done, pausedAt := None)
  }

  /** Math.round: the nearest integer, halves upward. */
  function Round(x: real): int {
    (x + 0.5).Floor
  }

  function RefundSeconds(estimated: real, elapsed: real): int {
    var r := Round(estimated - elapsed);
    if r < 0 then 0 else r
  }

  function RefundForCompletion(t: Timer): int {
    RefundSeconds(t.estimated, t.elapsed)
  }
}

/** Elapsed time is exactly the time spent ticking, however the ticks fall. */
module TimerTheorems {
  import opened Wrappers
  import opened TimerEngine

  datatype Op =
    | StartOp(at: real)
    | TickOp(at: real)
    | PauseOp(at: real)
    | ResumeOp(at: real)
    | CompleteOp(at: real)

  function Apply(t: Timer, op: Op): Timer {
    match op
    case StartOp(at) => Start(t, at)
    case TickOp(at) => Tick(t, at)
    case PauseOp(at) => Pause(t, at)
    case ResumeOp(at) => Resume(t, at)
    case CompleteOp(at) => Complete(t, at)
  }

  function Run(t: Timer, ops: seq<Op>): Timer {
    if ops == [] then t else Apply(Run(t, ops[..|ops| - 1]), ops[|ops| - 1])
  }

  predicate ClockOrdered(ops: seq<Op>) {
    forall i, j :: 0 <= i < j < |ops| ==> ops[i].at <= ops[j].at
  }

  // ---- an independent stopwatch, which knows nothing of ticks ----

  datatype Phase = NotStarted | Going | Stopped | Finished

  function NextPhase(before: Phase, op: Op): Phase {
    match op
    case StartOp(_) => if before == Finished then Finished else Going
    case TickOp(_) => before
    case PauseOp(_) => if before == Going then Stopped else before
    case ResumeOp(_) => if before == Stopped then Going else before
    case CompleteOp(_) => Finished
  }

  function PhaseAfter(ops: seq<Op>): Phase {
    if ops == [] then NotStarted else NextPhase(PhaseAfter(ops[..|ops| - 1]), ops[|ops| - 1])
  }

  /** Milliseconds between consecutive operations during which the stopwatch was going. */
  function GoingMs(ops: seq<Op>): real {
    if |ops| <= 1 then 0.0
    else
      var n := |ops| - 1;
      GoingMs(ops[..n]) + (if PhaseAfter(ops[..n]) == Going then ops[n].at - ops[n - 1].at else 0.0)
  }

  /** Elapsed seconds with the ticking time since the last tick settled. */
  function Settled(t: Timer, now: real): real {
    t.elapsed + (if Ticking(t) then AtLeastZero((now - t.lastTickAt) / 1000.0) else 0.0)
  }

  predicate InPhase(t: Timer, p: Phase) {
    match p
    case NotStarted => t.status == Idle
    case Going => Ticking(t)
    case Stopped => t.status == Paused
    case Finished => t.status == Done
  }

  /** The timer agrees with a stopwatch in this phase that has gone for so many milliseconds by `now`. */
  predicate Tracks(t: Timer, phase: Phase, goingMs: real, now: real, estimated: real) {
    && InPhase(t, phase)
    && t.remaining + t.elapsed == estimated
    && Settled(t, now) == goingMs / 1000.0
    && (Ticking(t) ==> t.lastTickAt <= now)
  }

  lemma WaitTracks(t: Timer, phase: Phase, goingMs: real, now: real, estimated: real, later: real)
    requires Tracks(t, phase, goingMs, now, estimated) && now <= later
    ensures Tracks(t, phase, goingMs + (if phase == Going then later - now else 0.0), later, estimated)
  {
  }

  /** A tick settles what is due and changes nothing else that the stopwatch sees. */
  lemma TickTracks(t: Timer, phase: Phase, goingMs: real, now: real, estimated: real)
    requires Tracks(t, phase, goingMs, now, estimated)
    ensures Tracks(Tick(t, now), phase, goingMs, now, estimated) && Tick(t, now).elapsed == goingMs / 1000.0
  {
  }

  /** Ticking time that a START on a ticking timer throws away: it sets the last tick to now without settling. */
  function Lost(t: Timer, op: Op): real {
    if op.StartOp? && Ticking(t) then AtLeastZero((op.at - t.lastTickAt) / 1000.0) else 0.0
  }

  function LostSeconds(t: Timer, ops: seq<Op>): real {
    if ops == [] then 0.0
    else
      var before := ops[..|ops| - 1];
      LostSeconds(t, before) + Lost(Run(t, before), ops[|ops| - 1])
  }

  lemma ApplyTracks(t: Timer, phase: Phase, goingMs: real, estimated: real, op: Op)
    requires Tracks(t, phase, goingMs, op.at, estimated)
    ensures Tracks(Apply(t, op), NextPhase(phase, op), goingMs - 1000.0 * Lost(t, op), op.at, estimated)
  {
    TickTracks(t, phase, goingMs, op.at, estimated);
  }

  lemma {:induction false} TracksStopwatch(task: string, estimated: real, ops: seq<Op>)
    requires ops != [] && ClockOrdered(ops)
    ensures var t := CreateTimer(task, estimated);
      Tracks(Run(t, ops), PhaseAfter(ops), GoingMs(ops) - 1000.0 * LostSeconds(t, ops), ops[|ops| - 1].at, estimated)
  {
    var n := |ops| - 1;
    var before, now := ops[..n], ops[n].at;
    var t0 := CreateTimer(task, estimated);
    var t, lost := Run(t0, before), 1000.0 * LostSeconds(t0, before);
    if n == 0 {
      assert before == [];
      assert Tracks(t, NotStarted, 0.0, now, estimated);
    } else {
      TracksStopwatch(task, estimated, before);
      WaitTracks(t, PhaseAfter(before), GoingMs(before) - lost, ops[n - 1].at, estimated, now);
    }
    ApplyTracks(t, PhaseAfter(before), GoingMs(ops) - lost, estimated, ops[n]);
  }

  /** Every START comes while the timer is not ticking, or at the very instant of its last tick. */
  ghost predicate StartsSettle(t: Timer, ops: seq<Op>) {
    forall n :: 0 <= n < |ops| && ops[n].StartOp? ==>
      !Ticking(Run(t, ops[..n])) || ops[n].at <= Run(t, ops[..n]).lastTickAt
  }

  lemma {:induction false} NothingLostExactly(t: Timer, ops: seq<Op>)
    ensures 0.0 <= LostSeconds(t, ops)
    ensures LostSeconds(t, ops) == 0.0 <==> StartsSettle(t, ops)
  {
    if ops != [] {
      var n := |ops| - 1;
      NothingLostExactly(t, ops[..n]);
      LastStartSettles(t, ops);
    }
  }

  lemma LastStartSettles(t: Timer, ops: seq<Op>)
    requires ops != []
    ensures var n := |ops| - 1;
      StartsSettle(t, ops) <==> StartsSettle(t, ops[..n]) && Lost(Run(t, ops[..n]), ops[n]) == 0.0
  {
    var n := |ops| - 1;
    assert forall i :: 0 <= i < n ==> ops[..n][..i] == ops[..i] && ops[..n][i] == ops[i];
  }

  /** A completed timer holds the stopwatch's time less what STARTs threw away, whatever ticks came in between:
      it is the stopwatch's time if and only if every START settles. */
  lemma ElapsedIsTickingTime(task: string, estimated: real, ops: seq<Op>)
    requires ops != [] && ClockOrdered(ops) && PhaseAfter(ops) == Finished
    ensures var t := CreateTimer(task, estimated);
      var end := Run(t, ops);
      && end.elapsed == GoingMs(ops) / 1000.0 - LostSeconds(t, ops)
      && end.remaining == estimated - end.elapsed
      && end.elapsed <= GoingMs(ops) / 1000.0
      && (end.elapsed == GoingMs(ops) / 1000.0 <==> StartsSettle(t, ops))
  {
    TracksStopwatch(task, estimated, ops);
    NothingLostExactly(CreateTimer(task, estimated), ops);
  }

  // ---- tick schedules do not matter ----

  function WithoutTicks(ops: seq<Op>): seq<Op> {
    if ops == [] then []
    else
      var rest := WithoutTicks(ops[..|ops| - 1]);
      if ops[|ops| - 1].TickOp? then rest else rest + [ops[|ops| - 1]]
  }

  /** The timer as a tick at `now` would leave it, apart from the overtime mark. */
  function Normal(t: Timer, now: real): Timer {
    if Ticking(t) then Tick(t, now).(status := Running) else t
  }

  predicate Alike(a: Timer, b: Timer, now: real) {
    && Normal(a, now) == Normal(b, now)
    && (Ticking(a) ==> a.lastTickAt <= now)
    && (Ticking(b) ==> b.lastTickAt <= now)
  }

  lemma AlikeLater(a: Timer, b: Timer, now: real, later: real)
    requires Alike(a, b, now) && now <= later
    ensures Alike(a, b, later)
  {
  }

  lemma ApplyKeepsAlike(a: Timer, b: Timer, now: real, op: Op)
    requires Alike(a, b, now) && now <= op.at && (op.StartOp? ==> !Ticking(a))
    ensures Alike(Apply(a, op), Apply(b, op), op.at)
    ensures op.TickOp? ==> Alike(Apply(a, op), b, op.at)
    ensures op.CompleteOp? ==> Apply(a, op) == Apply(b, op)
  {
    AlikeLater(a, b, now, op.at);
  }

  /** START is only given to `t` while it is not ticking. */
  predicate StartsAtRest(t: Timer, ops: seq<Op>) {
    forall i :: 0 <= i < |ops| && ops[i].StartOp? ==> !Ticking(Run(t, ops[..i]))
  }

  lemma {:induction false} ErasingTicks(t: Timer, ops: seq<Op>, start: real)
    requires ClockOrdered(ops) && StartsAtRest(t, ops)
    requires (ops != [] ==> start <= ops[0].at) && (Ticking(t) ==> t.lastTickAt <= start)
    ensures Alike(Run(t, ops), Run(t, WithoutTicks(ops)), if ops == [] then start else ops[|ops| - 1].at)
  {
    if ops != [] {
      var n := |ops| - 1;
      assert forall i :: 0 <= i < n ==> ops[..n][..i] == ops[..i];
      ErasingTicks(t, ops[..n], start);
      var now := if n == 0 then start else ops[n - 1].at;
      var a, b := Run(t, ops[..n]), Run(t, WithoutTicks(ops[..n]));
      ApplyKeepsAlike(a, b, now, ops[n]);
      if !ops[n].TickOp? {
        assert WithoutTicks(ops)[..|WithoutTicks(ops)| - 1] == WithoutTicks(ops[..n]);
      }
    }
  }

  /** Two schedules of the same user actions, ticked differently, complete to the
      same timer and so to the same refund. */
  lemma TickSchedulesDoNotMatter(t: Timer, xs: seq<Op>, ys: seq<Op>, start: real)
    requires ClockOrdered(xs) && ClockOrdered(ys) && StartsAtRest(t, xs) && StartsAtRest(t, ys)
    requires (Ticking(t) ==> t.lastTickAt <= start)
    requires xs != [] && ys != [] && start <= xs[0].at && start <= ys[0].at
    requires WithoutTicks(xs) == WithoutTicks(ys)
    requires xs[|xs| - 1].CompleteOp? && ys[|ys| - 1].CompleteOp?
    ensures Run(t, xs) == Run(t, ys)
    ensures RefundForCompletion(Run(t, xs)) == RefundForCompletion(Run(t, ys))
  {
    ErasingTicks(t, xs, start);
    ErasingTicks(t, ys, start);
  }

  // ---- the operations outside that theorem ----

  predicate Balanced(t: Timer) {
    t.remaining + t.elapsed == t.estimated
  }

  /** Every operation, including the hidden-gap and drift corrections, keeps remaining + elapsed. */
  lemma EveryOperationBalances(t: Timer, op: Op, hidden: real, now: Option<real>, actual: real)
    ensures Balanced(t) ==> Balanced(Apply(t, op)) && Balanced(ApplyHiddenGap(t, hidden, now))
    ensures Balanced(CorrectDrift(t, actual))
  {
  }

  /** A timer that has been kept in balance is in overtime after a tick exactly when its estimate is used up. */
  lemma OvertimeExactly(t: Timer, now: real)
    requires Balanced(t) && Ticking(t)
    ensures Tick(t, now).status == Overtime <==> Tick(t, now).elapsed >= t.estimated
    ensures Tick(t, now).status == Running <==> Tick(t, now).elapsed < t.estimated
  {
  }

  /** The same for the two corrections; a drift correction leaves a timer that is not ticking in its state. */
  lemma CorrectionsEnterOvertime(t: Timer, hidden: real, now: Option<real>, actual: real)
    requires Balanced(t)
    ensures Ticking(t) && ApplyHiddenGap(t, hidden, now).elapsed >= t.estimated ==>
      ApplyHiddenGap(t, hidden, now).status == Overtime
    ensures Ticking(t) && ApplyHiddenGap(t, hidden, now).elapsed < t.estimated ==>
      ApplyHiddenGap(t, hidden, now).status == t.status
    ensures Ticking(t) && CorrectDrift(t, actual).elapsed >= t.estimated ==> CorrectDrift(t, actual).status == Overtime
    ensures !Ticking(t) || CorrectDrift(t, actual).elapsed < t.estimated ==> CorrectDrift(t, actual).status == t.status
    ensures CorrectDrift(t, actual).elapsed >= 0.0 && (actual >= 0.0 ==> CorrectDrift(t, actual).elapsed == actual)
  {
  }

  /** The refund of a timer kept in balance is what remains of it, rounded, and nothing once that is below half a
      second. */
  lemma RefundIsTheRemainder(t: Timer)
    requires Balanced(t)
    ensures var refund := RefundForCompletion(t);
      && (t.remaining < 0.5 ==> refund == 0)
      && (t.remaining >= 0.5 ==> refund > 0 && -0.5 <= t.remaining - refund as real < 0.5)
  {
  }

  predicate Inert(op: Op) {
    !op.StartOp? && !op.CompleteOp?
  }

  lemma {:induction false} NothingBeforeStart(task: string, estimated: real, ops: seq<Op>)
    requires forall i :: 0 <= i < |ops| ==> Inert(ops[i])
    ensures Run(CreateTimer(task, estimated), ops) == CreateTimer(task, estimated)
  {
    if ops != [] {
      NothingBeforeStart(task, estimated, ops[..|ops| - 1]);
    }
  }

  /** A timer's start is the instant of the first START, whatever comes after it. */
  lemma {:induction false} StartedAtFirst(task: string, estimated: real, ops: seq<Op>, k: nat)
    requires k < |ops| && ops[k].StartOp? && forall i :: 0 <= i < k ==> Inert(ops[i])
    ensures Run(CreateTimer(task, estimated), ops).startedAt == Some(ops[k].at)
  {
    var n := |ops| - 1;
    if k == n {
      NothingBeforeStart(task, estimated, ops[..n]);
    } else {
      StartedAtFirst(task, estimated, ops[..n], k);
    }
  }

  /** A timer has the instant of its pause exactly while it is paused: that of the last operation that paused it. */
  lemma {:induction false} PausedAtPause(task: string, estimated: real, ops: seq<Op>)
    ensures var t := Run(CreateTimer(task, estimated), ops);
      && (t.pausedAt.Some? <==> t.status == Paused)
      && (ops != [] && ops[|ops| - 1].PauseOp? && Ticking(Run(CreateTimer(task, estimated), ops[..|ops| - 1])) ==>
        t.pausedAt == Some(ops[|ops| - 1].at))
  {
    if ops != [] {
      PausedAtPause(task, estimated, ops[..|ops| - 1]);
    }
  }

  /** START loses no ticking time exactly when the timer was not ticking or has just ticked. */
  lemma StartSettlesExactly(t: Timer, now: real)
    ensures Settled(Start(t, now), now) == Settled(t, now) <==> !Ticking(t) || now <= t.lastTickAt
  {
  }

  /** A hidden-gap correction counts the time once exactly when the gap is what was left unsettled. */
  lemma HiddenGapExactly(t: Timer, hidden: real, now: real)
    requires Ticking(t)
    ensures Settled(ApplyHiddenGap(t, hidden, Some(now)), now) == Settled(t, now)
      <==> AtLeastZero(hidden) == AtLeastZero((now - t.lastTickAt) / 1000.0)
  {
  }
}
