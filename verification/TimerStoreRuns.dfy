/** Whole runs of the store: what each timer in it went through, and how much time all of them count. */
module TimerStoreRuns {
  import opened Wrappers
  import opened TimerEngine
  import opened TimerTheorems
  import opened TimerStoreSpec

  const EMPTY := Store(None, map[])

  // ---- each timer is the engine's, run on what the calls bring to it ----

  /** What a call does to one timer. */
  datatype Act = Timed(op: Op) | Gap(hidden: real, now: real) | Correction(actual: real)

  function Perform(t: Timer, a: Act): Timer {
    match a
    case Timed(op) => Apply(t, op)
    case Gap(hidden, now) => ApplyHiddenGap(t, hidden, Some(now))
    case Correction(actual) => CorrectDrift(t, actual)
  }

  function PerformAll(t: Timer, acts: seq<Act>): Timer {
    if acts == [] then t else Perform(PerformAll(t, acts[..|acts| - 1]), acts[|acts| - 1])
  }

  predicate Starts(c: Call, id: string) {
    c.StartCall? && c.task == id
  }

  /** Some call has started the task. */
  predicate Known(cs: seq<Call>, id: string) {
    cs != [] && (Known(cs[..|cs| - 1], id) || Starts(cs[|cs| - 1], id))
  }

  /** The estimate the task was first started with. */
  function Estimate(cs: seq<Call>, id: string): real
    requires Known(cs, id)
  {
    if Known(cs[..|cs| - 1], id) then Estimate(cs[..|cs| - 1], id) else cs[|cs| - 1].estimated
  }

  /** The task that was last started, or resumed once known, unless it was completed since. */
  function LastChosen(cs: seq<Call>): Option<string> {
    if cs == [] then None
    else
      var before, c := cs[..|cs| - 1], cs[|cs| - 1];
      if c.StartCall? || (c.ResumeCall? && Known(before, c.task)) then Some(c.task)
      else if c.CompleteCall? && Known(before, c.task) && LastChosen(before) == Some(c.task) then None
      else LastChosen(before)
  }

  /** What a call brings to a timer, when `chosen` is active: choosing another task pauses the active one, the
      interval ticks all, a hidden gap goes to the active one, and everything else to the task it names. */
  function Brings(chosen: Option<string>, c: Call, known: bool, id: string): seq<Act> {
    var active := id != "" && chosen == Some(id);
    match c
    case StartCall(task, _, now, now') =>
      if task == id then [Timed(StartOp(now'))] else if active then [Timed(PauseOp(now))] else []
    case ResumeCall(task, now, now') =>
      if task == id then [Timed(ResumeOp(now'))] else if active && known then [Timed(PauseOp(now))] else []
    case PauseCall(task, now) => if task == id then [Timed(PauseOp(now))] else []
    case TickCall(now) => [Timed(TickOp(now))]
    case HiddenGapCall(hidden, now) => if active then [Gap(hidden, now)] else []
    case DriftCall(task, actual) => if task == id then [Correction(actual)] else []
    case CompleteCall(task, now) => if task == id then [Timed(CompleteOp(now))] else []
  }

  /** What the last call brings; a call that resumes an unknown task throws. */
  function BroughtLast(cs: seq<Call>, id: string): seq<Act>
    requires cs != []
  {
    var before, c := cs[..|cs| - 1], cs[|cs| - 1];
    Brings(LastChosen(before), c, c.ResumeCall? && Known(before, c.task), id)
  }

  function Received(cs: seq<Call>, id: string): seq<Act> {
    if !Known(cs, id) then [] else Received(cs[..|cs| - 1], id) + BroughtLast(cs, id)
  }

  lemma PerformMore(t: Timer, acts: seq<Act>, more: seq<Act>)
    requires |more| <= 1
    ensures PerformAll(t, acts + more)
         == if more == [] then PerformAll(t, acts) else Perform(PerformAll(t, acts), more[0])
  {
    if more == [] {
      assert acts + more == acts;
    } else {
      assert (acts + more)[..|acts|] == acts;
    }
  }

  /** What a timer should be after the calls. */
  function Expected(cs: seq<Call>, id: string): Timer
    requires Known(cs, id)
  {
    PerformAll(CreateTimer(id, Estimate(cs, id)), Received(cs, id))
  }

  /** The store after the calls is the one described by them. */
  ghost predicate Described(s: Store, cs: seq<Call>) {
    && s.active == LastChosen(cs)
    && (s.active.Some? ==> s.active.value in s.timers)
    && (forall id :: id in s.timers <==> Known(cs, id))
    && (forall id :: id in s.timers ==> s.timers[id] == Expected(cs, id))
  }

  /** One call does to a timer of the store what it brings. */
  lemma OneCall(s: Store, c: Call, id: string)
    requires s.active.Some? ==> s.active.value in s.timers
    ensures var s' := Do(s, c);
      var acts := Brings(s.active, c, c.ResumeCall? && c.task in s.timers, id);
      && (id in s'.timers <==> id in s.timers || Starts(c, id))
      && (id in s'.timers ==>
        var t := if id in s.timers then s.timers[id] else CreateTimer(id, c.estimated);
        s'.timers[id] == if acts == [] then t else Perform(t, acts[0]))
  {
  }

  lemma OneChoice(s: Store, c: Call)
    requires s.active.Some? ==> s.active.value in s.timers
    ensures var s' := Do(s, c);
      && (s'.active.Some? ==> s'.active.value in s'.timers)
      && s'.active ==
         if c.StartCall? || (c.ResumeCall? && c.task in s.timers) then Some(c.task)
         else if c.CompleteCall? && c.task in s.timers && s.active == Some(c.task) then None
         else s.active
  {
  }

  lemma ExpectedOneMore(cs: seq<Call>, id: string)
    requires cs != [] && Known(cs, id)
    ensures var before, c, acts := cs[..|cs| - 1], cs[|cs| - 1], BroughtLast(cs, id);
      var t := if Known(before, id) then Expected(before, id) else CreateTimer(id, c.estimated);
      Expected(cs, id) == if acts == [] then t else Perform(t, acts[0])
  {
    PerformMore(CreateTimer(id, Estimate(cs, id)), Received(cs[..|cs| - 1], id), BroughtLast(cs, id));
  }

  lemma NextTimer(s: Store, cs: seq<Call>, id: string)
    requires cs != [] && Described(s, cs[..|cs| - 1])
    ensures var s' := Do(s, cs[|cs| - 1]);
      && (id in s'.timers <==> Known(cs, id))
      && (id in s'.timers ==> s'.timers[id] == Expected(cs, id))
  {
    OneCall(s, cs[|cs| - 1], id);
    if Known(cs, id) {
      ExpectedOneMore(cs, id);
    }
  }

  /** Over any calls: the store holds exactly the tasks started, its active task is the one last chosen, and each
      timer is what the engine makes of the acts the calls bring to it, in their order. */
  lemma {:induction false} EveryTimerIsARun(cs: seq<Call>)
    ensures Described(DoAll(EMPTY, cs), cs)
  {
    if cs != [] {
      var before := cs[..|cs| - 1];
      EveryTimerIsARun(before);
      var s := DoAll(EMPTY, before);
      OneChoice(s, cs[|cs| - 1]);
      forall id
        ensures id in DoAll(EMPTY, cs).timers <==> Known(cs, id)
        ensures id in DoAll(EMPTY, cs).timers ==> DoAll(EMPTY, cs).timers[id] == Expected(cs, id)
      {
        NextTimer(s, cs, id);
      }
    }
  }

  // ---- no second is counted twice ----

  /** When a call begins and ends; the two corrections set a time from outside and are left out. */
  predicate Clocked(c: Call) {
    !c.HiddenGapCall? && !c.DriftCall? && (c.StartCall? || c.ResumeCall? ==> c.now <= c.now')
  }

  function End(c: Call): real
    requires Clocked(c)
  {
    if c.StartCall? || c.ResumeCall? then c.now' else c.now
  }

  /** One clock, read by one call after the other. */
  ghost predicate InOrder(cs: seq<Call>, start: real) {
    && (forall c :: c in cs ==> Clocked(c) && Named(c) && start <= c.now)
    && (forall i, j :: 0 <= i < j < |cs| ==>
      Clocked(cs[i]) && Clocked(cs[j]) && End(cs[i]) <= cs[j].now)
  }

  predicate Distinct(ids: seq<string>) {
    forall i, j :: 0 <= i < j < |ids| ==> ids[i] != ids[j]
  }

  function Counted(s: Store, id: string, now: real): real {
    if id in s.timers then Settled(s.timers[id], now) else 0.0
  }

  /** The seconds counted by these timers, up to now. */
  function Sum(s: Store, ids: seq<string>, now: real): real {
    if ids == [] then 0.0 else Sum(s, ids[..|ids| - 1], now) + Counted(s, ids[|ids| - 1], now)
  }

  lemma {:induction false} SumAtMost(s: Store, s': Store, ids: seq<string>, now: real, now': real)
    requires forall id :: id in ids ==> Counted(s', id, now') <= Counted(s, id, now)
    ensures Sum(s', ids, now') <= Sum(s, ids, now)
  {
    if ids != [] {
      var n := |ids| - 1;
      assert forall id :: id in ids[..n] ==> id in ids;
      SumAtMost(s, s', ids[..n], now, now');
    }
  }

  /** While time passes the active timer alone counts. */
  lemma {:induction false} SumWaits(s: Store, ids: seq<string>, now: real, later: real)
    requires OneTicking(s) && Distinct(ids) && now <= later
    ensures Sum(s, ids, later) <= Sum(s, ids, now) + (later - now) / 1000.0
  {
    if ids != [] {
      var n := |ids| - 1;
      if s.active == Some(ids[n]) {
        forall id | id in ids[..n] ensures Counted(s, id, later) <= Counted(s, id, now) {
          assert id != ids[n];
        }
        SumAtMost(s, s, ids[..n], now, later);
      } else {
        SumWaits(s, ids[..n], now, later);
      }
    }
  }

  /** A call in an instant adds no time to any timer. */
  lemma CallAddsNothing(s: Store, c: Call, id: string)
    requires Clocked(c) && End(c) == c.now
    ensures Counted(Do(s, c), id, c.now) <= Counted(s, id, c.now)
  {
  }

  /** A call is itself in two instants when it reads the clock twice: it adds what passes in between. */
  lemma CallSum(s: Store, c: Call, ids: seq<string>)
    requires StoreInv(s) && Named(c) && Clocked(c) && Distinct(ids)
    ensures Sum(Do(s, c), ids, End(c)) <= Sum(s, ids, c.now) + (End(c) - c.now) / 1000.0
  {
    if c.StartCall? || c.ResumeCall? {
      SumWaits(s, ids, c.now, c.now');
      forall id | id in ids ensures Counted(Do(s, c), id, c.now') <= Counted(s, id, c.now') {
        SettledByThen(s, c, id);
      }
      SumAtMost(s, Do(s, c), ids, c.now', c.now');
    } else {
      forall id | id in ids ensures Counted(Do(s, c), id, c.now) <= Counted(s, id, c.now) {
        CallAddsNothing(s, c, id);
      }
      SumAtMost(s, Do(s, c), ids, c.now, c.now);
    }
  }

  lemma SettledByThen(s: Store, c: Call, id: string)
    requires Clocked(c) && (c.StartCall? || c.ResumeCall?)
    ensures Counted(Do(s, c), id, c.now') <= Counted(s, id, c.now')
  {
  }

  lemma {:induction false} SumFromNothing(ids: seq<string>, now: real)
    ensures Sum(EMPTY, ids, now) == 0.0
  {
    if ids != [] {
      SumFromNothing(ids[..|ids| - 1], now);
    }
  }

  /** Over any calls on nonempty ids, all timers together count at most the time that has passed. */
  lemma {:induction false} NoSecondCountsTwice(cs: seq<Call>, ids: seq<string>, start: real, now: real)
    requires InOrder(cs, start) && Distinct(ids)
    requires start <= now && forall c :: c in cs ==> End(c) <= now
    ensures Sum(DoAll(EMPTY, cs), ids, now) <= (now - start) / 1000.0
  {
    AtMostOneTicking(cs);
    if cs == [] {
      SumFromNothing(ids, now);
    } else {
      var n := |cs| - 1;
      var before, c := cs[..n], cs[n];
      var s := DoAll(EMPTY, before);
      assert forall x :: x in before ==> x in cs;
      AtMostOneTicking(before);
      NoSecondCountsTwice(before, ids, start, c.now);
      CallSum(s, c, ids);
      SumWaits(DoAll(EMPTY, cs), ids, End(c), now);
    }
  }
}
