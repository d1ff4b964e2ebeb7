/** The timer store: at most one timer ticks, and it is the active one. */
module TimerStoreSpec {
  import opened Wrappers
  import opened TimerEngine

  datatype Store = Store(active: Option<string>, timers: map<string, Timer>)

  /** `null` and the empty string are both false in a condition. */
  predicate Truthy(active: Option<string>) {
    active.Some? && active.value != ""
  }

  /** The automatic pause of another active timer. */
  function PauseOther(s: Store, task: string, now: real): map<string, Timer> {
    if Truthy(s.active) && s.active.value != task && s.active.value in s.timers
    then s.timers[s.active.value := Pause(s.timers[s.active.value], now)]
    else s.timers
  }

  function StartTimer(s: Store, task: string, estimated: real, now: real, now': real): Store {
    var timers := PauseOther(s, task, now);
    var base := if task in timers then timers[task] else CreateTimer(task, estimated);
    Store(Some(task), timers[task := Start(base, now')])
  }

  function PauseTimer(s: Store, task: string, now: real): Store
    requires task in s.timers
  {
    s.(timers := s.timers[task := Pause(s.timers[task], now)])
  }

  function ResumeTimer(s: Store, task: string, now: real, now': real): Store
    requires task in s.timers
  {
    var timers := PauseOther(s, task, now);
    Store(Some(task), timers[task := Resume(timers[task], now')])
  }

  function TickAll(s: Store, now: real): Store {
    s.(timers := map id | id in s.timers :: Tick(s.timers[id], now))
  }

  function HiddenGap(s: Store, hidden: real, now: real): Store {
    if Truthy(s.active) && s.active.value in s.timers
    then s.(timers := s.timers[s.active.value := ApplyHiddenGap(s.timers[s.active.value], hidden, Some(now))])
    else s
  }

  function Drift(s: Store, task: string, actual: real): Store
    requires task in s.timers
  {
    s.(timers := s.timers[task := CorrectDrift(s.timers[task], actual)])
  }

  function CompleteTask(s: Store, task: string, now: real): Store
    requires task in s.timers
  {
    Store(if s.active == Some(task) then None else s.active,
          s.timers[task := Complete(s.timers[task], now)])
  }

  // ---- the invariant ----

  ghost predicate OneTicking(s: Store) {
    forall id :: id in s.timers && Ticking(s.timers[id]) ==> s.active == Some(id)
  }

  datatype Call =
    | StartCall(task: string, estimated: real, now: real, now': real)
    | PauseCall(task: string, now: real)
    | ResumeCall(task: string, now: real, now': real)
    | TickCall(now: real)
    | HiddenGapCall(hidden: real, now: real)
    | DriftCall(task: string, actual: real)
    | CompleteCall(task: string, now: real)

  /** A call on a missing timer throws inside the updater, which leaves the store as it was. */
  function Do(s: Store, c: Call): Store {
    match c
    case StartCall(task, estimated, now, now') => StartTimer(s, task, estimated, now, now')
    case PauseCall(task, now) => if task in s.timers then PauseTimer(s, task, now) else s
    case ResumeCall(task, now, now') => if task in s.timers then ResumeTimer(s, task, now, now') else s
    case TickCall(now) => TickAll(s, now)
    case HiddenGapCall(hidden, now) => HiddenGap(s, hidden, now)
    case DriftCall(task, actual) => if task in s.timers then Drift(s, task, actual) else s
    case CompleteCall(task, now) => if task in s.timers then CompleteTask(s, task, now) else s
  }

  function DoAll(s: Store, cs: seq<Call>): Store {
    if cs == [] then s else Do(DoAll(s, cs[..|cs| - 1]), cs[|cs| - 1])
  }

  /** Starting keeps one timer ticking, except past a timer running under the empty id. */
  lemma StartKeepsOneTickingExactly(s: Store, task: string, estimated: real, now: real, now': real)
    requires OneTicking(s)
    ensures OneTicking(StartTimer(s, task, estimated, now, now')) <==>
      !(task != "" && "" in s.timers && Ticking(s.timers[""]))
  {
    var s' := StartTimer(s, task, estimated, now, now');
    if task != "" && "" in s.timers && Ticking(s.timers[""]) {
      assert "" in s'.timers && Ticking(s'.timers[""]);
    }
  }

  lemma DoOneMore(s: Store, cs: seq<Call>, c: Call)
    ensures DoAll(s, cs + [c]) == Do(DoAll(s, cs), c)
  {
    assert (cs + [c])[..|cs|] == cs;
  }

  /** Two calls on an empty store after which two timers tick. */
  lemma EmptyIdEscapes()
    ensures var s := DoAll(Store(None, map[]), [StartCall("", 60.0, 0.0, 0.0), StartCall("a", 60.0, 1.0, 1.0)]);
      && "" in s.timers && Ticking(s.timers[""]) && "a" in s.timers && Ticking(s.timers["a"]) && s.active == Some("a")
  {
    var empty := Store(None, map[]);
    var first, second := StartCall("", 60.0, 0.0, 0.0), StartCall("a", 60.0, 1.0, 1.0);
    DoOneMore(empty, [], first);
    DoOneMore(empty, [first], second);
    assert [] + [first] == [first] && [first] + [second] == [first, second];
    assert Do(empty, first) == Store(Some(""), map["" := Start(CreateTimer("", 60.0), 0.0)]);
    assert "" != "a";
  }

  predicate Named(c: Call) {
    c.StartCall? || c.ResumeCall? ==> c.task != ""
  }

  ghost predicate StoreInv(s: Store) {
    OneTicking(s) && s.active != Some("")
  }

  lemma DoKeepsInv(s: Store, c: Call)
    requires StoreInv(s) && Named(c)
    ensures StoreInv(Do(s, c))
  {
    match c
    case StartCall(task, estimated, now, now') => StartKeepsOneTickingExactly(s, task, estimated, now, now');
    case _ =>
  }

  /** From an empty store, any calls under nonempty ids leave at most one timer ticking: the active one. */
  lemma {:induction false} AtMostOneTicking(cs: seq<Call>)
    requires forall c :: c in cs ==> Named(c)
    ensures StoreInv(DoAll(Store(None, map[]), cs))
  {
    if cs != [] {
      AtMostOneTicking(cs[..|cs| - 1]);
      DoKeepsInv(DoAll(Store(None, map[]), cs[..|cs| - 1]), cs[|cs| - 1]);
    }
  }
}

/** The store's actions as methods on its two fields. */
module TimerStoreClass {
  import opened Wrappers
  import opened TimerEngine
  import Spec = TimerStoreSpec

  class TimerStore {
    var active: Option<string>
    var timers: map<string, Timer>

    ghost function State(): Spec.Store reads this {
      Spec.Store(active, timers)
    }

    constructor ()
      ensures State() == Spec.Store(None, map[])
    {
      active, timers := None, map[];
    }

    method StartTimer(task: string, estimated: real, now: real, now': real)
      modifies this
      ensures State() == Spec.Do(old(State()), Spec.StartCall(task, estimated, now, now'))
    {
      var next := timers;
      if active.Some? && active.value != "" && active.value != task && active.value in next {
        next := next[active.value := Pause(next[active.value], now)];
      }
      var base := if task in next then next[task] else CreateTimer(task, estimated);
      next := next[task := Start(base, now')];
      timers, active := next, Some(task);
    }

    method PauseTimer(task: string, now: real) returns (threw: bool)
      modifies this
      ensures threw <==> task !in old(timers)
      ensures State() == Spec.Do(old(State()), Spec.PauseCall(task, now))
    {
      if task !in timers {
        return true;
      }
      timers := timers[task := Pause(timers[task], now)];
      threw := false;
    }

    method ResumeTimer(task: string, now: real, now': real) returns (threw: bool)
      modifies this
      ensures threw <==> task !in old(timers)
      ensures State() == Spec.Do(old(State()), Spec.ResumeCall(task, now, now'))
    {
      if task !in timers {
        return true;
      }
      var next := timers;
      if active.Some? && active.value != "" && active.value != task && active.value in next {
        next := next[active.value := Pause(next[active.value], now)];
      }
      next := next[task := Resume(next[task], now')];
      timers, active := next, Some(task);
      threw := false;
    }

    /** The one-second interval: settles every ticking timer. */
    method TickTimer(now: real)
      modifies this
      ensures State() == Spec.Do(old(State()), Spec.TickCall(now))
    {
      var next := timers;
      var ids := timers.Keys;
      while ids != {}
        invariant ids <= timers.Keys && active == old(active) && timers == old(timers)
        invariant next.Keys == timers.Keys
        invariant forall id :: id in timers ==> next[id] == if id in ids then timers[id] else Tick(timers[id], now)
        decreases |ids|
      {
        var id :| id in ids;
        ids := ids - {id};
        if next[id].status == Running || next[id].status == Overtime {
          next := next[id := Tick(next[id], now)];
        }
      }
      assert next == Spec.TickAll(old(State()), now).timers;
      timers := next;
    }

    method CorrectDrift(task: string, actual: real) returns (threw: bool)
      modifies this
      ensures threw <==> task !in old(timers)
      ensures State() == Spec.Do(old(State()), Spec.DriftCall(task, actual))
    {
      if task !in timers {
        return true;
      }
      timers := timers[task := TimerEngine.CorrectDrift(timers[task], actual)];
      threw := false;
    }

    method ApplyHiddenGap(hidden: real, now: real)
      modifies this
      ensures State() == Spec.Do(old(State()), Spec.HiddenGapCall(hidden, now))
    {
      if active.Some? && active.value != "" && active.value in timers {
        timers := timers[active.value := TimerEngine.ApplyHiddenGap(timers[active.value], hidden, Some(now))];
      }
    }

    /** Settles and completes; returns the elapsed time and the refund to hand to the ledger. */
    method CompleteTask(task: string, now: real) returns (result: Option<(real, int)>)
      modifies this
      ensures result.None? <==> task !in old(timers)
      ensures State() == Spec.Do(old(State()), Spec.CompleteCall(task, now))
      ensures result.Some? ==>
        result.value == (timers[task].elapsed, RefundSeconds(timers[task].estimated, timers[task].elapsed))
    {
      if task !in timers {
        return None;
      }
      var done := Complete(timers[task], now);
      timers := timers[task := done];
      if active == Some(task) {
        active := None;
      }
      result := Some((done.elapsed, RefundForCompletion(done)));
    }
  }
}
