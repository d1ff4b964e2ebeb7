/** The browser's incremental time ledger and the aggregate the server recomputes. */
module Availability {
  datatype Ledger = Ledger(total: int, reserved: int, refunded: int)

  function NonNegative(x: int): int {
    if x < 0 then 0 else x
  }

  function InitialLedger(total: int): Ledger {
    Ledger(total, 0, 0)
  }

  function OnSetAvailable(s: Ledger, total: int): Ledger {
    s.(total := NonNegative(total))
  }

  function OnCreateTask(s: Ledger, estimate: int): Ledger {
    s.(reserved := s.reserved + NonNegative(estimate))
  }

  function OnDeleteTask(s: Ledger, estimate: int): Ledger {
    s.(reserved := NonNegative(s.reserved - NonNegative(estimate)))
  }

  function OnEarlyCompletion(s: Ledger, refund: int): Ledger {
    s.(refunded := s.refunded + NonNegative(refund))
  }

  function OnMidnightReset(total: int): Ledger {
    InitialLedger(total)
  }

  function ComputeRemaining(s: Ledger): int {
    s.total - s.reserved + s.refunded
  }
}

/** The incremental ledger against the server's recomputation from the task table. */
module LedgerRefinement {
  import opened Wrappers
  import opened TaskTable
  import opened TimerEngine
  import opened Availability

  datatype Event =
    | SetEvent(total: nat)
    | CreateEvent(estimate: nat)
    | DeleteEvent(task: nat)
    | CompleteEvent(task: nat, elapsed: real)
    | MidnightEvent(total: nat)

  /** What became of one task. */
  datatype Fate = Open | Removed | Finished(elapsed: real)

  /** `today`: created since the last midnight; the others are carried over. */
  datatype Item = Item(estimate: nat, today: bool, fate: Fate)

  const TODAY := Slot(1, 1)
  const EARLIER := Slot(1, 0)

  /** The task's row on the server: removal archives it, completion reports rounded seconds,
      and its service date stays that of its creation. */
  function Row(i: Item): Task {
    var t := Task(if i.today then TODAY else EARLIER, Pending, TimerIdle, Some(i.estimate), Some(0), false, None);
    match i.fate
    case Open => t
    case Removed => t.(status := Archived)
    case Finished(elapsed) => t.(status := Completed, elapsed := Some(Round(elapsed)))
  }

  function Rows(items: seq<Item>): seq<Task> {
    seq(|items|, i requires 0 <= i < |items| => Row(items[i]))
  }

  function CarryOver(items: seq<Item>): seq<Item> {
    seq(|items|, i requires 0 <= i < |items| => items[i].(today := false))
  }

  /** Both sides: the browser's ledger, and the server's budget and rows. */
  datatype Day = Day(ledger: Ledger, total: int, items: seq<Item>)

  /** The server's answer: total - allocated - consumed. */
  function Recomputed(d: Day): int {
    d.total - Used(Rows(d.items), TODAY)
  }

  /** Refused by the server, and so without effect in the browser: a task that does not exist,
      one already archived, or a negative report. */
  predicate Refused(d: Day, e: Event) {
    match e
    case DeleteEvent(task) => |d.items| <= task || d.items[task].fate == Removed
    case CompleteEvent(task, elapsed) => |d.items| <= task || Round(elapsed) < 0
    case _ => false
  }

  function Refund(i: Item, elapsed: real): nat {
    RefundSeconds(i.estimate as real, elapsed)
  }

  function Step(d: Day, e: Event): Day {
    if Refused(d, e) then d else
    match e
    case SetEvent(total) => d.(ledger := OnSetAvailable(d.ledger, total), total := total)
    case CreateEvent(estimate) =>
      d.(ledger := OnCreateTask(d.ledger, estimate), items := d.items + [Item(estimate, true, Open)])
    case DeleteEvent(task) =>
      d.(ledger := OnDeleteTask(d.ledger, d.items[task].estimate),
         items := d.items[task := d.items[task].(fate := Removed)])
    case CompleteEvent(task, elapsed) =>
      d.(ledger := OnEarlyCompletion(d.ledger, Refund(d.items[task], elapsed)),
         items := d.items[task := d.items[task].(fate := Finished(elapsed))])
    case MidnightEvent(total) => Day(OnMidnightReset(total), total, CarryOver(d.items))
  }

  function Run(d: Day, es: seq<Event>): Day {
    if es == [] then d else Step(Run(d, es[..|es| - 1]), es[|es| - 1])
  }

  /** A new day with no tasks. */
  function Fresh(total: nat): Day {
    Day(InitialLedger(total), total, [])
  }

  /** What the server accepts, and what becomes of the task: a deletion of a task not yet removed, and a report of at
      least minus half a second on any task; a budget, a task or a midnight always. */
  lemma AcceptedExactly(d: Day, e: Event)
    ensures e.SetEvent? || e.CreateEvent? || e.MidnightEvent? ==> !Refused(d, e)
    ensures e.DeleteEvent? ==> (!Refused(d, e) <==> e.task < |d.items| && !d.items[e.task].fate.Removed?)
    ensures e.CompleteEvent? ==> (!Refused(d, e) <==> e.task < |d.items| && e.elapsed >= -0.5)
    ensures Refused(d, e) ==> Step(d, e) == d
  {
  }

  // ---- the rounding gap ----

  /** Completed early today with elapsed time exactly half way between two seconds. */
  predicate HalfSecond(i: Item) {
    i.today && i.fate.Finished? && i.fate.elapsed < i.estimate as real
    && i.fate.elapsed - i.fate.elapsed.Floor as real == 0.5
  }

  function HalfSeconds(items: seq<Item>): nat {
    if items == [] then 0
    else HalfSeconds(items[..|items| - 1]) + (if HalfSecond(items[|items| - 1]) then 1 else 0)
  }

  predicate FinishedToday(i: Item) {
    i.today && i.fate.Finished?
  }

  function Finishes(items: seq<Item>): nat {
    if items == [] then 0
    else Finishes(items[..|items| - 1]) + (if FinishedToday(items[|items| - 1]) then 1 else 0)
  }

  /** What the ledger should still hold for one task. */
  function Held(i: Item): int {
    if !i.today then 0 else
    match i.fate
    case Open => i.estimate
    case Removed => 0
    case Finished(elapsed) => i.estimate - Refund(i, elapsed)
  }

  function HeldSum(items: seq<Item>): int {
    if items == [] then 0 else HeldSum(items[..|items| - 1]) + Held(items[|items| - 1])
  }

  /** Rounding the refund and rounding the report differ only on a half second. */
  lemma RefundAgainstCharge(estimate: nat, elapsed: real)
    ensures var gap := if HalfSecond(Item(estimate, true, Finished(elapsed))) then 1 else 0;
      estimate - RefundSeconds(estimate as real, elapsed) + gap == Charge(Some(Round(elapsed)), Some(estimate))
  {
    var f := elapsed.Floor;
    var part := elapsed - f as real;
    assert (estimate as real - elapsed + 0.5).Floor == estimate - f + (0.5 - part).Floor;
    assert (elapsed + 0.5).Floor == f + (part + 0.5).Floor;
  }

  lemma {:induction false} HeldAgainstUsed(items: seq<Item>)
    ensures HeldSum(items) + HalfSeconds(items) == Used(Rows(items), TODAY)
  {
    if items != [] {
      var n := |items| - 1;
      HeldAgainstUsed(items[..n]);
      assert Rows(items)[..n] == Rows(items[..n]);
      if items[n].fate.Finished? {
        RefundAgainstCharge(items[n].estimate, items[n].fate.elapsed);
      }
    }
  }

  // ---- the invariant ----

  /** What creation reserved for the task and removal has not given back. */
  function Reserved(i: Item): nat {
    if i.today && i.fate != Removed then i.estimate else 0
  }

  function ReservedSum(items: seq<Item>): nat {
    if items == [] then 0 else ReservedSum(items[..|items| - 1]) + Reserved(items[|items| - 1])
  }

  predicate LedgerInv(d: Day) {
    && d.ledger.total == d.total
    && d.ledger.reserved == ReservedSum(d.items)
    && d.ledger.reserved - d.ledger.refunded == HeldSum(d.items)
  }

  /** The browser's number is the server's, plus one second per half-second completion of the day. */
  predicate Agrees(d: Day) {
    ComputeRemaining(d.ledger) == Recomputed(d) + HalfSeconds(d.items)
  }

  lemma InvAgrees(d: Day)
    requires LedgerInv(d)
    ensures Agrees(d)
  {
    HeldAgainstUsed(d.items);
  }

  lemma {:induction false} SumsAfterChange(items: seq<Item>, i: nat, x: Item)
    requires i < |items|
    ensures HeldSum(items[i := x]) == HeldSum(items) - Held(items[i]) + Held(x)
    ensures ReservedSum(items[i := x]) == ReservedSum(items) - Reserved(items[i]) + Reserved(x)
    ensures Reserved(items[i]) <= ReservedSum(items)
  {
    var n := |items| - 1;
    if i == n {
      assert items[i := x][..n] == items[..n];
    } else {
      assert items[i := x][..n] == items[..n][i := x];
      SumsAfterChange(items[..n], i, x);
    }
  }

  lemma {:induction false} NothingReservedToday(items: seq<Item>)
    ensures HeldSum(CarryOver(items)) == 0 && ReservedSum(CarryOver(items)) == 0
  {
    if items != [] {
      NothingReservedToday(items[..|items| - 1]);
      assert CarryOver(items)[..|items| - 1] == CarryOver(items[..|items| - 1]);
    }
  }

  // ---- which events keep the two sides together ----

  /** The reducers take a bare number and do not ask which task it belongs to. A completion may hand over a
      refund only for a task of the day that has not left the active state, or that got none before, or that
      reserved nothing; a deletion may give back an estimate only if creation reserved it today and no refund
      has returned part of it. */
  predicate Settles(d: Day, e: Event) {
    Refused(d, e) ||
    match e
    case CompleteEvent(task, elapsed) =>
      var i := d.items[task];
      if !i.today then Refund(i, elapsed) == 0
      else if i.fate == Open then true
      else if i.fate == Removed then i.estimate == 0
      else Refund(i, i.fate.elapsed) == 0
    case DeleteEvent(task) =>
      var i := d.items[task];
      if !i.today then i.estimate == 0 || d.ledger.reserved == 0
      else i.fate == Open || Refund(i, i.fate.elapsed) == 0
    case _ => true
  }

  lemma CompleteStaysExactly(d: Day, task: nat, elapsed: real)
    requires LedgerInv(d) && !Refused(d, CompleteEvent(task, elapsed))
    ensures var e := CompleteEvent(task, elapsed);
      (Settles(d, e) ==> LedgerInv(Step(d, e))) && (Agrees(Step(d, e)) ==> Settles(d, e))
  {
    var d' := Step(d, CompleteEvent(task, elapsed));
    SumsAfterChange(d.items, task, d'.items[task]);
    HeldAgainstUsed(d'.items);
  }

  lemma DeleteStaysExactly(d: Day, task: nat)
    requires LedgerInv(d) && !Refused(d, DeleteEvent(task))
    ensures var e := DeleteEvent(task);
      (Settles(d, e) ==> LedgerInv(Step(d, e))) && (Agrees(Step(d, e)) ==> Settles(d, e))
  {
    var d' := Step(d, DeleteEvent(task));
    SumsAfterChange(d.items, task, d'.items[task]);
    HeldAgainstUsed(d'.items);
  }

  /** From a state in which the ledger is in order, an event keeps it so if it settles, and drives the two
      numbers apart if it does not. */
  lemma StepStaysExactly(d: Day, e: Event)
    requires LedgerInv(d)
    ensures Settles(d, e) ==> LedgerInv(Step(d, e))
    ensures Agrees(Step(d, e)) <==> Settles(d, e)
  {
    if Refused(d, e) {
    } else if e.CompleteEvent? {
      CompleteStaysExactly(d, e.task, e.elapsed);
    } else if e.DeleteEvent? {
      DeleteStaysExactly(d, e.task);
    } else if e.CreateEvent? {
      assert (d.items + [Item(e.estimate, true, Open)])[..|d.items|] == d.items;
    } else if e.MidnightEvent? {
      NothingReservedToday(d.items);
    }
    if Settles(d, e) {
      InvAgrees(Step(d, e));
    }
  }

  // ---- over any run ----

  ghost predicate AlwaysAgrees(d: Day, es: seq<Event>) {
    forall n :: 0 <= n <= |es| ==> Agrees(Run(d, es[..n]))
  }

  ghost predicate AllSettle(d: Day, es: seq<Event>) {
    forall n :: 0 <= n < |es| ==> Settles(Run(d, es[..n]), es[n])
  }

  lemma Prefix(d: Day, es: seq<Event>, n: nat)
    requires n < |es|
    ensures Run(d, es[..n + 1]) == Step(Run(d, es[..n]), es[n])
  {
    assert es[..n + 1][..n] == es[..n];
  }

  lemma {:induction false} SettledPrefix(d: Day, es: seq<Event>, n: nat)
    requires LedgerInv(d) && n <= |es| && (AllSettle(d, es) || AlwaysAgrees(d, es))
    ensures LedgerInv(Run(d, es[..n]))
  {
    if n > 0 {
      SettledPrefix(d, es, n - 1);
      Prefix(d, es, n - 1);
      assert AlwaysAgrees(d, es) ==> Agrees(Run(d, es[..n]));
      StepStaysExactly(Run(d, es[..n - 1]), es[n - 1]);
    }
  }

  /** Over any run of set, create, delete, complete and midnight, on tasks of any age and state, the browser's
      remaining time is the server's plus the half-second completions in every state if and only if
      every event settles. */
  lemma LedgerRefinesTable(total: nat, es: seq<Event>)
    ensures AlwaysAgrees(Fresh(total), es) <==> AllSettle(Fresh(total), es)
  {
    var d := Fresh(total);
    if AllSettle(d, es) {
      forall n | 0 <= n <= |es| ensures Agrees(Run(d, es[..n])) {
        SettledPrefix(d, es, n);
        InvAgrees(Run(d, es[..n]));
      }
    }
    if AlwaysAgrees(d, es) {
      forall n | 0 <= n < |es| ensures Settles(Run(d, es[..n]), es[n]) {
        SettledPrefix(d, es, n);
        Prefix(d, es, n);
        assert Agrees(Run(d, es[..n + 1]));
        StepStaysExactly(Run(d, es[..n]), es[n]);
      }
    }
  }

  predicate WholeSeconds(items: seq<Item>) {
    forall i :: 0 <= i < |items| && FinishedToday(items[i]) ==>
      items[i].fate.elapsed == items[i].fate.elapsed.Floor as real
  }

  lemma {:induction false} HalfSecondsBounded(items: seq<Item>)
    ensures HalfSeconds(items) <= Finishes(items)
    ensures WholeSeconds(items) ==> HalfSeconds(items) == 0
  {
    if items != [] {
      HalfSecondsBounded(items[..|items| - 1]);
    }
  }

  /** When every event settles, the two differ by at most a second per task completed that day, and agree on
      whole seconds. */
  lemma LedgerCloseToTable(total: nat, es: seq<Event>)
    requires AllSettle(Fresh(total), es)
    ensures var d := Run(Fresh(total), es);
      && 0 <= ComputeRemaining(d.ledger) - Recomputed(d) <= Finishes(d.items)
      && (WholeSeconds(d.items) ==> ComputeRemaining(d.ledger) == Recomputed(d))
  {
    var d := Run(Fresh(total), es);
    assert es[..|es|] == es;
    SettledPrefix(Fresh(total), es, |es|);
    InvAgrees(d);
    HalfSecondsBounded(d.items);
  }

  // ---- runs in which the two numbers part ----

  lemma RunOneMore(d: Day, es: seq<Event>, e: Event)
    ensures Run(d, es + [e]) == Step(Run(d, es), e)
  {
    assert (es + [e])[..|es|] == es;
  }

  /** A timer outlives midnight: its refund is paid into a day that never reserved the time. */
  lemma CarriedRefundParts()
    ensures var d := Run(Fresh(7200), [CreateEvent(3600), MidnightEvent(7200), CompleteEvent(0, 600.0)]);
      ComputeRemaining(d.ledger) == 10200 && Recomputed(d) == 7200
  {
    var s1 := Day(Ledger(7200, 3600, 0), 7200, [Item(3600, true, Open)]);
    var s2 := Day(Ledger(7200, 0, 0), 7200, [Item(3600, false, Open)]);
    var s3 := Day(Ledger(7200, 0, 3000), 7200, [Item(3600, false, Finished(600.0))]);
    RunOneMore(Fresh(7200), [], CreateEvent(3600));
    RunOneMore(Fresh(7200), [CreateEvent(3600)], MidnightEvent(7200));
    RunOneMore(Fresh(7200), [CreateEvent(3600), MidnightEvent(7200)], CompleteEvent(0, 600.0));
    assert [] + [CreateEvent(3600)] == [CreateEvent(3600)];
    assert [CreateEvent(3600)] + [MidnightEvent(7200)] == [CreateEvent(3600), MidnightEvent(7200)];
    assert [CreateEvent(3600), MidnightEvent(7200)] + [CompleteEvent(0, 600.0)]
        == [CreateEvent(3600), MidnightEvent(7200), CompleteEvent(0, 600.0)];
    assert CarryOver(s1.items) == s2.items;
    assert Step(s2, CompleteEvent(0, 600.0)) == s3;
    HeldAgainstUsed(s3.items);
  }

  /** One task completed on a half second: the browser shows a second more than the server. */
  lemma HalfSecondParts()
    ensures var d := Run(Fresh(100), [CreateEvent(10), CompleteEvent(0, 4.5)]);
      ComputeRemaining(d.ledger) == 96 && Recomputed(d) == 95
  {
    var s1 := Day(Ledger(100, 10, 0), 100, [Item(10, true, Open)]);
    var s2 := Day(Ledger(100, 10, 6), 100, [Item(10, true, Finished(4.5))]);
    RunOneMore(Fresh(100), [], CreateEvent(10));
    RunOneMore(Fresh(100), [CreateEvent(10)], CompleteEvent(0, 4.5));
    assert [] + [CreateEvent(10)] == [CreateEvent(10)];
    assert [CreateEvent(10)] + [CompleteEvent(0, 4.5)] == [CreateEvent(10), CompleteEvent(0, 4.5)];
    assert Step(s1, CompleteEvent(0, 4.5)) == s2;
    HeldAgainstUsed(s2.items);
  }
}
