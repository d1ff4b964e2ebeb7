/** The nightly scan for overdue tasks: what a page holds, and what one row does. */
module OverdueSpec {
  import opened Wrappers

  datatype Row = Row(id: int, user: int, title: string, done: bool, deadline: Option<int>)

  /** Instants to calendar days in the service's time zone. */
  type Calendar = int -> int

  ghost predicate Monotone(day: Calendar) {
    forall a, b :: a <= b ==> day(a) <= day(b)
  }

  datatype Kind = Overdue1Day | Overdue2Day | DeleteConfirm | Info

  /** The text is determined by the title and the kind. */
  datatype Notice = Notice(kind: Kind, overdueDays: int, title: string)

  datatype Stored = Stored(notice: Notice, user: int, isRead: bool, isDismissed: bool)

  /** The primary key that makes the upsert idempotent. */
  datatype Key = Key(task: int, serviceDate: int)

  type Table = map<Key, Stored>

  function OverdueDays(day: Calendar, deadline: int, now: int): int {
    day(now) - day(deadline)
  }

  function KindFor(days: int): Kind {
    if days >= 3 then DeleteConfirm else if days == 2 then Overdue2Day else if days == 1 then Overdue1Day else Info
  }

  function BuildNotice(title: string, days: int): Option<Notice> {
    if days < 1 then None else Some(Notice(KindFor(days), days, title))
  }

  /** The query's WHERE clause without the cursor. */
  predicate Candidate(r: Row, now: int) {
    !r.done && r.deadline.Some? && r.deadline.value < now
  }

  /** Rows in primary-key order. */
  predicate KeyOrdered(rows: seq<Row>) {
    forall i, j :: 0 <= i < j < |rows| ==> rows[i].id < rows[j].id
  }

  predicate AllDated(rows: seq<Row>) {
    forall i :: 0 <= i < |rows| ==> rows[i].deadline.Some?
  }

  /** The candidates beyond a cursor, in key order. */
  function Beyond(rows: seq<Row>, now: int, cursor: int): (selected: seq<Row>)
    ensures AllDated(selected)
  {
    if rows == [] then []
    else
      var before := Beyond(rows[..|rows| - 1], now, cursor);
      var r := rows[|rows| - 1];
      if Candidate(r, now) && r.id > cursor then before + [r] else before
  }

  /** ORDER BY task_id LIMIT size. */
  function Page(rows: seq<Row>, now: int, cursor: int, size: nat): seq<Row> {
    var all := Beyond(rows, now, cursor);
    if |all| <= size then all else all[..size]
  }

  // ---- one row ----

  /** Where a row's handling throws, if it does. */
  datatype Fault = NoFault | UpsertThrows | DispatchThrows

  type Faults = int -> Fault

  datatype Tally = Tally(scanned: nat, created: nat, skipped: nat, failed: nat)

  datatype Outcome = Outcome(table: Table, pushed: seq<Key>, tally: Tally)

  /** INSERT ... ON CONFLICT DO UPDATE: the read and dismissed flags stay. */
  function Upsert(table: Table, key: Key, user: int, notice: Notice): Table {
    if key in table then table[key := table[key].(notice := notice)]
    else table[key := Stored(notice, user, false, false)]
  }

  function NoticeFor(r: Row, day: Calendar, now: int): Option<Notice>
    requires r.deadline.Some?
  {
    BuildNotice(r.title, OverdueDays(day, r.deadline.value, now))
  }

  function HandleRow(o: Outcome, r: Row, day: Calendar, now: int, faults: Faults): Outcome
    requires r.deadline.Some?
  {
    var key := Key(r.id, day(now));
    var tally := o.tally.(scanned := o.tally.scanned + 1);
    var notice := NoticeFor(r, day, now);
    if notice.None? then o.(tally := tally.(skipped := tally.skipped + 1))
    else if faults(r.id) == UpsertThrows then o.(tally := tally.(failed := tally.failed + 1))
    else
      var table := Upsert(o.table, key, r.user, notice.value);
      if key in o.table then Outcome(table, o.pushed, tally.(skipped := tally.skipped + 1))
      else if faults(r.id) == DispatchThrows then
        Outcome(table, o.pushed, tally.(created := tally.created + 1, failed := tally.failed + 1))
      else Outcome(table, o.pushed + [key], tally.(created := tally.created + 1))
  }

  function HandleAll(o: Outcome, rs: seq<Row>, day: Calendar, now: int, faults: Faults): Outcome
    requires AllDated(rs)
  {
    if rs == [] then o
    else HandleRow(HandleAll(o, rs[..|rs| - 1], day, now, faults), rs[|rs| - 1], day, now, faults)
  }

  /** A single unpaginated pass. */
  function OnePass(table: Table, rows: seq<Row>, day: Calendar, now: int, faults: Faults): Outcome {
    HandleAll(Outcome(table, [], Tally(0, 0, 0, 0)), Beyond(rows, now, 0), day, now, faults)
  }
}

/** The paginated loop does what one pass would. */
module OverdueScan {
  import opened Wrappers
  import Members
  import opened OverdueSpec

  lemma {:induction false} HandleAllAppend(o: Outcome, xs: seq<Row>, ys: seq<Row>, day: Calendar, now: int,
                                           faults: Faults)
    requires AllDated(xs) && AllDated(ys)
    ensures HandleAll(o, xs + ys, day, now, faults)
         == HandleAll(HandleAll(o, xs, day, now, faults), ys, day, now, faults)
  {
    if ys == [] {
      assert xs + ys == xs;
    } else {
      var n := |ys| - 1;
      HandleAllAppend(o, xs, ys[..n], day, now, faults);
      assert (xs + ys)[..|xs + ys| - 1] == xs + ys[..n];
    }
  }

  lemma {:induction false} BeyondMembers(rows: seq<Row>, now: int, cursor: int)
    requires KeyOrdered(rows)
    ensures KeyOrdered(Beyond(rows, now, cursor))
    ensures forall r :: r in Beyond(rows, now, cursor) <==> r in rows && Candidate(r, now) && r.id > cursor
  {
    if rows != [] {
      var n := |rows| - 1;
      BeyondMembers(rows[..n], now, cursor);
      var before := Beyond(rows[..n], now, cursor);
      forall i | 0 <= i < |before| ensures before[i].id < rows[n].id {
        assert before[i] in rows[..n];
      }
      KeyOrderedAppend(before, rows[n]);
      assert rows == rows[..n] + [rows[n]];
    }
  }

  lemma KeyOrderedAppend(rows: seq<Row>, r: Row)
    requires KeyOrdered(rows) && forall i :: 0 <= i < |rows| ==> rows[i].id < r.id
    ensures KeyOrdered(rows + [r])
  {
  }

  /** Moving the cursor to the last id of a page leaves exactly the rows behind the page. */
  lemma {:induction false} CursorCutsThere(rows: seq<Row>, now: int, cursor: int, k: nat)
    requires KeyOrdered(rows) && 0 < k <= |Beyond(rows, now, cursor)|
    ensures var all := Beyond(rows, now, cursor);
      all[k - 1].id > cursor && Beyond(rows, now, all[k - 1].id) == all[k..]
  {
    var n := |rows| - 1;
    var all, before := Beyond(rows, now, cursor), Beyond(rows[..n], now, cursor);
    if k <= |before| {
      CursorCutsThere(rows[..n], now, cursor, k);
      MemberIsEarlier(rows, now, cursor, k - 1);
      CutExtends(rows, now, cursor, k);
    } else {
      // The page ends with the table's last row: nothing lies behind it.
      assert all == before + [rows[n]] && k == |all|;
      NothingBeyondLast(rows, now);
    }
  }

  lemma MemberIsEarlier(rows: seq<Row>, now: int, cursor: int, i: nat)
    requires KeyOrdered(rows) && rows != [] && i < |Beyond(rows[..|rows| - 1], now, cursor)|
    ensures Beyond(rows[..|rows| - 1], now, cursor)[i].id < rows[|rows| - 1].id
  {
    var n := |rows| - 1;
    BeyondMembers(rows[..n], now, cursor);
    assert Beyond(rows[..n], now, cursor)[i] in rows[..n];
  }

  /** The cut of the rows but the last, with the last row put back. */
  lemma CutExtends(rows: seq<Row>, now: int, cursor: int, k: nat)
    requires rows != [] && 0 < k <= |Beyond(rows[..|rows| - 1], now, cursor)|
    requires var before := Beyond(rows[..|rows| - 1], now, cursor);
      && cursor < before[k - 1].id < rows[|rows| - 1].id
      && Beyond(rows[..|rows| - 1], now, before[k - 1].id) == before[k..]
    ensures var all := Beyond(rows, now, cursor);
      |all| >= k && Beyond(rows, now, all[k - 1].id) == all[k..]
      && all[k - 1] == Beyond(rows[..|rows| - 1], now, cursor)[k - 1]
  {
    var n := |rows| - 1;
    var before := Beyond(rows[..n], now, cursor);
    assert (before + [rows[n]])[k..] == before[k..] + [rows[n]];
  }

  lemma NothingBeyondLast(rows: seq<Row>, now: int)
    requires KeyOrdered(rows) && rows != []
    ensures Beyond(rows, now, rows[|rows| - 1].id) == []
  {
    BeyondMembers(rows, now, rows[|rows| - 1].id);
    assert forall r :: r in rows ==> r.id <= rows[|rows| - 1].id;
    assert |Beyond(rows, now, rows[|rows| - 1].id)| == 0 by {
      Members.SomeElement(Beyond(rows, now, rows[|rows| - 1].id));
    }
  }

  /** Advancing the cursor over a page leaves the rows behind it. */
  lemma PageCuts(rows: seq<Row>, now: int, cursor: int, size: nat)
    requires KeyOrdered(rows) && size >= 1
    ensures var all, page := Beyond(rows, now, cursor), Page(rows, now, cursor, size);
      && AllDated(page) && |page| <= |all|
      && (if |page| < size then page == all else page == all[..size])
      && (page != [] ==> Beyond(rows, now, page[|page| - 1].id) == all[|page|..])
  {
    var page := Page(rows, now, cursor, size);
    if page != [] {
      CursorCutsThere(rows, now, cursor, |page|);
    }
  }

  /** Page after page from a cursor on, until a page comes back short. */
  function ScanFrom(o: Outcome, rows: seq<Row>, cursor: int, size: nat, day: Calendar, now: int,
                    faults: Faults): Outcome
    requires KeyOrdered(rows) && size >= 1
    decreases |Beyond(rows, now, cursor)|
  {
    PageCuts(rows, now, cursor, size);
    var page := Page(rows, now, cursor, size);
    if page == [] then o
    else
      var o' := HandleAll(o, page, day, now, faults);
      if |page| < size then o' else ScanFrom(o', rows, page[|page| - 1].id, size, day, now, faults)
  }

  /** For every page size, the pages add up to one pass: each row beyond the cursor once, in id order,
      and the scan ends, whichever rows fail. */
  lemma {:induction false} PaginationIsOnePass(o: Outcome, rows: seq<Row>, cursor: int, size: nat, day: Calendar,
                                               now: int, faults: Faults)
    requires KeyOrdered(rows) && size >= 1
    ensures ScanFrom(o, rows, cursor, size, day, now, faults)
         == HandleAll(o, Beyond(rows, now, cursor), day, now, faults)
    decreases |Beyond(rows, now, cursor)|
  {
    PageCuts(rows, now, cursor, size);
    var all, page := Beyond(rows, now, cursor), Page(rows, now, cursor, size);
    if |page| == size {
      var o', rest := HandleAll(o, page, day, now, faults), all[size..];
      var cursor' := page[size - 1].id;
      assert ScanFrom(o, rows, cursor, size, day, now, faults) == ScanFrom(o', rows, cursor', size, day, now, faults);
      PaginationIsOnePass(o', rows, cursor', size, day, now, faults);
      assert ScanFrom(o', rows, cursor', size, day, now, faults) == HandleAll(o', rest, day, now, faults);
      HandleSplit(o, all, size, day, now, faults);
    } else {
      assert page == all;
    }
  }

  lemma HandleSplit(o: Outcome, rs: seq<Row>, k: nat, day: Calendar, now: int, faults: Faults)
    requires AllDated(rs) && k <= |rs|
    ensures AllDated(rs[..k]) && AllDated(rs[k..])
    ensures HandleAll(o, rs, day, now, faults)
         == HandleAll(HandleAll(o, rs[..k], day, now, faults), rs[k..], day, now, faults)
  {
    HandleAllAppend(o, rs[..k], rs[k..], day, now, faults);
    assert rs[..k] + rs[k..] == rs;
  }

  /** One page of the scan. */
  lemma ScanOnePage(o: Outcome, rows: seq<Row>, cursor: int, size: nat, day: Calendar, now: int, faults: Faults)
    requires KeyOrdered(rows) && size >= 1
    ensures var page, scan := Page(rows, now, cursor, size), ScanFrom(o, rows, cursor, size, day, now, faults);
      && AllDated(page)
      && (page == [] ==> scan == o)
      && (page != [] ==> |Beyond(rows, now, page[|page| - 1].id)| < |Beyond(rows, now, cursor)|)
      && (page != [] ==>
        var o' := HandleAll(o, page, day, now, faults);
        scan == if |page| < size then o' else ScanFrom(o', rows, page[|page| - 1].id, size, day, now, faults))
  {
    PageCuts(rows, now, cursor, size);
  }

  class OverdueNotificationScheduler {
    const day: Calendar
    var notifications: Table
    var pushed: seq<Key>

    constructor (day: Calendar, notifications: Table)
      ensures this.day == day && this.notifications == notifications && pushed == []
    {
      this.day, this.notifications, this.pushed := day, notifications, [];
    }

    /** The body of the per-row try/catch. */
    method HandleOne(r: Row, now: int, faults: Faults, tally: Tally) returns (tally': Tally)
      requires r.deadline.Some?
      modifies this
      ensures Outcome(notifications, pushed, tally')
           == HandleRow(Outcome(old(notifications), old(pushed), tally), r, day, now, faults)
    {
      tally' := tally.(scanned := tally.scanned + 1);
      var overdueDays := OverdueDays(day, r.deadline.value, now);
      var notice := BuildNotice(r.title, overdueDays);
      if notice.None? {
        return tally'.(skipped := tally'.skipped + 1);
      }
      if faults(r.id) == UpsertThrows {
        return tally'.(failed := tally'.failed + 1);
      }
      var key := Key(r.id, day(now));
      var inserted := key !in notifications;
      if inserted {
        notifications := notifications[key := Stored(notice.value, r.user, false, false)];
      } else {
        notifications := notifications[key := notifications[key].(notice := notice.value)];
      }
      if inserted {
        tally' := tally'.(created := tally'.created + 1);
        if faults(r.id) == DispatchThrows {
          return tally'.(failed := tally'.failed + 1);
        }
        pushed := pushed + [key];
      } else {
        tally' := tally'.(skipped := tally'.skipped + 1);
      }
    }

    /** The loop over one page; the cursor ends on the page's last id. */
    method HandlePage(page: seq<Row>, now: int, faults: Faults, cursor: int, tally: Tally)
      returns (cursor': int, tally': Tally)
      requires AllDated(page)
      modifies this
      ensures cursor' == if page == [] then cursor else page[|page| - 1].id
      ensures Outcome(notifications, pushed, tally')
           == HandleAll(Outcome(old(notifications), old(pushed), tally), page, day, now, faults)
    {
      cursor', tally' := cursor, tally;
      var i := 0;
      while i < |page|
        invariant 0 <= i <= |page|
        invariant cursor' == if i == 0 then cursor else page[i - 1].id
        invariant Outcome(notifications, pushed, tally')
               == HandleAll(Outcome(old(notifications), old(pushed), tally), page[..i], day, now, faults)
      {
        cursor' := page[i].id;
        assert page[..i + 1][..i] == page[..i];
        tally' := HandleOne(page[i], now, faults, tally');
        i := i + 1;
      }
      assert page[..i] == page;
    }

    /** Keyset pagination over the task table; each row's failure is counted and skipped. */
    method RunDailyScan(rows: seq<Row>, now: int, size: nat, faults: Faults) returns (tally: Tally)
      requires KeyOrdered(rows) && size >= 1
      modifies this
      ensures Outcome(notifications, pushed, tally)
           == HandleAll(Outcome(old(notifications), old(pushed), Tally(0, 0, 0, 0)), Beyond(rows, now, 0),
                        day, now, faults)
    {
      var cursor := 0;
      tally := Tally(0, 0, 0, 0);
      ghost var start := Outcome(notifications, pushed, tally);
      PaginationIsOnePass(start, rows, 0, size, day, now, faults);
      while true
        invariant ScanFrom(Outcome(notifications, pushed, tally), rows, cursor, size, day, now, faults)
               == ScanFrom(start, rows, 0, size, day, now, faults)
        decreases |Beyond(rows, now, cursor)|
      {
        ScanOnePage(Outcome(notifications, pushed, tally), rows, cursor, size, day, now, faults);
        var page := Page(rows, now, cursor, size);
        if |page| == 0 {
          break;
        }
        cursor, tally := HandlePage(page, now, faults, cursor, tally);
        if |page| < size {
          return;
        }
      }
    }
  }

  // ---- what a pass promises ----

  /** The row inserts a notification whose delivery throws. */
  predicate Undelivered(table: Table, r: Row, day: Calendar, now: int, faults: Faults)
    requires r.deadline.Some?
  {
    NoticeFor(r, day, now).Some? && Key(r.id, day(now)) !in table && faults(r.id) == DispatchThrows
  }

  function CountUndelivered(table: Table, rs: seq<Row>, day: Calendar, now: int, faults: Faults): nat
    requires AllDated(rs)
  {
    if rs == [] then 0
    else
      var last := if Undelivered(table, rs[|rs| - 1], day, now, faults) then 1 else 0;
      CountUndelivered(table, rs[..|rs| - 1], day, now, faults) + last
  }

  lemma {:induction false} OtherKeysUntouched(o: Outcome, rs: seq<Row>, key: Key, day: Calendar, now: int,
                                              faults: Faults)
    requires AllDated(rs) && forall i :: 0 <= i < |rs| ==> rs[i].id != key.task
    ensures key in HandleAll(o, rs, day, now, faults).table <==> key in o.table
  {
    if rs != [] {
      OtherKeysUntouched(o, rs[..|rs| - 1], key, day, now, faults);
    }
  }

  /** Every scanned row is counted once, and once more when its delivery throws; the created ones are the rows
      the table gained, and all of those but the undelivered were pushed. */
  lemma {:induction false} TallyBalances(o: Outcome, rs: seq<Row>, day: Calendar, now: int, faults: Faults)
    requires AllDated(rs) && KeyOrdered(rs)
    ensures var t := HandleAll(o, rs, day, now, faults).tally;
      && t.scanned == o.tally.scanned + |rs|
      && t.created + t.skipped + t.failed
         == o.tally.created + o.tally.skipped + o.tally.failed + |rs| + CountUndelivered(o.table, rs, day, now, faults)
    ensures var o' := HandleAll(o, rs, day, now, faults);
      && |o'.table| - |o.table| == o'.tally.created - o.tally.created
      && |o'.pushed| - |o.pushed| + CountUndelivered(o.table, rs, day, now, faults)
         == o'.tally.created - o.tally.created
  {
    if rs != [] {
      var n := |rs| - 1;
      TallyBalances(o, rs[..n], day, now, faults);
      OtherKeysUntouched(o, rs[..n], Key(rs[n].id, day(now)), day, now, faults);
      OneRowBalances(HandleAll(o, rs[..n], day, now, faults), rs[n], day, now, faults);
    }
  }

  lemma OneRowBalances(o: Outcome, r: Row, day: Calendar, now: int, faults: Faults)
    requires r.deadline.Some?
    ensures var o' := HandleRow(o, r, day, now, faults);
      var undelivered := if Undelivered(o.table, r, day, now, faults) then 1 else 0;
      && o'.tally.scanned == o.tally.scanned + 1
      && o'.tally.created + o'.tally.skipped + o'.tally.failed
         == o.tally.created + o.tally.skipped + o.tally.failed + 1 + undelivered
      && |o'.table| - |o.table| == o'.tally.created - o.tally.created
      && |o'.pushed| - |o.pushed| + undelivered == o'.tally.created - o.tally.created
  {
  }

  predicate NothingUndelivered(table: Table, rs: seq<Row>, day: Calendar, now: int, faults: Faults)
    requires AllDated(rs)
  {
    forall i :: 0 <= i < |rs| ==> !Undelivered(table, rs[i], day, now, faults)
  }

  lemma {:induction false} NoneUndelivered(table: Table, rs: seq<Row>, day: Calendar, now: int, faults: Faults)
    requires AllDated(rs)
    ensures CountUndelivered(table, rs, day, now, faults) == 0
      <==> NothingUndelivered(table, rs, day, now, faults)
  {
    if rs != [] {
      var n := |rs| - 1;
      NoneUndelivered(table, rs[..n], day, now, faults);
      assert forall i :: 0 <= i < n ==> rs[..n][i] == rs[i];
    }
  }

  /** scanned = created + skipped + failed exactly when no new notification's delivery throws. */
  lemma CountersAgreeExactly(table: Table, rows: seq<Row>, day: Calendar, now: int, faults: Faults)
    requires KeyOrdered(rows)
    ensures var t := OnePass(table, rows, day, now, faults).tally;
      t.scanned == t.created + t.skipped + t.failed
      <==> NothingUndelivered(table, Beyond(rows, now, 0), day, now, faults)
  {
    BeyondMembers(rows, now, 0);
    TallyBalances(Outcome(table, [], Tally(0, 0, 0, 0)), Beyond(rows, now, 0), day, now, faults);
    NoneUndelivered(table, Beyond(rows, now, 0), day, now, faults);
  }

  /** The coarse filter drops no task that is a day or more overdue. */
  lemma CoarseFilterIsSafe(day: Calendar, r: Row, now: int)
    requires Monotone(day) && !r.done && r.deadline.Some? && OverdueDays(day, r.deadline.value, now) >= 1
    ensures Candidate(r, now)
  {
    LaterDayLaterInstant(day, now, r.deadline.value);
  }

  lemma LaterDayLaterInstant(day: Calendar, a: int, b: int)
    requires Monotone(day)
    ensures day(a) > day(b) ==> a > b
  {
  }

  /** Every unfinished overdue task with a positive id is visited once, in id order. */
  lemma VisitsExactly(rows: seq<Row>, day: Calendar, now: int, r: Row)
    requires KeyOrdered(rows) && Monotone(day)
    requires r in rows && !r.done && r.id > 0
    requires r.deadline.Some? && OverdueDays(day, r.deadline.value, now) >= 1
    ensures KeyOrdered(Beyond(rows, now, 0))
    ensures r in Beyond(rows, now, 0)
    ensures forall i, j :: 0 <= i < j < |Beyond(rows, now, 0)| ==>
      !(Beyond(rows, now, 0)[i].id == r.id && Beyond(rows, now, 0)[j].id == r.id)
  {
    BeyondMembers(rows, now, 0);
    CoarseFilterIsSafe(day, r, now);
  }

  // ---- reruns ----

  /** What happens to the notifications between and during scans. */
  datatype Event =
    | ScanEvent(rows: seq<Row>, now: int, faults: Faults)
    | MarkRead(key: Key)
    | Dismiss(key: Key)

  datatype History = History(table: Table, pushed: seq<Key>)

  function Do(h: History, e: Event, day: Calendar): History {
    match e
    case ScanEvent(rows, now, faults) =>
      var o := HandleAll(Outcome(h.table, h.pushed, Tally(0, 0, 0, 0)), Beyond(rows, now, 0), day, now, faults);
      History(o.table, o.pushed)
    case MarkRead(key) => if key in h.table then h.(table := h.table[key := h.table[key].(isRead := true)]) else h
    case Dismiss(key) => if key in h.table then h.(table := h.table[key := h.table[key].(isDismissed := true)]) else h
  }

  function DoAll(h: History, es: seq<Event>, day: Calendar): History {
    if es == [] then h else Do(DoAll(h, es[..|es| - 1], day), es[|es| - 1], day)
  }

  predicate NoRepeats(keys: seq<Key>) {
    forall i, j :: 0 <= i < j < |keys| ==> keys[i] != keys[j]
  }

  /** Flags only ever go from clear to set, and no row disappears. */
  predicate FlagsKept(a: Table, b: Table) {
    forall k :: k in a ==>
      && k in b && b[k].user == a[k].user
      && (a[k].isRead ==> b[k].isRead) && (a[k].isDismissed ==> b[k].isDismissed)
  }

  predicate FlagsUntouched(a: Table, b: Table) {
    forall k :: k in a ==> k in b && b[k] == a[k].(notice := b[k].notice)
  }

  predicate PushesStored(table: Table, pushed: seq<Key>) {
    NoRepeats(pushed) && forall i :: 0 <= i < |pushed| ==> pushed[i] in table
  }

  lemma {:induction false} ScanKeepsPushes(o: Outcome, rs: seq<Row>, day: Calendar, now: int, faults: Faults)
    requires PushesStored(o.table, o.pushed) && AllDated(rs)
    ensures var o' := HandleAll(o, rs, day, now, faults);
      && PushesStored(o'.table, o'.pushed)
      && FlagsUntouched(o.table, o'.table)
      && o.pushed <= o'.pushed
      && (forall i :: |o.pushed| <= i < |o'.pushed| ==>
        o'.pushed[i].serviceDate == day(now) && o'.pushed[i] !in o.table)
  {
    if rs != [] {
      ScanKeepsPushes(o, rs[..|rs| - 1], day, now, faults);
    }
  }

  /** Over any history of scans and user actions, each (task, service date) is pushed at most once,
      every pushed notification is stored, and no flag a user set is ever cleared. */
  lemma {:induction false} PushedAtMostOnce(h: History, es: seq<Event>, day: Calendar)
    requires PushesStored(h.table, h.pushed)
    ensures PushesStored(DoAll(h, es, day).table, DoAll(h, es, day).pushed)
    ensures FlagsKept(h.table, DoAll(h, es, day).table)
  {
    if es != [] {
      var n := |es| - 1;
      PushedAtMostOnce(h, es[..n], day);
      var before := DoAll(h, es[..n], day);
      if es[n].ScanEvent? {
        ScanKeepsPushes(Outcome(before.table, before.pushed, Tally(0, 0, 0, 0)),
                        Beyond(es[n].rows, es[n].now, 0), day, es[n].now, es[n].faults);
      }
    }
  }

  /** Over any history, a row is read at the end exactly when it was at the start or a user marked it since, and the
      same for dismissed: nothing else sets or clears either flag. */
  lemma {:induction false} FlagsAreTheUsers(h: History, es: seq<Event>, day: Calendar, key: Key)
    requires key in h.table
    ensures var table := DoAll(h, es, day).table;
      && key in table && table[key].user == h.table[key].user
      && (table[key].isRead <==> h.table[key].isRead || MarkRead(key) in es)
      && (table[key].isDismissed <==> h.table[key].isDismissed || Dismiss(key) in es)
  {
    if es != [] {
      var n := |es| - 1;
      FlagsAreTheUsers(h, es[..n], day, key);
      assert es == es[..n] + [es[n]];
      var before := DoAll(h, es[..n], day);
      if es[n].ScanEvent? {
        ScanKeepsFlags(Outcome(before.table, before.pushed, Tally(0, 0, 0, 0)),
                       Beyond(es[n].rows, es[n].now, 0), day, es[n].now, es[n].faults);
      }
    }
  }

  lemma {:induction false} ScanKeepsFlags(o: Outcome, rs: seq<Row>, day: Calendar, now: int, faults: Faults)
    requires AllDated(rs)
    ensures FlagsUntouched(o.table, HandleAll(o, rs, day, now, faults).table)
  {
    if rs != [] {
      ScanKeepsFlags(o, rs[..|rs| - 1], day, now, faults);
    }
  }

  predicate Faultless(rs: seq<Row>, faults: Faults) {
    forall i :: 0 <= i < |rs| ==> faults(rs[i].id) != UpsertThrows
  }

  /** Every row that earns a notice has exactly that notice stored. */
  predicate Settled(table: Table, rs: seq<Row>, day: Calendar, now: int)
    requires AllDated(rs)
  {
    forall i :: 0 <= i < |rs| ==>
      var notice := NoticeFor(rs[i], day, now);
      notice.Some? ==> Key(rs[i].id, day(now)) in table && table[Key(rs[i].id, day(now))].notice == notice.value
  }

  lemma {:induction false} ScanSettles(o: Outcome, rs: seq<Row>, day: Calendar, now: int, faults: Faults)
    requires AllDated(rs) && KeyOrdered(rs) && Faultless(rs, faults)
    ensures Settled(HandleAll(o, rs, day, now, faults).table, rs, day, now)
  {
    if rs != [] {
      var n := |rs| - 1;
      ScanSettles(o, rs[..n], day, now, faults);
      var before := HandleAll(o, rs[..n], day, now, faults);
      forall i | 0 <= i < n ensures rs[i].id != rs[n].id && rs[i] == rs[..n][i] {
      }
    }
  }

  /** What a scan looks at: the tasks not done whose deadline has passed, with an id beyond the cursor. */
  lemma SelectedExactly(rows: seq<Row>, now: int, cursor: int, r: Row)
    requires KeyOrdered(rows)
    ensures r in Beyond(rows, now, cursor) <==>
      r in rows && !r.done && r.deadline.Some? && r.deadline.value < now && r.id > cursor
  {
    BeyondMembers(rows, now, cursor);
  }

  /** The notice a task earns: the number of days, the title, and a kind of its own for one day, two days and more. */
  lemma NoticeByDays(r: Row, day: Calendar, now: int)
    requires r.deadline.Some?
    ensures var days, notice := day(now) - day(r.deadline.value), NoticeFor(r, day, now);
      && (days <= 0 ==> notice == None && KindFor(days) == Info)
      && (days == 1 ==> notice == Some(Notice(Overdue1Day, 1, r.title)))
      && (days == 2 ==> notice == Some(Notice(Overdue2Day, 2, r.title)))
      && (days >= 3 ==> notice == Some(Notice(DeleteConfirm, days, r.title)))
  {
  }

  /** After a pass in which no upsert fails, each visited task that is overdue has its notice of the day stored, for its
      owner if the row is new, unread and not dismissed. */
  lemma PassStoresNotices(table: Table, rows: seq<Row>, day: Calendar, now: int, faults: Faults, r: Row)
    requires KeyOrdered(rows) && Faultless(rows, faults) && r in Beyond(rows, now, 0)
    requires r.deadline.Some? && NoticeFor(r, day, now).Some?
    ensures var table', key := OnePass(table, rows, day, now, faults).table, Key(r.id, day(now));
      && key in table' && table'[key].notice == NoticeFor(r, day, now).value
      && (key !in table ==> table'[key] == Stored(NoticeFor(r, day, now).value, r.user, false, false))
      && (key in table ==> table'[key] == table[key].(notice := NoticeFor(r, day, now).value))
  {
    var all, o := Beyond(rows, now, 0), Outcome(table, [], Tally(0, 0, 0, 0));
    BeyondMembers(rows, now, 0);
    forall i | 0 <= i < |all| ensures faults(all[i].id) != UpsertThrows {
      assert all[i] in rows;
    }
    var i :| 0 <= i < |all| && all[i] == r;
    StoredOnce(o, all, i, day, now, faults);
  }

  lemma {:induction false} StoredOnce(o: Outcome, rs: seq<Row>, i: nat, day: Calendar, now: int, faults: Faults)
    requires AllDated(rs) && KeyOrdered(rs) && Faultless(rs, faults) && i < |rs| && NoticeFor(rs[i], day, now).Some?
    ensures var key := Key(rs[i].id, day(now));
      HandleAll(o, rs, day, now, faults).table.Keys >= {key}
      && HandleAll(o, rs, day, now, faults).table[key]
         == Upsert(o.table, key, rs[i].user, NoticeFor(rs[i], day, now).value)[key]
  {
    var n, key := |rs| - 1, Key(rs[i].id, day(now));
    var before := HandleAll(o, rs[..n], day, now, faults);
    if i == n {
      RowUntouched(o, rs[..n], key, day, now, faults);
    } else {
      assert rs[..n][i] == rs[i] && rs[i].id != rs[n].id;
      StoredOnce(o, rs[..n], i, day, now, faults);
    }
  }

  /** Handling other tasks leaves this key's row as it is. */
  lemma {:induction false} RowUntouched(o: Outcome, rs: seq<Row>, key: Key, day: Calendar, now: int, faults: Faults)
    requires AllDated(rs) && forall i :: 0 <= i < |rs| ==> rs[i].id != key.task
    ensures var table := HandleAll(o, rs, day, now, faults).table;
      (key in table <==> key in o.table) && (key in o.table ==> table[key] == o.table[key])
  {
    if rs != [] {
      RowUntouched(o, rs[..|rs| - 1], key, day, now, faults);
    }
  }

  lemma {:induction false} SettledScanIsIdle(o: Outcome, rs: seq<Row>, day: Calendar, now: int, faults: Faults)
    requires AllDated(rs) && Settled(o.table, rs, day, now)
    ensures var o' := HandleAll(o, rs, day, now, faults);
      o'.table == o.table && o'.pushed == o.pushed && o'.tally.created == o.tally.created
  {
    if rs != [] {
      var n := |rs| - 1;
      SettledScanIsIdle(o, rs[..n], day, now, faults);
      var before := HandleAll(o, rs[..n], day, now, faults);
      var r := rs[n];
      var notice := NoticeFor(r, day, now);
      if notice.Some? {
        assert Upsert(o.table, Key(r.id, day(now)), r.user, notice.value) == o.table;
      }
    }
  }

  /** After a pass in which no upsert fails, rerunning at the same instant creates nothing,
      pushes nothing and leaves the table as it is, whatever fails in the rerun. */
  lemma RerunIsIdle(table: Table, rows: seq<Row>, day: Calendar, now: int, faults: Faults, faults': Faults)
    requires KeyOrdered(rows) && Faultless(rows, faults)
    ensures var first := OnePass(table, rows, day, now, faults);
      var again := OnePass(first.table, rows, day, now, faults');
      again.table == first.table && again.pushed == [] && again.tally.created == 0
  {
    var all := Beyond(rows, now, 0);
    BeyondMembers(rows, now, 0);
    forall i | 0 <= i < |all| ensures faults(all[i].id) != UpsertThrows {
      assert all[i] in rows;
    }
    var zero := Tally(0, 0, 0, 0);
    ScanSettles(Outcome(table, [], zero), all, day, now, faults);
    var first := OnePass(table, rows, day, now, faults);
    SettledScanIsIdle(Outcome(first.table, [], zero), all, day, now, faults');
  }
}

/** The scan reads the table once per page, with no transaction around the reads: tasks may come, go and
    change between two pages. */
module OverdueMoving {
  import opened OverdueSpec
  import OverdueScan

  ghost predicate AllOrdered(tables: seq<seq<Row>>) {
    forall k :: 0 <= k < |tables| ==> KeyOrdered(tables[k])
  }

  /** The rows handled when page after page is read from one table after the other. */
  function Visited(tables: seq<seq<Row>>, now: int, cursor: int, size: nat): seq<Row> {
    if tables == [] then []
    else
      var page := Page(tables[0], now, cursor, size);
      if page == [] || |page| < size then page
      else page + Visited(tables[1..], now, page[|page| - 1].id, size)
  }

  /** One of these reads comes back short, which ends the scan. */
  predicate Ends(tables: seq<seq<Row>>, now: int, cursor: int, size: nat) {
    tables != [] &&
    var page := Page(tables[0], now, cursor, size);
    page == [] || |page| < size || Ends(tables[1..], now, page[|page| - 1].id, size)
  }

  predicate HasId(rows: seq<Row>, id: int) {
    exists i :: 0 <= i < |rows| && rows[i].id == id
  }

  predicate HasCandidate(rows: seq<Row>, id: int, now: int) {
    exists i :: 0 <= i < |rows| && rows[i].id == id && Candidate(rows[i], now)
  }

  predicate AllBeyond(rows: seq<Row>, cursor: int) {
    forall i :: 0 <= i < |rows| ==> rows[i].id > cursor
  }

  predicate AllCandidates(picked: seq<Row>, rows: seq<Row>, now: int) {
    forall i :: 0 <= i < |picked| ==> picked[i] in rows && Candidate(picked[i], now)
  }

  lemma PageIsOrdered(rows: seq<Row>, now: int, cursor: int, size: nat)
    requires KeyOrdered(rows)
    ensures var page := Page(rows, now, cursor, size);
      KeyOrdered(page) && AllBeyond(page, cursor) && AllCandidates(page, rows, now)
  {
    OverdueScan.BeyondMembers(rows, now, cursor);
    var all, page := Beyond(rows, now, cursor), Page(rows, now, cursor, size);
    forall i | 0 <= i < |page| ensures page[i].id > cursor && page[i] in rows && Candidate(page[i], now) {
      assert page[i] == all[i] && all[i] in all;
    }
  }

  lemma OrderedJoin(xs: seq<Row>, ys: seq<Row>, cursor: int)
    requires KeyOrdered(xs) && KeyOrdered(ys) && xs != []
    requires AllBeyond(xs, cursor) && AllBeyond(ys, xs[|xs| - 1].id)
    ensures KeyOrdered(xs + ys) && AllBeyond(xs + ys, cursor)
  {
    forall i | 0 <= i < |xs + ys| ensures (xs + ys)[i].id > cursor {
      if |xs| <= i {
        assert ys[i - |xs|].id > xs[|xs| - 1].id > cursor;
      }
    }
    forall i, j | 0 <= i < j < |xs + ys| ensures (xs + ys)[i].id < (xs + ys)[j].id {
      if i < |xs| <= j {
        assert xs[i].id <= xs[|xs| - 1].id < ys[j - |xs|].id;
      }
    }
  }

  /** Whatever happens to the table between two reads, the handled ids strictly increase: no task twice. */
  lemma {:induction false} NobodyTwice(tables: seq<seq<Row>>, now: int, cursor: int, size: nat)
    requires AllOrdered(tables)
    ensures KeyOrdered(Visited(tables, now, cursor, size)) && AllBeyond(Visited(tables, now, cursor, size), cursor)
    decreases |tables|
  {
    if tables != [] {
      var page := Page(tables[0], now, cursor, size);
      PageIsOrdered(tables[0], now, cursor, size);
      if page != [] && |page| >= size {
        var last := page[|page| - 1].id;
        NobodyTwice(tables[1..], now, last, size);
        OrderedJoin(page, Visited(tables[1..], now, last, size), cursor);
      }
    }
  }

  /** A candidate beyond the cursor is on the page, or behind its last row on a full one. */
  lemma OnPageOrBehind(rows: seq<Row>, now: int, cursor: int, size: nat, id: int)
    requires KeyOrdered(rows) && size >= 1 && HasCandidate(rows, id, now) && id > cursor
    ensures var page := Page(rows, now, cursor, size);
      HasId(page, id) || (|page| == size && id > page[size - 1].id)
  {
    OverdueScan.BeyondMembers(rows, now, cursor);
    var all, page := Beyond(rows, now, cursor), Page(rows, now, cursor, size);
    var k :| 0 <= k < |rows| && rows[k].id == id && Candidate(rows[k], now);
    assert rows[k] in all;
    var j :| 0 <= j < |all| && all[j] == rows[k];
    if j < |page| {
      assert page[j].id == id;
    }
  }

  /** A task that stays a candidate through every read of a scan that ends is handled, and by NobodyTwice once. */
  lemma {:induction false} SteadyTaskIsVisited(tables: seq<seq<Row>>, now: int, cursor: int, size: nat, id: int)
    requires AllOrdered(tables) && size >= 1 && Ends(tables, now, cursor, size) && id > cursor
    requires forall k :: 0 <= k < |tables| ==> HasCandidate(tables[k], id, now)
    ensures HasId(Visited(tables, now, cursor, size), id)
    decreases |tables|
  {
    var page := Page(tables[0], now, cursor, size);
    OnPageOrBehind(tables[0], now, cursor, size, id);
    if page != [] && |page| >= size {
      var last := page[|page| - 1].id;
      if !HasId(page, id) {
        SteadyTaskIsVisited(tables[1..], now, last, size, id);
      }
      HasIdJoin(page, Visited(tables[1..], now, last, size), id);
    }
  }

  /** The scan ends exactly when the pages are not all full, and reads nothing after that. */
  lemma {:induction false} EndsOnAShortPage(tables: seq<seq<Row>>, more: seq<seq<Row>>, now: int, cursor: int,
                                            size: nat)
    requires size >= 1
    ensures Ends(tables, now, cursor, size) <==> |Visited(tables, now, cursor, size)| < size * |tables|
    ensures Ends(tables, now, cursor, size) ==>
      Visited(tables + more, now, cursor, size) == Visited(tables, now, cursor, size)
    decreases |tables|
  {
    if tables != [] {
      var page := Page(tables[0], now, cursor, size);
      assert (tables + more)[0] == tables[0] && (tables + more)[1..] == tables[1..] + more;
      assert size * |tables| == size + size * |tables[1..]|;
      if page != [] && |page| >= size {
        EndsOnAShortPage(tables[1..], more, now, page[|page| - 1].id, size);
      }
    }
  }

  lemma HasIdJoin(xs: seq<Row>, ys: seq<Row>, id: int)
    ensures HasId(xs, id) || HasId(ys, id) ==> HasId(xs + ys, id)
  {
    if HasId(xs, id) {
      var i :| 0 <= i < |xs| && xs[i].id == id;
      assert (xs + ys)[i].id == id;
    } else if HasId(ys, id) {
      var i :| 0 <= i < |ys| && ys[i].id == id;
      assert (xs + ys)[|xs| + i].id == id;
    }
  }

  /** Every handled row was a candidate in one of the tables read. */
  lemma {:induction false} VisitedWereCandidates(tables: seq<seq<Row>>, now: int, cursor: int, size: nat)
    requires AllOrdered(tables)
    ensures forall r :: r in Visited(tables, now, cursor, size) ==>
      Candidate(r, now) && exists k :: 0 <= k < |tables| && r in tables[k]
    decreases |tables|
  {
    if tables != [] {
      var page := Page(tables[0], now, cursor, size);
      PageIsOrdered(tables[0], now, cursor, size);
      if page != [] && |page| >= size {
        var last := page[|page| - 1].id;
        VisitedWereCandidates(tables[1..], now, last, size);
        forall r | r in Visited(tables[1..], now, last, size) ensures exists k :: 0 <= k < |tables| && r in tables[k] {
          var k :| 0 <= k < |tables[1..]| && r in tables[1..][k];
          assert r in tables[k + 1];
        }
      }
    }
  }
}
