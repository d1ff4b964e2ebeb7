/** Scored responses and the order they are ranked in. */
module RankingOrder {
  import opened Wrappers

  datatype Level = Red | Yellow | Green | Stale | NoLevel

  datatype Reason =
    | NoReason
    | Plain(text: string)
    | LeastCompleted(category: string, completed: nat)
    | UserPinned
    | UserPinnedOver(base: Reason)

  /** `score` is in hundredths: the mapper rounds to two decimals. */
  datatype Response = Response(
    id: Option<int>,
    category: string,
    minutes: int,
    score: int,
    level: Level,
    urgency: Option<real>,
    importance: Option<real>,
    exploration: bool,
    pinned: bool,
    reason: Reason)

  predicate IsRed(r: Response) {
    r.level == Red
  }

  // ---- the six keys ----

  function CompareReal(x: real, y: real): int {
    if x < y then -1 else if x > y then 1 else 0
  }

  function CompareInt(x: int, y: int): int {
    if x < y then -1 else if x > y then 1 else 0
  }

  function CompareBool(x: bool, y: bool): int {
    if !x && y then -1 else if x && !y then 1 else 0
  }

  /** Comparator.nullsLast(naturalOrder()). */
  function CompareId(x: Option<int>, y: Option<int>): int {
    match (x, y)
    case (None, None) => 0
    case (None, Some(_)) => 1
    case (Some(_), None) => -1
    case (Some(a), Some(b)) => CompareInt(a, b)
  }

  function Then(first: int, second: int): int {
    if first != 0 then first else second
  }

  /** BY_PRIORITY: red first, then higher score, urgency, importance, then shorter, then smaller id. */
  function Compare(a: Response, b: Response): int {
    Then(CompareBool(IsRed(b), IsRed(a)),
      Then(CompareInt(b.score, a.score),
        Then(CompareReal(b.urgency.GetOr(0.0), a.urgency.GetOr(0.0)),
          Then(CompareReal(b.importance.GetOr(0.0), a.importance.GetOr(0.0)),
            Then(CompareInt(a.minutes, b.minutes), CompareId(a.id, b.id))))))
  }

  predicate Before(a: Response, b: Response) {
    Compare(a, b) < 0
  }

  predicate DistinctIds(rs: seq<Response>) {
    forall i, j :: 0 <= i < j < |rs| ==> rs[i].id != rs[j].id
  }

  /** BY_PRIORITY is a strict total order on responses with different ids. */
  lemma StrictTotalOrder(a: Response, b: Response, c: Response)
    ensures !Before(a, a)
    ensures Before(a, b) ==> !Before(b, a)
    ensures Before(a, b) && Before(b, c) ==> Before(a, c)
    ensures a.id != b.id ==> Before(a, b) || Before(b, a)
    ensures IsRed(a) && !IsRed(b) ==> Before(a, b)
    ensures IsRed(a) == IsRed(b) && a.score > b.score ==> Before(a, b)
  {
    if Before(a, b) && Before(b, c) {
      var redAB, redBC := CompareBool(IsRed(b), IsRed(a)), CompareBool(IsRed(c), IsRed(b));
      if redAB == 0 && redBC == 0 {
        TieOrder(a, b, c);
      }
    }
  }

  /** Transitivity below the first key. */
  lemma TieOrder(a: Response, b: Response, c: Response)
    requires IsRed(a) == IsRed(b) == IsRed(c) && Before(a, b) && Before(b, c)
    ensures Before(a, c)
  {
  }

  // ---- what the keys mean, on the fields ----

  function Urgency(r: Response): real {
    if r.urgency.Some? then r.urgency.value else 0.0
  }

  function Importance(r: Response): real {
    if r.importance.Some? then r.importance.value else 0.0
  }

  predicate IdFirst(a: Response, b: Response) {
    a.id.Some? && (b.id.None? || a.id.value < b.id.value)
  }

  /** `a` belongs before `b`: the red one; among those the higher score; then the more urgent, the more important,
      the quicker one, and the smaller id, a missing one last. */
  predicate Outranks(a: Response, b: Response) {
    || (a.level == Red && b.level != Red)
    || ((a.level == Red <==> b.level == Red)
        && (a.score > b.score
            || (a.score == b.score
                && (Urgency(a) > Urgency(b)
                    || (Urgency(a) == Urgency(b)
                        && (Importance(a) > Importance(b)
                            || (Importance(a) == Importance(b)
                                && (a.minutes < b.minutes || (a.minutes == b.minutes && IdFirst(a, b))))))))))
  }

  lemma BeforeIsOutranks(a: Response, b: Response)
    ensures Before(a, b) <==> Outranks(a, b)
  {
  }

  // ---- sorting ----

  predicate Sorted(rs: seq<Response>) {
    forall i, j :: 0 <= i < j < |rs| ==> Before(rs[i], rs[j])
  }

  function Insert(rs: seq<Response>, r: Response): seq<Response> {
    if rs == [] then [r]
    else if Before(r, rs[0]) then [r] + rs
    else [rs[0]] + Insert(rs[1..], r)
  }

  /** What List.sort(BY_PRIORITY) leaves, as an insertion sort. */
  function Sort(rs: seq<Response>): seq<Response> {
    if rs == [] then [] else Insert(Sort(rs[..|rs| - 1]), rs[|rs| - 1])
  }

  lemma {:induction false} InsertKeepsSorted(rs: seq<Response>, r: Response)
    requires Sorted(rs) && forall i :: 0 <= i < |rs| ==> rs[i].id != r.id
    ensures Sorted(Insert(rs, r))
    ensures multiset(Insert(rs, r)) == multiset(rs) + multiset{r}
  {
    if rs != [] {
      if Before(r, rs[0]) {
        forall i | 0 < i < |rs| ensures Before(r, rs[i]) {
          StrictTotalOrder(r, rs[0], rs[i]);
        }
        PrependSorted(r, rs);
      } else {
        StrictTotalOrder(rs[0], r, r);
        InsertKeepsSorted(rs[1..], r);
        var rest := Insert(rs[1..], r);
        assert [rs[0]] + rs[1..] == rs;
        forall j | 0 <= j < |rest| ensures Before(rs[0], rest[j]) {
          assert rest[j] in multiset(rest);
          assert rest[j] == r || rest[j] in multiset(rs[1..]);
        }
        PrependSorted(rs[0], rest);
      }
    }
  }

  lemma PrependSorted(first: Response, rest: seq<Response>)
    requires Sorted(rest) && forall j :: 0 <= j < |rest| ==> Before(first, rest[j])
    ensures Sorted([first] + rest)
  {
  }

  lemma {:induction false} SortSorts(rs: seq<Response>)
    requires DistinctIds(rs)
    ensures Sorted(Sort(rs)) && multiset(Sort(rs)) == multiset(rs)
  {
    if rs != [] {
      var n := |rs| - 1;
      SortSorts(rs[..n]);
      assert rs[..n] + [rs[n]] == rs;
      forall i | 0 <= i < |Sort(rs[..n])| ensures Sort(rs[..n])[i].id != rs[n].id {
        assert Sort(rs[..n])[i] in multiset(rs[..n]);
      }
      InsertKeepsSorted(Sort(rs[..n]), rs[n]);
    }
  }

  /** In the ranking every task outranks, key by key, all tasks below it. */
  lemma RankedByKeys(rs: seq<Response>)
    requires DistinctIds(rs)
    ensures forall i, j :: 0 <= i < j < |Sort(rs)| ==> Outranks(Sort(rs)[i], Sort(rs)[j])
  {
    SortSorts(rs);
    forall i, j | 0 <= i < j < |Sort(rs)| ensures Outranks(Sort(rs)[i], Sort(rs)[j]) {
      BeforeIsOutranks(Sort(rs)[i], Sort(rs)[j]);
    }
  }

  lemma SameHead(xs: seq<Response>, ys: seq<Response>)
    requires Sorted(xs) && Sorted(ys) && multiset(xs) == multiset(ys) && xs != [] && ys != []
    ensures xs[0] == ys[0]
  {
    assert xs[0] in multiset(ys) && ys[0] in multiset(xs);
    var i :| 0 <= i < |ys| && ys[i] == xs[0];
    var j :| 0 <= j < |xs| && xs[j] == ys[0];
    if i > 0 && j > 0 {
      StrictTotalOrder(xs[0], ys[0], ys[0]);
    }
  }

  lemma WithoutHead(xs: seq<Response>)
    requires xs != []
    ensures multiset(xs[1..]) == multiset(xs) - multiset{xs[0]}
  {
    assert xs == [xs[0]] + xs[1..];
  }

  /** A set of responses has only one sorted arrangement, so any sort gives this ranking. */
  lemma {:induction false} SortedIsUnique(xs: seq<Response>, ys: seq<Response>)
    requires Sorted(xs) && Sorted(ys) && multiset(xs) == multiset(ys)
    ensures xs == ys
  {
    assert |multiset(xs)| == |xs| && |multiset(ys)| == |ys|;
    if xs != [] {
      SameHead(xs, ys);
      WithoutHead(xs);
      WithoutHead(ys);
      SortedIsUnique(xs[1..], ys[1..]);
      assert xs == [xs[0]] + xs[1..];
      assert ys == [ys[0]] + ys[1..];
    }
  }

  /** The order in which tasks arrive does not matter. */
  lemma RankingIgnoresArrival(xs: seq<Response>, ys: seq<Response>)
    requires DistinctIds(xs) && DistinctIds(ys) && multiset(xs) == multiset(ys)
    ensures Sort(xs) == Sort(ys)
  {
    SortSorts(xs);
    SortSorts(ys);
    SortedIsUnique(Sort(xs), Sort(ys));
  }

  /** No response that is not red precedes a red one. */
  predicate RedFirst(rs: seq<Response>) {
    forall i, j :: 0 <= i < j < |rs| && IsRed(rs[j]) ==> IsRed(rs[i])
  }

  lemma SortedIsRedFirst(rs: seq<Response>)
    requires Sorted(rs)
    ensures RedFirst(rs)
  {
    forall i, j | 0 <= i < j < |rs| && IsRed(rs[j]) ensures IsRed(rs[i]) {
      assert Before(rs[i], rs[j]);
    }
  }
}
